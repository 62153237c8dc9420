/** Inverse-CDF sampling of photon energies (_generate_energies,
    soxs/spectra.py:30-40) and the mean flux its two callers compute from the
    sample. The Poisson count and the uniform draws are inputs: the model
    receives the draws after randvec.sort(), so their number is n_ph. */
module Sampling {
  import opened Numerics
  import opened Constants

  /** Each sorted uniform draw mapped through np.interp from the cumulative
      distribution onto the bin edges. */
  function GenerateEnergies(cumspec: seq<real>, ebins: seq<real>, sortedDraws: seq<real>): (e: seq<real>)
    requires |cumspec| == |ebins| >= 1 && NonDecreasing(cumspec)
    ensures |e| == |sortedDraws|
  {
    seq(|sortedDraws|, k requires 0 <= k < |sortedDraws| => Interp(sortedDraws[k], cumspec, ebins))
  }

  /** The energies come out sorted and inside the grid: sorted draws pass
      through a monotone interpolation, clamped at both ends. */
  lemma GeneratedEnergiesSortedInGrid(cumspec: seq<real>, ebins: seq<real>, sortedDraws: seq<real>)
    requires |cumspec| == |ebins| >= 1 && NonDecreasing(cumspec) && NonDecreasing(ebins)
    requires NonDecreasing(sortedDraws)
    ensures NonDecreasing(GenerateEnergies(cumspec, ebins, sortedDraws))
    ensures forall k :: 0 <= k < |sortedDraws| ==>
      ebins[0] <= GenerateEnergies(cumspec, ebins, sortedDraws)[k] <= ebins[|ebins| - 1]
  {
    var e := GenerateEnergies(cumspec, ebins, sortedDraws);
    forall i, j | 0 <= i <= j < |e| ensures e[i] <= e[j] {
      InterpMonotone(sortedDraws[i], sortedDraws[j], cumspec, ebins);
    }
    forall k | 0 <= k < |e| ensures ebins[0] <= e[k] <= ebins[|ebins| - 1] {
      InterpRange(sortedDraws[k], cumspec, ebins);
    }
  }

  /** A draw that lands exactly on the cumulative value at edge k (with
      distinct cumulative values) yields the edge energy itself. */
  lemma DrawOnCumulativeGivesEdge(cumspec: seq<real>, ebins: seq<real>, sortedDraws: seq<real>, k: nat, i: nat)
    requires |cumspec| == |ebins| >= 1 && StrictlyIncreasing(cumspec)
    requires k < |sortedDraws| && i < |cumspec| && sortedDraws[k] == cumspec[i]
    ensures NonDecreasing(cumspec) && GenerateEnergies(cumspec, ebins, sortedDraws)[k] == ebins[i]
  {
    InterpAtPoint(cumspec, ebins, i);
  }

  /** Float division of an already-divided value, as numpy carries an
      infinity or a NaN through a second division (the sign of a zero divisor
      is not modelled). */
  function DivideAgain(f: Float, b: real): Float
  {
    match f
    case Finite(a) => Divide(a, b)
    case PosInf => if b < 0.0 then NegInf else PosInf
    case NegInf => if b < 0.0 then PosInf else NegInf
    case NaN => NaN
  }

  /** Spectrum.generate_energies: the sample's energy flux
      np.sum(energy)*erg_per_keV/t_exp/area (soxs/spectra.py:514). */
  function SampleFlux(energies: seq<real>, tExp: real, area: real): (r: Float)
    ensures 0.0 < tExp && 0.0 < area ==> r == Finite(Sum(energies) * ERG_PER_KEV / (tExp * area))
  {
    var f := DivideAgain(Divide(Sum(energies) * ERG_PER_KEV, tExp), area);
    if 0.0 < tExp && 0.0 < area then
      assert Sum(energies) * ERG_PER_KEV / tExp / area == Sum(energies) * ERG_PER_KEV / (tExp * area);
      f
    else f
  }

  /** ConvolvedSpectrum.generate_energies: the same energy sum divided by the
      summed effective area at the drawn energies (soxs/spectra.py:1044-1045);
      an empty sample divides zero by zero. */
  function ConvolvedSampleFlux(energies: seq<real>, tExp: real, sampledArea: seq<real>): (r: Float)
    ensures 0.0 < tExp && 0.0 < Sum(sampledArea) ==>
      r == Finite(Sum(energies) * ERG_PER_KEV / (tExp * Sum(sampledArea)))
    ensures tExp != 0.0 && |energies| == 0 && |sampledArea| == 0 ==> r == NaN
  {
    var f := DivideAgain(Divide(Sum(energies) * ERG_PER_KEV, tExp), Sum(sampledArea));
    if 0.0 < tExp && 0.0 < Sum(sampledArea) then
      assert Sum(energies) * ERG_PER_KEV / tExp / Sum(sampledArea) == Sum(energies) * ERG_PER_KEV / (tExp * Sum(sampledArea));
      f
    else f
  }
}
