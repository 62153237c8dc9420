/** The binned-flux container of soxs/spectra.py: Spectrum (a flux density
    on nbins energy bins given by nbins+1 edges in keV, with cached totals and
    the normalised cumulative distribution used for sampling) and its
    specialisation ConvolvedSpectrum (the flux multiplied by an instrument's
    effective area). Both Python classes are the one class Spectrum here, told
    apart by its kind. */
module Spectra {
  import opened Numerics
  import opened Wrappers
  import Sampling
  import Absorption
  import opened Constants

  /** Which Python class an object is: a Spectrum, or a ConvolvedSpectrum
      holding the effective area its ARF gives at each bin midpoint. */
  datatype Kind = Plain | Convolved(area: seq<real>)

  /** The class attribute _units. */
  datatype Units = PhotonsPerCm2PerSecPerKeV | PhotonsPerSecPerKeV

  function UnitsOf(kind: Kind): Units
  {
    if kind.Plain? then PhotonsPerCm2PerSecPerKeV else PhotonsPerSecPerKeV
  }

  /** The exceptions the operations raise. */
  datatype Error =
    | BinningMismatch         // RuntimeError: energy binning not the same
    | UnitsMismatch           // RuntimeError: units not the same
    | ShapeMismatch           // numpy cannot broadcast the operand
    | UnitConversion          // astropy UnitConversionError: a flux in the wrong units
    | TooFewEdges             // IndexError on ebins[1] (or linspace's ValueError)
    | UnknownFluxType         // UnboundLocalError: f never assigned
    | UnknownAbsorptionModel  // UnboundLocalError: sigma never assigned
    | ZeroBandFlux            // rescaling by new_flux/0
    | ZeroLineWidth           // refused: the code's division by sqrt2pi*sigma gives infinities
    | NotImplemented          // NotImplementedError

  // ---------------------------------------------------------------------------
  // The quantities a Spectrum derives from its edges and flux

  /** On a rising grid each midpoint lies strictly inside its bin, so the
      midpoints rise too. */
  lemma MidpointsInsideBins(ebins: seq<real>)
    requires |ebins| >= 1 && StrictlyIncreasing(ebins)
    ensures forall i :: 0 <= i < |ebins| - 1 ==> ebins[i] < Midpoints(ebins)[i] < ebins[i + 1]
    ensures StrictlyIncreasing(Midpoints(ebins))
  {
    var m := Midpoints(ebins);
    forall i, j | 0 <= i < j < |m| ensures m[i] < m[j] {
      assert ebins[i] < ebins[j] && ebins[i + 1] <= ebins[j + 1];
    }
  }

  /** Each bin's flux times its midpoint energy in erg. */
  function EnergyWeighted(flux: seq<real>, emid: seq<real>): (r: seq<real>)
    requires |flux| == |emid|
    ensures |r| == |flux| && forall i :: 0 <= i < |r| ==> r[i] == flux[i] * (emid[i] * ERG_PER_KEV)
  {
    seq(|flux|, i requires 0 <= i < |flux| => flux[i] * (emid[i] * ERG_PER_KEV))
  }

  /** total_flux: flux.sum()*de, with de the width of the FIRST bin. */
  function TotalFlux(flux: seq<real>, de: real): real
  {
    Sum(flux) * de
  }

  /** total_energy_flux: (flux*emid in erg).sum()*de. */
  function TotalEnergyFlux(flux: seq<real>, emid: seq<real>, de: real): real
    requires |flux| == |emid|
  {
    Sum(EnergyWeighted(flux, emid)) * de
  }

  /** cumspec: the running sums of flux*de with a leading zero, each divided
      by the last one as float64 division does (all NaN or infinite when the
      total is zero). */
  function CumSpec(flux: seq<real>, de: real): (c: seq<Float>)
    ensures |c| == |flux| + 1
  {
    var running := PrefixSums(Scale(de, flux));
    seq(|running|, k requires 0 <= k < |running| => Divide(running[k], running[|running| - 1]))
  }

  ghost predicate AllFinite(c: seq<Float>)
  {
    forall k :: 0 <= k < |c| ==> c[k].Finite?
  }

  function FiniteValues(c: seq<Float>): (r: seq<real>)
    requires AllFinite(c)
    ensures |r| == |c| && forall k :: 0 <= k < |c| ==> c[k] == Finite(r[k])
  {
    seq(|c|, k requires 0 <= k < |c| => c[k].value)
  }

  /** Entry k of cumspec divides the flux below edge k by the total flux. */
  lemma CumSpecEntries(flux: seq<real>, de: real)
    ensures forall k :: 0 <= k <= |flux| ==>
      CumSpec(flux, de)[k] == Divide(Sum(Scale(de, flux)[..k]), TotalFlux(flux, de))
  {
    var scaled := Scale(de, flux);
    var running := PrefixSums(scaled);
    var total := TotalFlux(flux, de);
    SumScale(de, flux);
    assert scaled[..|flux|] == scaled;
    assert running[|flux|] == total;
    forall k | 0 <= k <= |flux|
      ensures CumSpec(flux, de)[k] == Divide(Sum(scaled[..k]), total)
    {
      assert CumSpec(flux, de)[k] == Divide(running[k], running[|running| - 1]);
    }
  }

  /** With a non-zero total the cumulative distribution is finite, starts at
      0, ends at exactly 1, and entry k is the share of the total flux below
      edge k ... */
  lemma CumSpecIsDistribution(flux: seq<real>, de: real)
    requires TotalFlux(flux, de) != 0.0
    ensures AllFinite(CumSpec(flux, de))
    ensures FiniteValues(CumSpec(flux, de))[0] == 0.0
    ensures FiniteValues(CumSpec(flux, de))[|flux|] == 1.0
    ensures forall k :: 0 <= k <= |flux| ==>
      FiniteValues(CumSpec(flux, de))[k] == Sum(Scale(de, flux)[..k]) / TotalFlux(flux, de)
  {
    var n := |flux|;
    var scaled := Scale(de, flux);
    var total := TotalFlux(flux, de);
    var c := CumSpec(flux, de);
    CumSpecEntries(flux, de);
    forall k | 0 <= k < |c| ensures c[k] == Finite(Sum(scaled[..k]) / total) {
      assert c[k] == Divide(Sum(scaled[..k]), total);
    }
    assert AllFinite(c);
    var v := FiniteValues(c);
    assert scaled[..0] == [];
    assert v[0] == Sum(scaled[..0]) / total;
    SumScale(de, flux);
    assert scaled[..n] == scaled;
    assert v[n] == Sum(scaled[..n]) / total;
  }

  /** ... which never decreases when no bin carries negative flux. */
  lemma CumSpecNonDecreasing(flux: seq<real>, de: real)
    requires TotalFlux(flux, de) != 0.0
    requires 0.0 <= de && forall i :: 0 <= i < |flux| ==> 0.0 <= flux[i]
    ensures AllFinite(CumSpec(flux, de)) && NonDecreasing(FiniteValues(CumSpec(flux, de)))
  {
    var scaled := Scale(de, flux);
    var total := TotalFlux(flux, de);
    CumSpecIsDistribution(flux, de);
    var v := FiniteValues(CumSpec(flux, de));
    forall i | 0 <= i < |flux| ensures 0.0 <= scaled[i] {
      MulNonNegative(de, flux[i]);
    }
    SumScale(de, flux);
    assert scaled[..|flux|] == scaled;
    SumNonNegative(scaled);
    assert 0.0 < total;
    forall i, j | 0 <= i <= j < |v| ensures v[i] <= v[j] {
      PrefixSumsMonotone(scaled, i, j);
      DivMonotone(Sum(scaled[..i]), Sum(scaled[..j]), total);
    }
  }

  /** With a zero total and no negative flux*de every entry is 0/0, NaN. */
  lemma CumSpecOfZeroSpectrum(flux: seq<real>, de: real)
    requires TotalFlux(flux, de) == 0.0
    requires 0.0 <= de && forall i :: 0 <= i < |flux| ==> 0.0 <= flux[i]
    ensures forall k :: 0 <= k <= |flux| ==> CumSpec(flux, de)[k] == NaN
  {
    var scaled := Scale(de, flux);
    forall i | 0 <= i < |flux| ensures 0.0 <= scaled[i] {
      MulNonNegative(de, flux[i]);
    }
    CumSpecEntries(flux, de);
    SumScale(de, flux);
    assert scaled[..|flux|] == scaled;
    forall k | 0 <= k <= |flux| ensures Sum(scaled[..k]) == 0.0 {
      PrefixSumsMonotone(scaled, 0, k);
      PrefixSumsMonotone(scaled, k, |flux|);
    }
  }

  /** Totals are additive: adding flux arrays adds the photon totals ... */
  lemma TotalFluxAdds(f: seq<real>, g: seq<real>, de: real)
    requires |f| == |g|
    ensures TotalFlux(Plus(f, g), de) == TotalFlux(f, de) + TotalFlux(g, de)
  {
    SumPlus(f, g);
    Distribute(Sum(f), Sum(g), de);
  }

  /** ... and the energy totals. */
  lemma TotalEnergyFluxAdds(f: seq<real>, g: seq<real>, emid: seq<real>, de: real)
    requires |f| == |g| == |emid|
    ensures TotalEnergyFlux(Plus(f, g), emid, de) == TotalEnergyFlux(f, emid, de) + TotalEnergyFlux(g, emid, de)
  {
    var wf := EnergyWeighted(f, emid);
    var wg := EnergyWeighted(g, emid);
    EnergyWeightedAdds(f, g, emid);
    SumPlus(wf, wg);
    Distribute(Sum(wf), Sum(wg), de);
  }

  lemma EnergyWeightedAdds(f: seq<real>, g: seq<real>, emid: seq<real>)
    requires |f| == |g| == |emid|
    ensures EnergyWeighted(Plus(f, g), emid) == Plus(EnergyWeighted(f, emid), EnergyWeighted(g, emid))
  {
    var w := EnergyWeighted(Plus(f, g), emid);
    var wf := EnergyWeighted(f, emid);
    var wg := EnergyWeighted(g, emid);
    forall i | 0 <= i < |f| ensures w[i] == wf[i] + wg[i] {
      Distribute(f[i], g[i], emid[i] * ERG_PER_KEV);
    }
  }

  // ---------------------------------------------------------------------------
  // Band sums (get_flux_in_band, rescale_flux)

  /** The values of the bins whose midpoint lies in [emin, emax], the others
      zeroed: summing it sums exactly the bins numpy's mask selects. */
  function BandMask(values: seq<real>, emid: seq<real>, emin: real, emax: real): (r: seq<real>)
    requires |values| == |emid|
    ensures |r| == |values|
    ensures forall i :: 0 <= i < |r| ==> r[i] == (if emin <= emid[i] <= emax then values[i] else 0.0)
  {
    seq(|values|, i requires 0 <= i < |values| => if emin <= emid[i] <= emax then values[i] else 0.0)
  }

  function BandPhotonFlux(flux: seq<real>, emid: seq<real>, de: real, emin: real, emax: real): real
    requires |flux| == |emid|
  {
    Sum(BandMask(flux, emid, emin, emax)) * de
  }

  function BandEnergyFlux(flux: seq<real>, emid: seq<real>, de: real, emin: real, emax: real): real
    requires |flux| == |emid|
  {
    Sum(BandMask(EnergyWeighted(flux, emid), emid, emin, emax)) * de
  }

  /** A band that holds every midpoint gives the spectrum's two totals. */
  lemma FullBandIsTotal(flux: seq<real>, emid: seq<real>, de: real, emin: real, emax: real)
    requires |flux| == |emid|
    requires forall i :: 0 <= i < |emid| ==> emin <= emid[i] <= emax
    ensures BandPhotonFlux(flux, emid, de, emin, emax) == TotalFlux(flux, de)
    ensures BandEnergyFlux(flux, emid, de, emin, emax) == TotalEnergyFlux(flux, emid, de)
  {
    assert BandMask(flux, emid, emin, emax) == flux;
    assert BandMask(EnergyWeighted(flux, emid), emid, emin, emax) == EnergyWeighted(flux, emid);
  }

  /** A band that holds no midpoint gives zero. */
  lemma EmptyBandIsZero(flux: seq<real>, emid: seq<real>, de: real, emin: real, emax: real)
    requires |flux| == |emid|
    requires forall i :: 0 <= i < |emid| ==> !(emin <= emid[i] <= emax)
    ensures BandPhotonFlux(flux, emid, de, emin, emax) == 0.0
    ensures BandEnergyFlux(flux, emid, de, emin, emax) == 0.0
  {
    assert BandMask(flux, emid, emin, emax) == Zeros(|flux|);
    assert BandMask(EnergyWeighted(flux, emid), emid, emin, emax) == Zeros(|flux|);
    SumZeros(|flux|);
  }

  /** The two extreme bands: one holding every midpoint gives the totals,
      one holding none gives zero. */
  lemma BandExtremes(flux: seq<real>, emid: seq<real>, de: real, emin: real, emax: real)
    requires |flux| == |emid|
    ensures (forall i :: 0 <= i < |emid| ==> emin <= emid[i] <= emax) ==>
      (BandPhotonFlux(flux, emid, de, emin, emax), BandEnergyFlux(flux, emid, de, emin, emax))
      == (TotalFlux(flux, de), TotalEnergyFlux(flux, emid, de))
    ensures (forall i :: 0 <= i < |emid| ==> !(emin <= emid[i] <= emax)) ==>
      (BandPhotonFlux(flux, emid, de, emin, emax), BandEnergyFlux(flux, emid, de, emin, emax)) == (0.0, 0.0)
  {
    if forall i :: 0 <= i < |emid| ==> emin <= emid[i] <= emax {
      FullBandIsTotal(flux, emid, de, emin, emax);
    }
    if forall i :: 0 <= i < |emid| ==> !(emin <= emid[i] <= emax) {
      EmptyBandIsZero(flux, emid, de, emin, emax);
    }
  }

  /** Scaling every bin by new_flux/f, f the band's photon flux before,
      makes the band's photon flux new_flux afterwards ... */
  lemma RescaleHitsPhotonTarget(flux: seq<real>, emid: seq<real>, de: real, emin: real, emax: real, newFlux: real)
    requires |flux| == |emid|
    requires BandPhotonFlux(flux, emid, de, emin, emax) != 0.0
    ensures var f := BandPhotonFlux(flux, emid, de, emin, emax);
      BandPhotonFlux(Scale(newFlux / f, flux), emid, de, emin, emax) == newFlux
  {
    var total := Sum(BandMask(flux, emid, emin, emax));
    var c := newFlux / (total * de);
    assert BandPhotonFlux(flux, emid, de, emin, emax) == total * de;
    BandSumScales(flux, emid, emin, emax, c);
    assert BandPhotonFlux(Scale(c, flux), emid, de, emin, emax) == (c * total) * de;
    RescaleTo(total, de, newFlux);
    assert (c * total) * de == newFlux;
  }

  /** ... and likewise for the band's energy flux. */
  lemma RescaleHitsEnergyTarget(flux: seq<real>, emid: seq<real>, de: real, emin: real, emax: real, newFlux: real)
    requires |flux| == |emid|
    requires BandEnergyFlux(flux, emid, de, emin, emax) != 0.0
    ensures var f := BandEnergyFlux(flux, emid, de, emin, emax);
      BandEnergyFlux(Scale(newFlux / f, flux), emid, de, emin, emax) == newFlux
  {
    var w := EnergyWeighted(flux, emid);
    var total := Sum(BandMask(w, emid, emin, emax));
    var c := newFlux / (total * de);
    assert BandEnergyFlux(flux, emid, de, emin, emax) == total * de;
    EnergyWeightedScales(flux, emid, c);
    assert EnergyWeighted(Scale(c, flux), emid) == Scale(c, w);
    BandSumScales(w, emid, emin, emax, c);
    assert BandEnergyFlux(Scale(c, flux), emid, de, emin, emax) == (c * total) * de;
    RescaleTo(total, de, newFlux);
    assert (c * total) * de == newFlux;
  }

  lemma BandSumScales(values: seq<real>, emid: seq<real>, emin: real, emax: real, c: real)
    requires |values| == |emid|
    ensures Sum(BandMask(Scale(c, values), emid, emin, emax)) == c * Sum(BandMask(values, emid, emin, emax))
  {
    var m := BandMask(values, emid, emin, emax);
    var ms := BandMask(Scale(c, values), emid, emin, emax);
    forall i | 0 <= i < |values| ensures ms[i] == Scale(c, m)[i] {
    }
    assert ms == Scale(c, m);
    SumScale(c, m);
  }

  lemma EnergyWeightedScales(flux: seq<real>, emid: seq<real>, c: real)
    requires |flux| == |emid|
    ensures EnergyWeighted(Scale(c, flux), emid) == Scale(c, EnergyWeighted(flux, emid))
  {
    var w := EnergyWeighted(flux, emid);
    var ws := EnergyWeighted(Scale(c, flux), emid);
    forall i | 0 <= i < |flux| ensures ws[i] == Scale(c, w)[i] {
      Associate(c, flux[i], emid[i] * ERG_PER_KEV);
    }
  }

  // ---------------------------------------------------------------------------
  // Sub-spectrum extraction (new_spec_from_band)

  /** The indices, ascending, of the first n edges that lie in [emin, emax]
      (np.where of the mask). */
  function EdgeIndices(ebins: seq<real>, emin: real, emax: real, n: nat): (idx: seq<nat>)
    requires n <= |ebins|
    ensures forall k :: 0 <= k < |idx| ==> idx[k] < n
  {
    if n == 0 then []
    else EdgeIndices(ebins, emin, emax, n - 1) + (if emin <= ebins[n - 1] <= emax then [n - 1] else [])
  }

  function BandEdgeIndices(ebins: seq<real>, emin: real, emax: real): (idx: seq<nat>)
    ensures forall k :: 0 <= k < |idx| ==> idx[k] < |ebins|
  {
    EdgeIndices(ebins, emin, emax, |ebins|)
  }

  function Gather(s: seq<real>, idx: seq<nat>): (r: seq<real>)
    requires forall k :: 0 <= k < |idx| ==> idx[k] < |s|
    ensures |r| == |idx| && forall k :: 0 <= k < |idx| ==> r[k] == s[idx[k]]
  {
    seq(|idx|, k requires 0 <= k < |idx| => s[idx[k]])
  }

  function Range(lo: nat, hi: nat): (r: seq<nat>)
    ensures |r| == (if lo <= hi then hi - lo else 0)
    ensures forall k :: 0 <= k < |r| ==> r[k] == lo + k
  {
    if lo < hi then seq(hi - lo, k requires 0 <= k < hi - lo => lo + k) else []
  }

  /** On a rising grid the selected edges are one unbroken run: from the
      first edge not below emin up to the last edge not above emax. */
  lemma {:induction false} EdgeIndicesAreRun(ebins: seq<real>, emin: real, emax: real, n: nat)
    requires n <= |ebins| && StrictlyIncreasing(ebins)
    ensures var lo := CountBelow(ebins, emin);
      var hi := CountAtMost(ebins, emax);
      EdgeIndices(ebins, emin, emax, n) == Range(lo, if hi < n then hi else n)
  {
    var lo := CountBelow(ebins, emin);
    var hi := CountAtMost(ebins, emax);
    CountBelowSplits(ebins, emin);
    CountAtMostSplits(ebins, emax);
    if n > 0 {
      EdgeIndicesAreRun(ebins, emin, emax, n - 1);
      var prev := Range(lo, if hi < n - 1 then hi else n - 1);
      var inBand := emin <= ebins[n - 1] <= emax;
      assert inBand <==> lo <= n - 1 < hi;
      if inBand {
        assert prev + [n - 1] == Range(lo, n);
      } else {
        assert Range(lo, if hi < n then hi else n) == prev;
      }
    }
  }

  /** The band spectrum is the run of original bins between those edges:
      its k-th edge and k-th flux value are the original ones at lo+k. */
  lemma BandSpectrumIsRun(ebins: seq<real>, flux: seq<real>, emin: real, emax: real)
    requires |flux| == |ebins| - 1 && StrictlyIncreasing(ebins)
    requires |BandEdgeIndices(ebins, emin, emax)| >= 2
    ensures var idx := BandEdgeIndices(ebins, emin, emax);
      var lo := CountBelow(ebins, emin);
      && lo + |idx| <= |ebins|
      && Gather(ebins, idx) == ebins[lo..lo + |idx|]
      && Gather(flux, idx[..|idx| - 1]) == flux[lo..lo + |idx| - 1]
  {
    EdgeIndicesAreRun(ebins, emin, emax, |ebins|);
  }

  // ---------------------------------------------------------------------------
  // Operands of * and /

  /** A number or a per-bin array, as numpy broadcasts it against the flux. */
  datatype Operand = Scalar(c: real) | PerBin(values: seq<real>)

  /** What `spectrum * other` may be given: a number or array, or an object
      with an effective area (its area at the bin midpoints). */
  datatype Multiplier = ByNumber(op: Operand) | ByResponse(area: seq<real>)

  /** numpy broadcasting of an operand to n bins: a scalar or a length-1
      array repeats, an array of length n is taken as is, anything else
      fails. */
  function Broadcast(op: Operand, n: nat): (r: Result<seq<real>, Error>)
    ensures r.Ok? <==> (op.Scalar? || |op.values| == 1 || |op.values| == n)
    ensures r.Ok? ==> |r.value| == n
    ensures r.Ok? && op.Scalar? ==> forall i :: 0 <= i < n ==> r.value[i] == op.c
    ensures r.Ok? && op.PerBin? ==> forall i :: 0 <= i < n ==>
      r.value[i] == (if |op.values| == n then op.values[i] else op.values[0])
  {
    match op
    case Scalar(c) => Ok(seq(n, i => c))
    case PerBin(values) =>
      if |values| == n then Ok(values)
      else if |values| == 1 then Ok(seq(n, i => values[0]))
      else Err(ShapeMismatch)
  }

  /** Entry-by-entry quotient. */
  function Quotient(s: seq<real>, t: seq<real>): (r: seq<real>)
    requires |s| == |t| && forall i :: 0 <= i < |t| ==> t[i] != 0.0
    ensures |r| == |s| && forall i :: 0 <= i < |s| ==> r[i] * t[i] == s[i]
  {
    seq(|s|, i requires 0 <= i < |s| => s[i] / t[i])
  }

  // ---------------------------------------------------------------------------
  // Absorption and line profiles

  /** The cross-section at energy e: wabs_cross_section, or the tbabs spline
      supplied by the caller. */
  function CrossSection(model: string, tbabs: real -> real, e: real): real
    requires model == "wabs" ==> e != 0.0
  {
    if model == "wabs" then Absorption.WabsCrossSection(e) else tbabs(e)
  }

  predicate NoZeroEnergy(e: seq<real>)
  {
    forall i :: 0 <= i < |e| ==> e[i] != 0.0
  }

  /** The cross-section per bin at the absorber-frame energies. */
  function CrossSections(model: string, tbabs: real -> real, e: seq<real>): (sigma: seq<real>)
    requires model == "wabs" ==> NoZeroEnergy(e)
    ensures |sigma| == |e| && forall i :: 0 <= i < |e| ==> sigma[i] == CrossSection(model, tbabs, e[i])
  {
    seq(|e|, i requires 0 <= i < |e| => CrossSection(model, tbabs, e[i]))
  }

  /** The fraction exp(-nH*1e22*sigma) of photons that pass a column of nH
      (in units of 1e22 per cm^2). */
  function SurvivingFraction(exp: real -> real, nH: real, sigma: real): real
  {
    exp(-nH * 1.0e22 * sigma)
  }

  function Survival(exp: real -> real, nH: real, sigma: seq<real>): (r: seq<real>)
    ensures |r| == |sigma| && forall i :: 0 <= i < |r| ==> r[i] == SurvivingFraction(exp, nH, sigma[i])
  {
    seq(|sigma|, i requires 0 <= i < |sigma| => SurvivingFraction(exp, nH, sigma[i]))
  }

  /** exp turns sums into products. */
  ghost predicate Exponential(exp: real -> real)
  {
    forall a, b :: exp(a) * exp(b) == exp(a + b)
  }

  lemma ExpOfSum(exp: real -> real, a: real, b: real)
    requires Exponential(exp)
    ensures exp(a) * exp(b) == exp(a + b)
  {
  }

  lemma SurvivingFractionsMultiply(exp: real -> real, nH1: real, nH2: real, sigma: real)
    requires Exponential(exp)
    ensures SurvivingFraction(exp, nH1, sigma) * SurvivingFraction(exp, nH2, sigma)
         == SurvivingFraction(exp, nH1 + nH2, sigma)
  {
    var a := -nH1 * 1.0e22 * sigma;
    var b := -nH2 * 1.0e22 * sigma;
    ExpOfSum(exp, a, b);
    assert a + b == -(nH1 + nH2) * 1.0e22 * sigma;
  }

  /** Absorbing by a column nH1 and then by nH2 is absorbing by nH1 + nH2
      once. */
  lemma AbsorptionColumnsAdd(flux: seq<real>, exp: real -> real, nH1: real, nH2: real, sigma: seq<real>)
    requires |flux| == |sigma| && Exponential(exp)
    ensures Times(Times(flux, Survival(exp, nH1, sigma)), Survival(exp, nH2, sigma))
         == Times(flux, Survival(exp, nH1 + nH2, sigma))
  {
    var once := Times(flux, Survival(exp, nH1 + nH2, sigma));
    var twice := Times(Times(flux, Survival(exp, nH1, sigma)), Survival(exp, nH2, sigma));
    forall i | 0 <= i < |flux| ensures twice[i] == once[i] {
      SurvivingFractionsMultiply(exp, nH1, nH2, sigma[i]);
      Associate(flux[i], SurvivingFraction(exp, nH1, sigma[i]), SurvivingFraction(exp, nH2, sigma[i]));
    }
  }

  /** The unit-height bell exp(-(x - mean)^2/(2 stddev^2)). */
  function Bell(exp: real -> real, mean: real, stddev: real, x: real): real
    requires stddev != 0.0
  {
    exp(-0.5 * (x - mean) * (x - mean) / (stddev * stddev))
  }

  /** astropy's Gaussian1D(amplitude, mean, stddev) at x. */
  function Gaussian(exp: real -> real, amplitude: real, mean: real, stddev: real, x: real): real
    requires stddev != 0.0
  {
    amplitude * Bell(exp, mean, stddev, x)
  }

  /** add_emission_line's profile at the midpoints: a Gaussian of standard
      deviation FWHM/sigma_to_fwhm whose amplitude is line_amp/(sqrt(2 pi)*sigma),
      so that its integral is line_amp. */
  function EmissionProfile(exp: real -> real, center: real, width: real, amp: real, emid: seq<real>): (p: seq<real>)
    requires width != 0.0
    ensures |p| == |emid|
    ensures forall i :: 0 <= i < |emid| ==>
      p[i] == (amp / (SQRT2PI * (width / SIGMA_TO_FWHM))) * Bell(exp, center, width / SIGMA_TO_FWHM, emid[i])
  {
    var sigma := width / SIGMA_TO_FWHM;
    seq(|emid|, i requires 0 <= i < |emid| => Gaussian(exp, amp / (SQRT2PI * sigma), center, sigma, emid[i]))
  }

  /** The depth at the line centre of add_absorption_line: EW*center^2/(hc*sqrt(2 pi)*sigma),
      the equivalent width given in milli-Angstrom. */
  function AbsorptionLineDepth(center: real, width: real, equivWidth: real): real
    requires width != 0.0
  {
    equivWidth * 1.0e-3 * center * center / (HC * SQRT2PI * (width / SIGMA_TO_FWHM))
  }

  /** add_absorption_line's optical depth at the midpoints. */
  function AbsorptionDepth(exp: real -> real, center: real, width: real, equivWidth: real, emid: seq<real>): (tau: seq<real>)
    requires width != 0.0
    ensures |tau| == |emid|
    ensures forall i :: 0 <= i < |emid| ==>
      tau[i] == AbsorptionLineDepth(center, width, equivWidth) * Bell(exp, center, width / SIGMA_TO_FWHM, emid[i])
  {
    var sigma := width / SIGMA_TO_FWHM;
    var b := AbsorptionLineDepth(center, width, equivWidth);
    seq(|emid|, i requires 0 <= i < |emid| => Gaussian(exp, b, center, sigma, emid[i]))
  }

  /** exp of minus each depth. */
  function Transmission(exp: real -> real, tau: seq<real>): (r: seq<real>)
    ensures |r| == |tau| && forall i :: 0 <= i < |r| ==> r[i] == exp(-tau[i])
  {
    seq(|tau|, i requires 0 <= i < |tau| => exp(-tau[i]))
  }

  /** With a positive exp bounded by 1 on the non-positive reals, an
      absorption line of non-negative equivalent width and positive width
      only removes flux: each non-negative bin stays between 0 and its old
      value. */
  lemma AbsorptionLineOnlyRemoves(exp: real -> real, center: real, width: real, equivWidth: real,
                                  emid: seq<real>, flux: seq<real>)
    requires |flux| == |emid| && 0.0 < width && 0.0 <= equivWidth
    requires forall x :: 0.0 < exp(x)
    requires forall x :: x <= 0.0 ==> exp(x) <= 1.0
    requires forall i :: 0 <= i < |flux| ==> 0.0 <= flux[i]
    ensures var r := Times(flux, Transmission(exp, AbsorptionDepth(exp, center, width, equivWidth, emid)));
      forall i :: 0 <= i < |flux| ==> 0.0 <= r[i] <= flux[i]
  {
    var t := Transmission(exp, AbsorptionDepth(exp, center, width, equivWidth, emid));
    var r := Times(flux, t);
    forall i | 0 <= i < |flux| ensures 0.0 <= r[i] <= flux[i] {
      AbsorptionLineOnlyRemovesAt(exp, center, width, equivWidth, emid, flux, i);
    }
  }

  lemma AbsorptionLineOnlyRemovesAt(exp: real -> real, center: real, width: real, equivWidth: real,
                                    emid: seq<real>, flux: seq<real>, i: nat)
    requires |flux| == |emid| && 0.0 < width && 0.0 <= equivWidth && i < |flux|
    requires forall x :: 0.0 < exp(x)
    requires forall x :: x <= 0.0 ==> exp(x) <= 1.0
    requires 0.0 <= flux[i]
    ensures var t := Transmission(exp, AbsorptionDepth(exp, center, width, equivWidth, emid));
      0.0 <= flux[i] * t[i] <= flux[i]
  {
    var sigma := width / SIGMA_TO_FWHM;
    var b := AbsorptionLineDepth(center, width, equivWidth);
    AbsorptionLineDepthNonNegative(center, width, equivWidth);
    var tau := AbsorptionDepth(exp, center, width, equivWidth, emid);
    var g := Bell(exp, center, sigma, emid[i]);
    assert tau[i] == b * g;
    AttenuatedAt(exp, b, g, flux[i]);
  }

  lemma AttenuatedAt(exp: real -> real, b: real, g: real, f: real)
    requires forall x :: x <= 0.0 ==> exp(x) <= 1.0
    requires 0.0 < exp(-(b * g))
    requires 0.0 <= b && 0.0 < g && 0.0 <= f
    ensures 0.0 <= f * exp(-(b * g)) <= f
  {
    MulNonNegative(b, g);
    MulByFraction(f, exp(-(b * g)));
  }

  lemma AbsorptionLineDepthNonNegative(center: real, width: real, equivWidth: real)
    requires 0.0 < width && 0.0 <= equivWidth
    ensures 0.0 <= AbsorptionLineDepth(center, width, equivWidth)
  {
    var sigma := width / SIGMA_TO_FWHM;
    MulNonNegative(equivWidth * 1.0e-3, center * center);
    assert equivWidth * 1.0e-3 * center * center == (equivWidth * 1.0e-3) * (center * center);
    MulPositive(HC * SQRT2PI, sigma);
  }

  /** deconvolve's division: flux/area with np.nan_to_num applied. */
  function Deconvolved(rate: seq<real>, area: seq<real>): (r: seq<real>)
    requires |rate| == |area|
    ensures |r| == |rate|
  {
    seq(|rate|, i requires 0 <= i < |rate| => NanToNum(Divide(rate[i], area[i])))
  }

  /** Deconvolving a convolution gives the flux back wherever the area is
      non-zero, and 0 (0/0 made 0) where it is zero. */
  lemma DeconvolveUndoesConvolve(flux: seq<real>, area: seq<real>)
    requires |flux| == |area|
    ensures forall i :: 0 <= i < |flux| ==>
      Deconvolved(Times(flux, area), area)[i] == (if area[i] != 0.0 then flux[i] else 0.0)
  {
  }

  /** Where the area is zero but the rate is not, nan_to_num leaves the
      largest finite float, not 0. */
  lemma DeconvolveZeroAreaIsHuge(rate: seq<real>, area: seq<real>, i: nat)
    requires |rate| == |area| && i < |rate| && area[i] == 0.0 && 0.0 < rate[i]
    ensures Deconvolved(rate, area)[i] == MAX_FLOAT64
  {
  }

  // ---------------------------------------------------------------------------
  // Grid builders (from_constant, from_powerlaw) and the file round trips

  /** A linspace grid has first-bin width (emax-emin)/nbins and the midpoints
      emin + (i + 1/2)*(emax-emin)/nbins. */
  lemma LinspaceGrid(emin: real, emax: real, nbins: nat)
    requires nbins >= 1
    ensures var ebins := Linspace(emin, emax, nbins + 1);
      && ebins[1] - ebins[0] == (emax - emin) / (nbins as real)
      && forall i :: 0 <= i < nbins ==>
           Midpoints(ebins)[i] == emin + ((i as real) + 0.5) * ((emax - emin) / (nbins as real))
  {
    var ebins := Linspace(emin, emax, nbins + 1);
    GridPoint(emin, emax, nbins, 0);
    GridPoint(emin, emax, nbins, 1);
    forall i | 0 <= i < nbins
      ensures Midpoints(ebins)[i] == emin + ((i as real) + 0.5) * ((emax - emin) / (nbins as real))
    {
      GridMid(emin, emax, nbins, i);
    }
  }

  function Constant(c: real, n: nat): (r: seq<real>)
    ensures |r| == n && forall i :: 0 <= i < n ==> r[i] == c
  {
    seq(n, i => c)
  }

  lemma {:induction false} SumConstant(c: real, n: nat)
    ensures Sum(Constant(c, n)) == (n as real) * c
  {
    if n > 0 {
      assert Constant(c, n)[..n - 1] == Constant(c, n - 1);
      SumConstant(c, n - 1);
    }
  }

  /** from_constant's total flux is the constant times the band width. */
  lemma ConstantSpectrumTotal(c: real, emin: real, emax: real, nbins: nat)
    requires nbins >= 1
    ensures var ebins := Linspace(emin, emax, nbins + 1);
      TotalFlux(Constant(c, nbins), ebins[1] - ebins[0]) == c * (emax - emin)
  {
    LinspaceGrid(emin, emax, nbins);
    SumConstant(c, nbins);
    var n := nbins as real;
    assert n * c * ((emax - emin) / n) == c * (emax - emin);
  }

  /** x*y, kept as a term of its own so that a power of it is recognised. */
  function Product(x: real, y: real): real
  {
    x * y
  }

  /** from_powerlaw's flux at one midpoint: norm*(e*(1+z))**(-photon_index),
      with x**y supplied by the caller. */
  function PowerLawAt(power: (real, real) -> real, photonIndex: real, redshift: real, norm: real, e: real): real
  {
    norm * power(Product(e, 1.0 + redshift), -photonIndex)
  }

  function PowerLawFlux(power: (real, real) -> real, photonIndex: real, redshift: real, norm: real,
                        emid: seq<real>): (f: seq<real>)
    ensures |f| == |emid|
    ensures forall i :: 0 <= i < |emid| ==> f[i] == PowerLawAt(power, photonIndex, redshift, norm, emid[i])
  {
    seq(|emid|, i requires 0 <= i < |emid| => PowerLawAt(power, photonIndex, redshift, norm, emid[i]))
  }

  /** x**p is multiplicative in its base. */
  ghost predicate MultiplicativeInBase(power: (real, real) -> real)
  {
    forall x, y, p {:trigger power(Product(x, y), p)} :: power(Product(x, y), p) == power(x, p) * power(y, p)
  }

  /** A redshifted power law is the rest-frame one times (1+z)**(-photon_index). */
  lemma RedshiftScalesPowerLaw(power: (real, real) -> real, photonIndex: real, redshift: real, norm: real,
                               emid: seq<real>)
    requires MultiplicativeInBase(power)
    ensures PowerLawFlux(power, photonIndex, redshift, norm, emid)
         == Scale(power(1.0 + redshift, -photonIndex), PowerLawFlux(power, photonIndex, 0.0, norm, emid))
  {
    var k := power(1.0 + redshift, -photonIndex);
    var shifted := PowerLawFlux(power, photonIndex, redshift, norm, emid);
    var rest := PowerLawFlux(power, photonIndex, 0.0, norm, emid);
    forall i | 0 <= i < |emid| ensures shifted[i] == Scale(k, rest)[i] {
      PowerLawAtRedshift(power, photonIndex, redshift, norm, emid[i]);
    }
    assert shifted == Scale(k, rest);
  }

  lemma PowerLawAtRedshift(power: (real, real) -> real, photonIndex: real, redshift: real, norm: real, e: real)
    requires MultiplicativeInBase(power)
    ensures PowerLawAt(power, photonIndex, redshift, norm, e)
         == power(1.0 + redshift, -photonIndex) * PowerLawAt(power, photonIndex, 0.0, norm, e)
  {
    assert Product(e, 1.0 + 0.0) == e;
    assert power(Product(e, 1.0 + redshift), -photonIndex)
        == power(e, -photonIndex) * power(1.0 + redshift, -photonIndex);
  }

  /** from_file on a text file: the edges rebuilt from the stored midpoints,
      each midpoint minus half the first midpoint spacing, and the last plus
      half of it. */
  function EdgesFromMidpoints(emid: seq<real>): (ebins: seq<real>)
    requires |emid| >= 2
    ensures |ebins| == |emid| + 1
  {
    var de := emid[1] - emid[0];
    seq(|emid|, i requires 0 <= i < |emid| => emid[i] - 0.5 * de) + [emid[|emid| - 1] + 0.5 * de]
  }

  /** write_file then from_file rebuilds an evenly spaced grid exactly. */
  lemma TextFileRebuildsUniformEdges(ebins: seq<real>)
    requires Uniform(ebins) && |ebins| >= 3
    ensures EdgesFromMidpoints(Midpoints(ebins)) == ebins
  {
    var m := Midpoints(ebins);
    var d := ebins[1] - ebins[0];
    assert ebins[2] - ebins[1] == d;
    assert m[1] - m[0] == d;
    var r := EdgesFromMidpoints(m);
    forall i | 0 <= i < |ebins| ensures r[i] == ebins[i] {
      if i < |m| {
        assert ebins[i + 1] - ebins[i] == d;
      } else {
        assert ebins[i] - ebins[i - 1] == d;
      }
    }
  }

  /** ... but not an uneven one: edges 0, 1, 3 come back as -0.25, 1.25, 2.75. */
  lemma TextFileMovesUnevenEdges()
    ensures EdgesFromMidpoints(Midpoints([0.0, 1.0, 3.0])) == [-0.25, 1.25, 2.75]
  {
    assert Midpoints([0.0, 1.0, 3.0]) == [0.5, 2.0];
  }

  /** write_h5_file then from_file: linspace(emin, emax, nbins+1) rebuilds an
      evenly spaced grid exactly. */
  lemma H5FileRebuildsUniformEdges(ebins: seq<real>)
    requires Uniform(ebins)
    ensures Linspace(ebins[0], ebins[|ebins| - 1], (|ebins| - 1) + 1) == ebins
  {
    UniformIsLinspace(ebins);
  }

  /** Interpolating bin values over strictly rising midpoints gives each
      bin's own value at its midpoint. */
  lemma EvaluateAtMidpoints(emid: seq<real>, flux: seq<real>, e: real)
    requires |emid| == |flux| >= 1 && StrictlyIncreasing(emid)
    ensures NonDecreasing(emid)
    ensures forall i :: 0 <= i < |emid| && e == emid[i] ==> Interp(e, emid, flux) == flux[i]
  {
    InterpAtPoint(emid, flux, 0);
    forall i | 0 <= i < |emid| && e == emid[i] ensures Interp(e, emid, flux) == flux[i] {
      InterpAtPoint(emid, flux, i);
    }
  }

  // ---------------------------------------------------------------------------
  // The class

  class Spectrum {
    const ebins: seq<real>
    const emid: seq<real>
    const nbins: nat
    /** Width of the first bin, used for every bin. */
    const de: real
    const kind: Kind
    var flux: seq<real>
    var totalFlux: real
    var totalEnergyFlux: real
    var cumspec: seq<Float>

    /** The edges and flux fit together and the derived fields agree with
        them. */
    ghost predicate Shaped()
      reads this
    {
      && |ebins| >= 2
      && emid == Midpoints(ebins)
      && nbins == |emid|
      && |flux| == nbins
      && de == ebins[1] - ebins[0]
      && (kind.Convolved? ==> |kind.area| == nbins)
    }

    /** ... and the cached totals and distribution are up to date. */
    ghost predicate Valid()
      reads this
    {
      && Shaped()
      && totalFlux == TotalFlux(flux, de)
      && totalEnergyFlux == TotalEnergyFlux(flux, emid, de)
      && cumspec == CumSpec(flux, de)
    }

    /** Spectrum(ebins, flux). */
    constructor (ebins: seq<real>, flux: seq<real>)
      requires |ebins| >= 2 && |flux| == |ebins| - 1
      ensures Valid() && kind == Plain
      ensures this.ebins == ebins && this.flux == flux
    {
      this.ebins := ebins;
      this.emid := Midpoints(ebins);
      this.nbins := |ebins| - 1;
      this.de := ebins[1] - ebins[0];
      this.kind := Plain;
      this.flux := flux;
      new;
      ComputeTotalFlux();
    }

    /** ConvolvedSpectrum(spectrum, arf): the flux times the area at each
        midpoint. Only a plain spectrum can be convolved: the rate of a
        convolved one times an area is not in photon/(s keV), and Multiply
        returns that UnitConversion error. */
    constructor Convolve(spectrum: Spectrum, area: seq<real>)
      requires spectrum.Valid() && spectrum.kind.Plain? && |area| == spectrum.nbins
      ensures Valid() && kind == Convolved(area)
      ensures ebins == spectrum.ebins && flux == Times(spectrum.flux, area)
    {
      this.ebins := spectrum.ebins;
      this.emid := spectrum.emid;
      this.nbins := spectrum.nbins;
      this.de := spectrum.de;
      this.kind := Convolved(area);
      this.flux := Times(spectrum.flux, area);
      new;
      ComputeTotalFlux();
    }

    /** _compute_total_flux: refresh the totals and the distribution. */
    method ComputeTotalFlux()
      requires Shaped()
      modifies this
      ensures Valid() && flux == old(flux)
    {
      totalFlux := TotalFlux(flux, de);
      totalEnergyFlux := TotalEnergyFlux(flux, emid, de);
      cumspec := CumSpec(flux, de);
    }

    /** __call__: the flux interpolated over the midpoints, which returns
        each bin's own flux at its midpoint. */
    function Evaluate(e: real): (r: real)
      reads this
      requires Valid() && nbins >= 1 && StrictlyIncreasing(emid)
      ensures forall i :: 0 <= i < nbins && e == emid[i] ==> r == flux[i]
      ensures e < emid[0] ==> r == flux[0]
      ensures emid[nbins - 1] < e ==> r == flux[nbins - 1]
    {
      EvaluateAtMidpoints(emid, flux, e);
      Interp(e, emid, flux)
    }

    /** get_flux_in_band: photon and energy flux of the bins whose midpoint
        lies in [emin, emax]; over a band holding every midpoint these are
        the two totals. */
    function FluxInBand(emin: real, emax: real): (r: (real, real))
      reads this
      requires Valid()
      ensures (forall i :: 0 <= i < nbins ==> emin <= emid[i] <= emax) ==> r == (totalFlux, totalEnergyFlux)
      ensures (forall i :: 0 <= i < nbins ==> !(emin <= emid[i] <= emax)) ==> r == (0.0, 0.0)
    {
      BandExtremes(flux, emid, de, emin, emax);
      (BandPhotonFlux(flux, emid, de, emin, emax), BandEnergyFlux(flux, emid, de, emin, emax))
    }

    /** __add__: the grids must have the same bin count and be close edge by
        edge, and the units must agree; the sum is always built as a plain
        Spectrum on this spectrum's edges, so two convolved spectra, whose
        summed rate is not in photon/(cm**2 s keV), cannot be added. */
    method Add(other: Spectrum) returns (r: Result<Spectrum, Error>)
      requires Valid() && other.Valid()
      ensures r == Err(BinningMismatch) <==> (nbins != other.nbins || !AllClose(ebins, other.ebins))
      ensures r == Err(UnitsMismatch) <==>
        (nbins == other.nbins && AllClose(ebins, other.ebins) && UnitsOf(kind) != UnitsOf(other.kind))
      ensures r == Err(UnitConversion) <==>
        (nbins == other.nbins && AllClose(ebins, other.ebins) && kind.Convolved? && other.kind.Convolved?)
      ensures r.Ok? <==> (nbins == other.nbins && AllClose(ebins, other.ebins) && kind.Plain? && other.kind.Plain?)
      ensures r.Err? ==> r.error == BinningMismatch || r.error == UnitsMismatch || r.error == UnitConversion
      ensures r.Ok? ==> && fresh(r.value) && r.value.Valid() && r.value.kind == Plain
                        && r.value.ebins == ebins && r.value.flux == Plus(flux, other.flux)
    {
      if nbins != other.nbins || !AllClose(ebins, other.ebins) {
        return Err(BinningMismatch);
      }
      if UnitsOf(kind) != UnitsOf(other.kind) {
        return Err(UnitsMismatch);
      }
      if kind.Convolved? {
        return Err(UnitConversion);
      }
      var s := new Spectrum(ebins, Plus(flux, other.flux));
      return Ok(s);
    }

    /** __mul__ and __rmul__: an object with an effective area gives a
        ConvolvedSpectrum; a number or an array gives a plain Spectrum. A
        convolved spectrum fails either way, once numpy has broadcast the
        operand: its rate is not in the units the new object expects. */
    method Multiply(m: Multiplier) returns (r: Result<Spectrum, Error>)
      requires Valid()
      requires m.ByResponse? ==> |m.area| == nbins
      ensures m.ByResponse? ==> (r.Ok? <==> kind.Plain?)
      ensures m.ByResponse? && r.Err? ==> r.error == UnitConversion
      ensures m.ByResponse? && r.Ok? ==> && fresh(r.value) && r.value.Valid()
                                         && r.value.kind == Convolved(m.area)
                                         && r.value.ebins == ebins && r.value.flux == Times(flux, m.area)
      ensures m.ByNumber? ==> (r.Ok? <==> Broadcast(m.op, nbins).Ok? && kind.Plain?)
      ensures m.ByNumber? && r.Err? ==>
        r.error == (if Broadcast(m.op, nbins).Err? then ShapeMismatch else UnitConversion)
      ensures m.ByNumber? && r.Ok? ==> && fresh(r.value) && r.value.Valid() && r.value.kind == Plain
                                       && r.value.ebins == ebins
                                       && r.value.flux == Times(Broadcast(m.op, nbins).value, flux)
    {
      if m.ByResponse? {
        if kind.Convolved? {
          return Err(UnitConversion);
        }
        var s := new Spectrum.Convolve(this, m.area);
        return Ok(s);
      }
      var b := Broadcast(m.op, nbins);
      if b.Err? {
        return Err(b.error);
      }
      if kind.Convolved? {
        return Err(UnitConversion);
      }
      var s := new Spectrum(ebins, Times(b.value, flux));
      return Ok(s);
    }

    /** __truediv__: a plain Spectrum with the flux divided by a number or
        an array; a convolved spectrum fails as in Multiply. */
    method DivideBy(op: Operand) returns (r: Result<Spectrum, Error>)
      requires Valid()
      requires Broadcast(op, nbins).Ok? ==> forall i :: 0 <= i < nbins ==> Broadcast(op, nbins).value[i] != 0.0
      ensures r.Ok? <==> Broadcast(op, nbins).Ok? && kind.Plain?
      ensures r.Err? ==> r.error == (if Broadcast(op, nbins).Err? then ShapeMismatch else UnitConversion)
      ensures r.Ok? ==> && fresh(r.value) && r.value.Valid() && r.value.kind == Plain
                        && r.value.ebins == ebins
                        && r.value.flux == Quotient(flux, Broadcast(op, nbins).value)
    {
      var b := Broadcast(op, nbins);
      if b.Err? {
        return Err(b.error);
      }
      if kind.Convolved? {
        return Err(UnitConversion);
      }
      var s := new Spectrum(ebins, Quotient(flux, b.value));
      return Ok(s);
    }

    /** new_spec_from_band: the edges inside [emin, emax] and the flux of
        every selected edge but the last, as a plain Spectrum; fewer than two
        edges fail where the constructor reads the second edge. */
    method NewSpecFromBand(emin: real, emax: real) returns (r: Result<Spectrum, Error>)
      requires Valid()
      ensures var idx := BandEdgeIndices(ebins, emin, emax);
        && (r.Err? <==> |idx| < 2)
        && (r.Err? ==> r.error == TooFewEdges)
        && (r.Ok? ==> && fresh(r.value) && r.value.Valid() && r.value.kind == Plain
                      && r.value.ebins == Gather(ebins, idx)
                      && r.value.flux == Gather(flux, idx[..|idx| - 1]))
    {
      var idx := BandEdgeIndices(ebins, emin, emax);
      if |idx| < 2 {
        return Err(TooFewEdges);
      }
      var s := new Spectrum(Gather(ebins, idx), Gather(flux, idx[..|idx| - 1]));
      return Ok(s);
    }

    /** rescale_flux: measure the band's photon or energy flux f (the whole
        grid by default) and multiply EVERY bin by new_flux/f, so that the
        band then carries new_flux. */
    method RescaleFlux(newFlux: real, emin: Option<real>, emax: Option<real>, fluxType: string)
      returns (o: Outcome<Error>)
      requires Valid()
      modifies this
      ensures Valid()
      ensures var lo := if emin.Some? then emin.value else ebins[0];
        var hi := if emax.Some? then emax.value else ebins[|ebins| - 1];
        var f := if fluxType == "photons" then BandPhotonFlux(old(flux), emid, de, lo, hi)
                 else BandEnergyFlux(old(flux), emid, de, lo, hi);
        && (fluxType != "photons" && fluxType != "energy" ==> o == Fail(UnknownFluxType) && flux == old(flux))
        && ((fluxType == "photons" || fluxType == "energy") && f == 0.0 ==>
              o == Fail(ZeroBandFlux) && flux == old(flux))
        && ((fluxType == "photons" || fluxType == "energy") && f != 0.0 ==>
              o == Pass && flux == Scale(newFlux / f, old(flux)))
        && (o.Pass? && fluxType == "photons" ==> BandPhotonFlux(flux, emid, de, lo, hi) == newFlux)
        && (o.Pass? && fluxType == "energy" ==> BandEnergyFlux(flux, emid, de, lo, hi) == newFlux)
    {
      var lo := if emin.Some? then emin.value else ebins[0];
      var hi := if emax.Some? then emax.value else ebins[|ebins| - 1];
      var f;
      if fluxType == "photons" {
        f := BandPhotonFlux(flux, emid, de, lo, hi);
      } else if fluxType == "energy" {
        f := BandEnergyFlux(flux, emid, de, lo, hi);
      } else {
        return Fail(UnknownFluxType);
      }
      if f == 0.0 {
        return Fail(ZeroBandFlux);
      }
      if fluxType == "photons" {
        RescaleHitsPhotonTarget(flux, emid, de, lo, hi, newFlux);
      } else {
        RescaleHitsEnergyTarget(flux, emid, de, lo, hi, newFlux);
      }
      flux := Scale(newFlux / f, flux);
      ComputeTotalFlux();
      return Pass;
    }

    /** apply_foreground_absorption: multiply every bin by its surviving
        fraction at the absorber-frame energy emid*(1+z); a convolved
        spectrum refuses. */
    method ApplyForegroundAbsorption(nH: real, model: string, redshift: real,
                                     exp: real -> real, tbabs: real -> real)
      returns (o: Outcome<Error>)
      requires Valid()
      requires model == "wabs" ==> NoZeroEnergy(Scale(1.0 + redshift, emid))
      modifies this
      ensures Valid()
      ensures kind.Convolved? ==> o == Fail(NotImplemented) && flux == old(flux)
      ensures kind.Plain? && model != "wabs" && model != "tbabs" ==>
        o == Fail(UnknownAbsorptionModel) && flux == old(flux)
      ensures kind.Plain? && (model == "wabs" || model == "tbabs") ==>
        && o == Pass
        && flux == Times(old(flux), Survival(exp, nH, CrossSections(model, tbabs, Scale(1.0 + redshift, emid))))
    {
      if kind.Convolved? {
        return Fail(NotImplemented);
      }
      if model != "wabs" && model != "tbabs" {
        return Fail(UnknownAbsorptionModel);
      }
      var sigma := CrossSections(model, tbabs, Scale(1.0 + redshift, emid));
      var transmitted := Times(flux, Survival(exp, nH, sigma));
      flux := transmitted;
      ComputeTotalFlux();
      return Pass;
    }

    /** add_emission_line: add a Gaussian whose integral is line_amp, at
        every midpoint; the total flux grows by exactly the binned line. */
    method AddEmissionLine(center: real, width: real, amp: real, lineType: string, exp: real -> real)
      returns (o: Outcome<Error>)
      requires Valid()
      modifies this
      ensures Valid()
      ensures lineType != "gaussian" ==> o == Fail(NotImplemented) && flux == old(flux)
      ensures lineType == "gaussian" && width == 0.0 ==> o == Fail(ZeroLineWidth) && flux == old(flux)
      ensures lineType == "gaussian" && width != 0.0 ==>
        && o == Pass
        && flux == Plus(old(flux), EmissionProfile(exp, center, width, amp, emid))
        && totalFlux == old(totalFlux) + TotalFlux(EmissionProfile(exp, center, width, amp, emid), de)
    {
      if lineType != "gaussian" {
        return Fail(NotImplemented);
      }
      if width == 0.0 {
        return Fail(ZeroLineWidth);
      }
      var line := EmissionProfile(exp, center, width, amp, emid);
      TotalFluxAdds(flux, line, de);
      flux := Plus(flux, line);
      ComputeTotalFlux();
      return Pass;
    }

    /** add_absorption_line: multiply every bin by exp(-depth) for a
        Gaussian depth fixed by the equivalent width. */
    method AddAbsorptionLine(center: real, width: real, equivWidth: real, lineType: string, exp: real -> real)
      returns (o: Outcome<Error>)
      requires Valid()
      modifies this
      ensures Valid()
      ensures lineType != "gaussian" ==> o == Fail(NotImplemented) && flux == old(flux)
      ensures lineType == "gaussian" && width == 0.0 ==> o == Fail(ZeroLineWidth) && flux == old(flux)
      ensures lineType == "gaussian" && width != 0.0 ==>
        && o == Pass
        && flux == Times(old(flux), Transmission(exp, AbsorptionDepth(exp, center, width, equivWidth, emid)))
    {
      if lineType != "gaussian" {
        return Fail(NotImplemented);
      }
      if width == 0.0 {
        return Fail(ZeroLineWidth);
      }
      flux := Times(flux, Transmission(exp, AbsorptionDepth(exp, center, width, equivWidth, emid)));
      ComputeTotalFlux();
      return Pass;
    }

    /** Spectrum.generate_energies: the Poisson mean t_exp*area*total_flux
        of the photon count, the given sorted draws turned into energies,
        and the sample's energy flux; the energies are sorted and inside the
        grid. A spectrum with zero total draws nothing. */
    method GenerateEnergies(tExp: real, area: real, sortedDraws: seq<real>)
      returns (meanCount: real, energies: seq<real>, sampleFlux: Float)
      requires Valid() && kind.Plain?
      requires |sortedDraws| > 0 ==> AllFinite(cumspec) && NonDecreasing(FiniteValues(cumspec))
      ensures meanCount == tExp * (area * totalFlux)
      ensures |energies| == |sortedDraws|
      ensures |sortedDraws| > 0 ==> energies == Sampling.GenerateEnergies(FiniteValues(cumspec), ebins, sortedDraws)
      ensures NonDecreasing(ebins) && NonDecreasing(sortedDraws) ==>
        && NonDecreasing(energies)
        && forall k :: 0 <= k < |energies| ==> ebins[0] <= energies[k] <= ebins[|ebins| - 1]
      ensures sampleFlux == Sampling.SampleFlux(energies, tExp, area)
    {
      meanCount := tExp * (area * totalFlux);
      energies := Draw(sortedDraws);
      sampleFlux := Sampling.SampleFlux(energies, tExp, area);
    }

    /** ConvolvedSpectrum.generate_energies: the area is already in the
        flux, so the Poisson mean is t_exp*total_flux, and the sample's flux
        divides by the summed area at the drawn energies (supplied). */
    method GenerateConvolvedEnergies(tExp: real, sortedDraws: seq<real>, sampledArea: seq<real>)
      returns (meanCount: real, energies: seq<real>, sampleFlux: Float)
      requires Valid() && kind.Convolved?
      requires |sampledArea| == |sortedDraws|
      requires |sortedDraws| > 0 ==> AllFinite(cumspec) && NonDecreasing(FiniteValues(cumspec))
      ensures meanCount == tExp * totalFlux
      ensures |energies| == |sortedDraws|
      ensures |sortedDraws| > 0 ==> energies == Sampling.GenerateEnergies(FiniteValues(cumspec), ebins, sortedDraws)
      ensures NonDecreasing(ebins) && NonDecreasing(sortedDraws) ==>
        && NonDecreasing(energies)
        && forall k :: 0 <= k < |energies| ==> ebins[0] <= energies[k] <= ebins[|ebins| - 1]
      ensures sampleFlux == Sampling.ConvolvedSampleFlux(energies, tExp, sampledArea)
    {
      meanCount := tExp * totalFlux;
      energies := Draw(sortedDraws);
      sampleFlux := Sampling.ConvolvedSampleFlux(energies, tExp, sampledArea);
    }

    /** _generate_energies on this spectrum's cumspec and edges. */
    method Draw(sortedDraws: seq<real>) returns (energies: seq<real>)
      requires Valid()
      requires |sortedDraws| > 0 ==> AllFinite(cumspec) && NonDecreasing(FiniteValues(cumspec))
      ensures |energies| == |sortedDraws|
      ensures |sortedDraws| > 0 ==> energies == Sampling.GenerateEnergies(FiniteValues(cumspec), ebins, sortedDraws)
      ensures NonDecreasing(ebins) && NonDecreasing(sortedDraws) ==>
        && NonDecreasing(energies)
        && forall k :: 0 <= k < |energies| ==> ebins[0] <= energies[k] <= ebins[|ebins| - 1]
    {
      if |sortedDraws| == 0 {
        return [];
      }
      var cdf := FiniteValues(cumspec);
      energies := Sampling.GenerateEnergies(cdf, ebins, sortedDraws);
      if NonDecreasing(ebins) && NonDecreasing(sortedDraws) {
        Sampling.GeneratedEnergiesSortedInGrid(cdf, ebins, sortedDraws);
      }
    }

    /** deconvolve: a plain Spectrum with the rate divided by the area, NaN
        made 0 and the infinities the largest finite floats. */
    method Deconvolve() returns (r: Spectrum)
      requires Valid() && kind.Convolved?
      ensures fresh(r) && r.Valid() && r.kind == Plain
      ensures r.ebins == ebins && r.flux == Deconvolved(flux, kind.area)
    {
      r := new Spectrum(ebins, Deconvolved(flux, kind.area));
    }

    /** from_constant: nbins bins of constant flux on linspace edges. */
    static method FromConstant(constFlux: real, emin: real, emax: real, nbins: int)
      returns (r: Result<Spectrum, Error>)
      ensures r.Err? <==> nbins < 1
      ensures r.Err? ==> r.error == TooFewEdges
      ensures r.Ok? ==> && fresh(r.value) && r.value.Valid() && r.value.kind == Plain
                        && r.value.ebins == Linspace(emin, emax, nbins + 1)
                        && r.value.flux == Constant(constFlux, nbins)
                        && r.value.totalFlux == constFlux * (emax - emin)
    {
      if nbins < 1 {
        return Err(TooFewEdges);
      }
      ConstantSpectrumTotal(constFlux, emin, emax, nbins);
      var s := new Spectrum(Linspace(emin, emax, nbins + 1), Constant(constFlux, nbins));
      return Ok(s);
    }

    /** from_powerlaw: norm*(emid*(1+z))**(-photon_index) on linspace
        edges. */
    static method FromPowerlaw(photonIndex: real, redshift: real, norm: real, emin: real, emax: real,
                               nbins: int, power: (real, real) -> real)
      returns (r: Result<Spectrum, Error>)
      ensures r.Err? <==> nbins < 1
      ensures r.Err? ==> r.error == TooFewEdges
      ensures r.Ok? ==> && fresh(r.value) && r.value.Valid() && r.value.kind == Plain
                        && r.value.ebins == Linspace(emin, emax, nbins + 1)
                        && r.value.flux == PowerLawFlux(power, photonIndex, redshift, norm, r.value.emid)
    {
      if nbins < 1 {
        return Err(TooFewEdges);
      }
      var ebins := Linspace(emin, emax, nbins + 1);
      var s := new Spectrum(ebins, PowerLawFlux(power, photonIndex, redshift, norm, Midpoints(ebins)));
      return Ok(s);
    }
  }
}
