/** The spectrum half of ApecGenerator (soxs/spectra.py:749-938): the
    spectrum of one element (or ion) at one tabulated temperature, the table
    of those spectra at the two temperatures that bracket kT, and the CIE and
    NEI spectra interpolated between them. The FITS tables are given as
    values (one TableData per temperature); the physical constants, sqrt and
    the Gaussian line broadening of soxs.utils come in as Physics. */
module Apec {
  import opened Numerics
  import opened Wrappers
  import opened ApecConfig
  import opened Constants

  /** One row of a line list HDU (ion_drv is read for NEI only). */
  datatype LineRow = LineRow(element: int, ionDrv: int, lambda: real, epsilon: real)

  /** One row of a continuum HDU: the continuum and pseudo-continuum of one
      ion, each a curve of N points. */
  datatype CocoRow = CocoRow(
    z: int,
    rmJ: int,
    nCont: int,
    eCont: seq<real>,
    continuum: seq<real>,
    nPseudo: int,
    ePseudo: seq<real>,
    pseudo: seq<real>)

  /** The line and continuum HDUs of one temperature (_preload_data). */
  datatype TableData = TableData(lines: seq<LineRow>, coco: seq<CocoRow>)

  /** m_u, clight, the atomic weights, sqrt and broaden_lines. */
  datatype Physics = Physics(
    atomicMassUnit: real,
    clight: real,
    atomicWeights: seq<real>,
    sqrt: real -> real,
    broaden: (seq<real>, seq<real>, seq<real>, seq<real>) -> seq<real>)

  /** broaden_lines returns one value per bin of the edges it is given. */
  ghost predicate PhysicsValid(phys: Physics)
  {
    && 0.0 < phys.atomicMassUnit && 0.0 < phys.clight
    && forall e0, sigma, amp, ebins :: |ebins| >= 1 ==> |phys.broaden(e0, sigma, amp, ebins)| == |ebins| - 1
  }

  /** The first N points of a curve, as np.interp needs them: at least one
      point, as many values as energies, energies in order. */
  ghost predicate CurveOk(n: int, xs: seq<real>, ys: seq<real>)
  {
    1 <= n <= |xs| && n <= |ys| && NonDecreasing(xs[..n])
  }

  ghost predicate TableOk(data: TableData)
  {
    forall k :: 0 <= k < |data.coco| ==>
      CurveOk(data.coco[k].nCont, data.coco[k].eCont, data.coco[k].continuum) &&
      CurveOk(data.coco[k].nPseudo, data.coco[k].ePseudo, data.coco[k].pseudo)
  }

  /** One table per temperature. */
  ghost predicate TablesOk(g: Generator, tables: seq<TableData>)
  {
    |tables| == |g.tvals| && forall t :: 0 <= t < |tables| ==> TableOk(tables[t])
  }

  /** _atable[z] and atomic_weights[z] can be read, and the weight is positive. */
  ghost predicate Usable(g: Generator, phys: Physics, z: int)
  {
    0 <= z < |g.relAtable| && z < |phys.atomicWeights| && 0.0 < phys.atomicWeights[z]
  }

  /** What a constructed generator provides to the spectrum methods. */
  ghost predicate Ready(g: Generator, phys: Physics)
  {
    && |g.ebins| >= 2 && StrictlyIncreasing(g.ebins)
    && g.de == Diff(g.ebins) && g.emid == Midpoints(g.ebins)
    && 0.0 < g.minlam
    && |g.tvals| >= 1 && StrictlyIncreasing(g.tvals) && g.dtvals == Diff(g.tvals)
    && |g.varElemNames| == |g.varElem| && |g.varIonNames| == |g.varElem|
    && (forall k :: 0 <= k < |g.cosmicElem| ==> Usable(g, phys, g.cosmicElem[k]))
    && (forall k :: 0 <= k < |g.metalElem| ==> Usable(g, phys, g.metalElem[k]))
    && (forall j :: 0 <= j < |g.varElem| ==> Usable(g, phys, g.varElem[j].0))
  }

  /** A generator the constructor built for the elements Z = 1..30 (slot 0 of
      the tables is a placeholder no group uses) is ready for the spectrum
      methods, given a temperature grid that increases, usable weights for
      Z = 1..30, and usable weights for whatever Z the varied pairs name. */
  lemma BuiltGeneratorIsReady(setup: Setup, cfg: Config, tvals: seq<real>, g: Generator, phys: Physics)
    requires WellBuilt(setup, cfg, tvals, g) && StrictlyIncreasing(tvals)
    requires forall z :: 1 <= z < 31 ==> Usable(g, phys, z)
    requires forall j :: 0 <= j < |g.varElem| ==> Usable(g, phys, g.varElem[j].0)
    requires forall x :: x in g.cosmicElem ==> x in (if cfg.nei then [1, 2] else setup.cosmicElem)
    requires forall x :: x in g.metalElem ==> x in setup.metalElem
    requires forall x :: x in setup.cosmicElem ==> 1 <= x < 31
    requires forall x :: x in setup.metalElem ==> 1 <= x < 31
    ensures Ready(g, phys)
  {
    LinspaceIncreasing(cfg.emin, cfg.emax, cfg.nbins + 1);
    LinspaceEnds(cfg.emin, cfg.emax, cfg.nbins + 1);
    assert 0.0 < HC / cfg.emax;
    forall k | 0 <= k < |g.cosmicElem| ensures Usable(g, phys, g.cosmicElem[k]) {
      assert g.cosmicElem[k] in g.cosmicElem;
    }
    forall k | 0 <= k < |g.metalElem| ensures Usable(g, phys, g.metalElem[k]) {
      assert g.metalElem[k] in g.metalElem;
    }
  }

  // ---------------------------------------------------------------------------
  // np.histogram

  /** The bin np.histogram puts a value in: bins are half open on the right
      except the last, which also takes its upper edge; values outside the
      edges are dropped. */
  function HistBin(ebins: seq<real>, e: real): (k: Option<nat>)
    requires |ebins| >= 2 && NonDecreasing(ebins)
    ensures k.Some? ==> k.value < |ebins| - 1
  {
    var n := |ebins| - 1;
    if e < ebins[0] || ebins[n] < e then None
    else if e == ebins[n] then Some(n - 1)
    else
      CountAtMostSplits(ebins, e);
      Some(CountAtMost(ebins, e) - 1)
  }

  lemma HistBinPlaces(ebins: seq<real>, e: real)
    requires |ebins| >= 2 && NonDecreasing(ebins)
    ensures HistBin(ebins, e).None? <==> e < ebins[0] || ebins[|ebins| - 1] < e
    ensures HistBin(ebins, e).Some? ==>
      var k := HistBin(ebins, e).value;
      ebins[k] <= e && (e < ebins[k + 1] || (k == |ebins| - 2 && e == ebins[k + 1]))
  {
    CountAtMostSplits(ebins, e);
  }

  /** np.histogram(values, ebins, weights=weights)[0]. */
  function Histogram(values: seq<real>, weights: seq<real>, ebins: seq<real>): (h: seq<real>)
    requires |values| == |weights| && |ebins| >= 2 && NonDecreasing(ebins)
    ensures |h| == |ebins| - 1
  {
    if |values| == 0 then Zeros(|ebins| - 1)
    else
      var m := |values|;
      var h := Histogram(values[..m - 1], weights[..m - 1], ebins);
      match HistBin(ebins, values[m - 1])
      case None => h
      case Some(k) => h[k := h[k] + weights[m - 1]]
  }

  /** The weights of the values that fall inside the edges, 0 for the rest. */
  function InBandWeights(values: seq<real>, weights: seq<real>, ebins: seq<real>): (w: seq<real>)
    requires |values| == |weights| && |ebins| >= 2 && NonDecreasing(ebins)
    ensures |w| == |values|
  {
    seq(|values|, i requires 0 <= i < |values| => if HistBin(ebins, values[i]).Some? then weights[i] else 0.0)
  }

  lemma {:induction false} SumUpdate(s: seq<real>, k: nat, d: real)
    requires k < |s|
    ensures Sum(s[k := s[k] + d]) == Sum(s) + d
  {
    var m := |s|;
    var t := s[k := s[k] + d];
    if k == m - 1 {
      assert t[..m - 1] == s[..m - 1];
    } else {
      SumUpdate(s[..m - 1], k, d);
      assert t[..m - 1] == s[..m - 1][k := s[k] + d];
    }
  }

  /** The histogram keeps the whole weight of the values inside the edges
      and nothing of the others. */
  lemma {:induction false} HistogramKeepsInBandWeight(values: seq<real>, weights: seq<real>, ebins: seq<real>)
    requires |values| == |weights| && |ebins| >= 2 && NonDecreasing(ebins)
    ensures Sum(Histogram(values, weights, ebins)) == Sum(InBandWeights(values, weights, ebins))
  {
    var m := |values|;
    if m == 0 {
      SumZeros(|ebins| - 1);
    } else {
      var h := Histogram(values[..m - 1], weights[..m - 1], ebins);
      HistogramKeepsInBandWeight(values[..m - 1], weights[..m - 1], ebins);
      var w := InBandWeights(values, weights, ebins);
      assert w[..m - 1] == InBandWeights(values[..m - 1], weights[..m - 1], ebins);
      match HistBin(ebins, values[m - 1])
      case None =>
      case Some(k) =>
        SumUpdate(h, k, weights[m - 1]);
    }
  }

  lemma {:induction false} HistogramNonNegative(values: seq<real>, weights: seq<real>, ebins: seq<real>)
    requires |values| == |weights| && |ebins| >= 2 && NonDecreasing(ebins)
    requires forall i :: 0 <= i < |weights| ==> 0.0 <= weights[i]
    ensures forall k :: 0 <= k < |ebins| - 1 ==> 0.0 <= Histogram(values, weights, ebins)[k]
  {
    var m := |values|;
    if m > 0 {
      HistogramNonNegative(values[..m - 1], weights[..m - 1], ebins);
    }
  }

  // ---------------------------------------------------------------------------
  // _make_spectrum

  /** The line filter: the element, a wavelength strictly inside the band,
      and in NEI the driving ion one above the ion asked for. */
  predicate LineSelected(g: Generator, element: int, ion: int, row: LineRow)
  {
    row.element == element && g.minlam < row.lambda < g.maxlam && (g.nei ==> row.ionDrv == ion + 1)
  }

  function SelectLines(g: Generator, element: int, ion: int, lines: seq<LineRow>): (r: seq<LineRow>)
    ensures forall row :: row in r <==> row in lines && LineSelected(g, element, ion, row)
    ensures forall k :: 0 <= k < |r| ==> LineSelected(g, element, ion, r[k])
  {
    if |lines| == 0 then []
    else
      var rest := SelectLines(g, element, ion, lines[1..]);
      assert forall row :: row in lines <==> row == lines[0] || row in lines[1..];
      if LineSelected(g, element, ion, lines[0]) then [lines[0]] + rest else rest
  }

  /** E0 = hc/lambda, moved by the redshift factor. */
  function LineEnergies(g: Generator, sel: seq<LineRow>, scale: real): (e0: seq<real>)
    requires 0.0 < g.minlam && forall k :: 0 <= k < |sel| ==> g.minlam < sel[k].lambda
    ensures |e0| == |sel|
  {
    seq(|sel|, i requires 0 <= i < |sel| => HC / sel[i].lambda * scale)
  }

  /** amp = epsilon * _atable[element]. */
  function LineAmplitudes(g: Generator, sel: seq<LineRow>, element: nat): (amp: seq<real>)
    requires element < |g.relAtable|
    ensures |amp| == |sel|
  {
    seq(|sel|, i requires 0 <= i < |sel| => sel[i].epsilon * g.relAtable[element])
  }

  /** The thermal and turbulent width of each line. */
  function LineWidths(phys: Physics, kT: real, element: nat, velocity: real, e0: seq<real>): (sigma: seq<real>)
    requires element < |phys.atomicWeights| && 0.0 < phys.atomicWeights[element]
    requires 0.0 < phys.atomicMassUnit && 0.0 < phys.clight
    ensures |sigma| == |e0|
  {
    MulPositive(phys.atomicWeights[element], phys.atomicMassUnit);
    var s2 := 2.0 * kT * ERG_PER_KEV / (phys.atomicWeights[element] * phys.atomicMassUnit) + 2.0 * velocity * velocity;
    seq(|e0|, i requires 0 <= i < |e0| => e0[i] * phys.sqrt(s2) / phys.clight)
  }

  /** The line part of _make_spectrum: nothing with nolines, otherwise the
      selected lines broadened onto the bins, or binned by np.histogram. */
  function LineSpectrum(g: Generator, phys: Physics, kT: real, element: nat, ion: int, velocity: real,
                        lines: seq<LineRow>, scale: real): (r: seq<real>)
    requires Ready(g, phys) && PhysicsValid(phys) && Usable(g, phys, element)
    ensures |r| == |g.ebins| - 1
  {
    if g.nolines then Zeros(|g.ebins| - 1)
    else
      var sel := SelectLines(g, element, ion, lines);
      var e0 := LineEnergies(g, sel, scale);
      var amp := LineAmplitudes(g, sel, element);
      if g.broadening then phys.broaden(e0, LineWidths(phys, kT, element, velocity, e0), amp, g.ebins)
      else Histogram(e0, amp, g.ebins)
  }

  predicate RowMatches(g: Generator, row: CocoRow, element: int, ion: int)
  {
    row.z == element && row.rmJ == ion + (if g.nei then 1 else 0)
  }

  /** The first continuum row of the element and ion; the NEI tables count
      the ion from 1 (rmJ = ion + 1). */
  function ContinuumRow(g: Generator, coco: seq<CocoRow>, element: int, ion: int): (r: Option<nat>)
    ensures r.Some? ==> r.value < |coco| && RowMatches(g, coco[r.value], element, ion)
    ensures r.Some? ==> forall j :: 0 <= j < r.value ==> !RowMatches(g, coco[j], element, ion)
    ensures r.None? <==> forall j :: 0 <= j < |coco| ==> !RowMatches(g, coco[j], element, ion)
  {
    if |coco| == 0 then None
    else if RowMatches(g, coco[0], element, ion) then Some(0)
    else
      match ContinuumRow(g, coco[1..], element, ion)
      case None => None
      case Some(k) => Some(k + 1)
  }

  /** np.interp of a curve at every bin midpoint. */
  function InterpOnto(emid: seq<real>, xs: seq<real>, ys: seq<real>): (r: seq<real>)
    requires |xs| == |ys| >= 1 && NonDecreasing(xs)
    ensures |r| == |emid| && forall i {:trigger r[i]} :: 0 <= i < |emid| ==> r[i] == Interp(emid[i], xs, ys)
  {
    seq(|emid|, i requires 0 <= i < |emid| => Interp(emid[i], xs, ys))
  }

  lemma ScaleKeepsOrder(c: real, s: seq<real>)
    requires 0.0 < c && NonDecreasing(s)
    ensures NonDecreasing(Scale(c, s))
  {
    forall i, j | 0 <= i <= j < |s| ensures c * s[i] <= c * s[j] {
      MulNonNegative(c, s[j] - s[i]);
    }
  }

  /** One continuum curve (its first n points, the energies moved by the
      redshift factor, the values scaled by the element's abundance)
      interpolated at the bin midpoints and multiplied by de/scale. */
  function ContinuumPart(g: Generator, n: int, xs: seq<real>, ys: seq<real>, abundance: real, scale: real): (r: seq<real>)
    requires CurveOk(n, xs, ys) && 0.0 < scale
    requires |g.emid| == |g.de|
    ensures |r| == |g.emid|
  {
    ScaleKeepsOrder(scale, xs[..n]);
    var de0 := seq(|g.de|, i requires 0 <= i < |g.de| => g.de[i] / scale);
    Times(InterpOnto(g.emid, Scale(scale, xs[..n]), Scale(abundance, ys[..n])), de0)
  }

  /** _make_spectrum: the lines, then the continuum and pseudo-continuum of
      the first matching continuum row, all times the redshift factor. An
      element with no continuum row returns its lines without that factor. */
  function MakeSpectrum(g: Generator, phys: Physics, kT: real, element: nat, ion: int, velocity: real,
                        data: TableData, scale: real): (r: seq<real>)
    requires Ready(g, phys) && PhysicsValid(phys) && Usable(g, phys, element)
    requires TableOk(data) && 0.0 < scale
    ensures |r| == |g.ebins| - 1
  {
    var lines := LineSpectrum(g, phys, kT, element, ion, velocity, data.lines, scale);
    match ContinuumRow(g, data.coco, element, ion)
    case None => lines
    case Some(k) =>
      var row := data.coco[k];
      var abundance := g.relAtable[element];
      var cont := ContinuumPart(g, row.nCont, row.eCont, row.continuum, abundance, scale);
      var pseudo := ContinuumPart(g, row.nPseudo, row.ePseudo, row.pseudo, abundance, scale);
      Scale(scale, Plus(Plus(lines, cont), pseudo))
  }

  /** Lines alone, binned without broadening, of an element with no
      continuum row: the spectrum carries the amplitude of every selected
      line whose redshifted energy lies inside the band, and nothing else. */
  lemma LinesOnlyKeepInBandAmplitudes(g: Generator, phys: Physics, kT: real, element: nat, ion: int, velocity: real,
                                      data: TableData, scale: real)
    requires Ready(g, phys) && PhysicsValid(phys) && Usable(g, phys, element)
    requires TableOk(data) && 0.0 < scale
    requires !g.nolines && !g.broadening && ContinuumRow(g, data.coco, element, ion).None?
    ensures var sel := SelectLines(g, element, ion, data.lines);
      Sum(MakeSpectrum(g, phys, kT, element, ion, velocity, data, scale))
        == Sum(InBandWeights(LineEnergies(g, sel, scale), LineAmplitudes(g, sel, element), g.ebins))
  {
    var sel := SelectLines(g, element, ion, data.lines);
    HistogramKeepsInBandWeight(LineEnergies(g, sel, scale), LineAmplitudes(g, sel, element), g.ebins);
  }

  /** The non-negative quantities a spectrum is built from. */
  ghost predicate NonNegativeInputs(g: Generator, data: TableData)
  {
    && (forall z :: 0 <= z < |g.relAtable| ==> 0.0 <= g.relAtable[z])
    && (forall k :: 0 <= k < |data.lines| ==> 0.0 <= data.lines[k].epsilon)
    && (forall k, i :: 0 <= k < |data.coco| && 0 <= i < |data.coco[k].continuum| ==> 0.0 <= data.coco[k].continuum[i])
    && (forall k, i :: 0 <= k < |data.coco| && 0 <= i < |data.coco[k].pseudo| ==> 0.0 <= data.coco[k].pseudo[i])
  }

  lemma ContinuumPartNonNegative(g: Generator, n: int, xs: seq<real>, ys: seq<real>, abundance: real, scale: real)
    requires CurveOk(n, xs, ys) && 0.0 < scale && |g.emid| == |g.de|
    requires forall i :: 0 <= i < |g.de| ==> 0.0 < g.de[i]
    requires 0.0 <= abundance && forall i :: 0 <= i < |ys| ==> 0.0 <= ys[i]
    ensures forall i :: 0 <= i < |g.emid| ==> 0.0 <= ContinuumPart(g, n, xs, ys, abundance, scale)[i]
  {
    ScaleKeepsOrder(scale, xs[..n]);
    var fp := Scale(abundance, ys[..n]);
    forall i | 0 <= i < |fp| ensures 0.0 <= fp[i] {
      MulNonNegative(abundance, ys[i]);
    }
    forall i | 0 <= i < |g.emid| ensures 0.0 <= ContinuumPart(g, n, xs, ys, abundance, scale)[i] {
      InterpNonNegative(g.emid[i], Scale(scale, xs[..n]), fp);
      DivMonotone(0.0, g.de[i], scale);
      MulNonNegative(Interp(g.emid[i], Scale(scale, xs[..n]), fp), g.de[i] / scale);
    }
  }

  /** Without broadening, the binned lines are non-negative when the
      emissivities and abundances are. */
  lemma LineSpectrumNonNegative(g: Generator, phys: Physics, kT: real, element: nat, ion: int, velocity: real,
                                data: TableData, scale: real)
    requires Ready(g, phys) && PhysicsValid(phys) && Usable(g, phys, element)
    requires !g.broadening && NonNegativeInputs(g, data)
    ensures forall i :: 0 <= i < |g.ebins| - 1 ==> 0.0 <= LineSpectrum(g, phys, kT, element, ion, velocity, data.lines, scale)[i]
  {
    if !g.nolines {
      var sel := SelectLines(g, element, ion, data.lines);
      var amp := LineAmplitudes(g, sel, element);
      forall k | 0 <= k < |sel| ensures 0.0 <= amp[k] {
        assert sel[k] in data.lines;
        MulNonNegative(sel[k].epsilon, g.relAtable[element]);
      }
      HistogramsOfPositiveEdges(g);
      HistogramNonNegative(LineEnergies(g, sel, scale), amp, g.ebins);
    }
  }

  /** Without broadening, an element's spectrum is non-negative in every
      bin when the emissivities, continua and abundances are. */
  lemma MakeSpectrumNonNegative(g: Generator, phys: Physics, kT: real, element: nat, ion: int, velocity: real,
                                data: TableData, scale: real)
    requires Ready(g, phys) && PhysicsValid(phys) && Usable(g, phys, element)
    requires TableOk(data) && 0.0 < scale
    requires !g.broadening && NonNegativeInputs(g, data)
    ensures forall i :: 0 <= i < |g.ebins| - 1 ==> 0.0 <= MakeSpectrum(g, phys, kT, element, ion, velocity, data, scale)[i]
  {
    var lines := LineSpectrum(g, phys, kT, element, ion, velocity, data.lines, scale);
    LineSpectrumNonNegative(g, phys, kT, element, ion, velocity, data, scale);
    match ContinuumRow(g, data.coco, element, ion)
    case None =>
    case Some(k) =>
      var row := data.coco[k];
      var a := g.relAtable[element];
      PositiveSteps(g);
      var cont := ContinuumPart(g, row.nCont, row.eCont, row.continuum, a, scale);
      var pseudo := ContinuumPart(g, row.nPseudo, row.ePseudo, row.pseudo, a, scale);
      ContinuumPartNonNegative(g, row.nCont, row.eCont, row.continuum, a, scale);
      ContinuumPartNonNegative(g, row.nPseudo, row.ePseudo, row.pseudo, a, scale);
      ScaledSumNonNegative(scale, lines, cont, pseudo);
  }

  lemma HistogramsOfPositiveEdges(g: Generator)
    requires StrictlyIncreasing(g.ebins)
    ensures NonDecreasing(g.ebins)
  {
  }

  lemma PositiveSteps(g: Generator)
    requires |g.ebins| >= 2 && StrictlyIncreasing(g.ebins) && g.de == Diff(g.ebins) && g.emid == Midpoints(g.ebins)
    ensures |g.emid| == |g.de| && forall i :: 0 <= i < |g.de| ==> 0.0 < g.de[i]
  {
  }

  // ---------------------------------------------------------------------------
  // _get_table

  /** 1/(1+z), the factor energies and spectra are moved by. */
  function RedshiftFactor(redshift: real): (scale: real)
    requires -1.0 < redshift
    ensures 0.0 < scale
  {
    ReciprocalPositive(1.0 + redshift);
    1.0 / (1.0 + redshift)
  }

  /** The cosmic group's (Z, ion) pairs: in NEI H and He are taken fully
      ionised (ion = Z), in CIE every ion is 0. */
  function CosmicPairs(g: Generator): (pairs: seq<(nat, int)>)
    ensures |pairs| == |g.cosmicElem|
  {
    seq(|g.cosmicElem|, i requires 0 <= i < |g.cosmicElem| => (g.cosmicElem[i], if g.nei then g.cosmicElem[i] as int else 0))
  }

  function MetalPairs(g: Generator): (pairs: seq<(nat, int)>)
    ensures |pairs| == |g.metalElem|
  {
    seq(|g.metalElem|, i requires 0 <= i < |g.metalElem| => (g.metalElem[i], 0))
  }

  ghost predicate AllUsable(g: Generator, phys: Physics, pairs: seq<(nat, int)>)
  {
    forall k :: 0 <= k < |pairs| ==> Usable(g, phys, pairs[k].0)
  }

  lemma GroupsUsable(g: Generator, phys: Physics)
    requires Ready(g, phys)
    ensures AllUsable(g, phys, CosmicPairs(g)) && AllUsable(g, phys, MetalPairs(g))
  {
  }

  /** The spectra of a group's first n pairs, added up in the group's order. */
  function GroupSpectrum(g: Generator, phys: Physics, kT: real, velocity: real, data: TableData, scale: real,
                         pairs: seq<(nat, int)>, n: nat): (r: seq<real>)
    requires Ready(g, phys) && PhysicsValid(phys) && TableOk(data) && 0.0 < scale
    requires AllUsable(g, phys, pairs) && n <= |pairs|
    ensures |r| == |g.ebins| - 1
  {
    if n == 0 then Zeros(|g.ebins| - 1)
    else
      Plus(GroupSpectrum(g, phys, kT, velocity, data, scale, pairs, n - 1),
           MakeSpectrum(g, phys, kT, pairs[n - 1].0, pairs[n - 1].1, velocity, data, scale))
  }

  /** Adding the next pair's spectrum extends the group sum by one pair. */
  lemma GroupSpectrumStep(g: Generator, phys: Physics, kT: real, velocity: real, data: TableData, scale: real,
                          pairs: seq<(nat, int)>, n: nat)
    requires Ready(g, phys) && PhysicsValid(phys) && TableOk(data) && 0.0 < scale
    requires AllUsable(g, phys, pairs) && n < |pairs|
    ensures GroupSpectrum(g, phys, kT, velocity, data, scale, pairs, n + 1)
         == Plus(GroupSpectrum(g, phys, kT, velocity, data, scale, pairs, n),
                 MakeSpectrum(g, phys, kT, pairs[n].0, pairs[n].1, velocity, data, scale))
  {
  }

  /** One `row += _make_spectrum(...)` loop of _get_table. */
  method AddGroup(g: Generator, phys: Physics, kT: real, velocity: real, data: TableData, scale: real,
                  pairs: seq<(nat, int)>) returns (row: seq<real>)
    requires Ready(g, phys) && PhysicsValid(phys) && TableOk(data) && 0.0 < scale
    requires AllUsable(g, phys, pairs)
    ensures row == GroupSpectrum(g, phys, kT, velocity, data, scale, pairs, |pairs|)
  {
    row := Zeros(|g.ebins| - 1);
    var k := 0;
    while k < |pairs|
      invariant 0 <= k <= |pairs|
      invariant row == GroupSpectrum(g, phys, kT, velocity, data, scale, pairs, k)
    {
      GroupSpectrumStep(g, phys, kT, velocity, data, scale, pairs, k);
      row := Plus(row, MakeSpectrum(g, phys, kT, pairs[k].0, pairs[k].1, velocity, data, scale));
      k := k + 1;
    }
  }

  /** A group's spectrum at table temperature t. */
  function TableRow(g: Generator, phys: Physics, tables: seq<TableData>, t: nat, velocity: real, redshift: real,
                    pairs: seq<(nat, int)>): (r: seq<real>)
    requires Ready(g, phys) && PhysicsValid(phys) && TablesOk(g, tables) && -1.0 < redshift
    requires t < |g.tvals| && AllUsable(g, phys, pairs)
    ensures |r| == |g.ebins| - 1
  {
    GroupSpectrum(g, phys, g.tvals[t], velocity, tables[t], RedshiftFactor(redshift), pairs, |pairs|)
  }

  /** The j-th varied element or ion's spectrum at table temperature t. */
  function VarSpectrum(g: Generator, phys: Physics, tables: seq<TableData>, t: nat, velocity: real, redshift: real,
                       j: nat): (r: seq<real>)
    requires Ready(g, phys) && PhysicsValid(phys) && TablesOk(g, tables) && -1.0 < redshift
    requires t < |g.tvals| && j < |g.varElem|
    ensures |r| == |g.ebins| - 1
  {
    MakeSpectrum(g, phys, g.tvals[t], g.varElem[j].0, g.varElem[j].1, velocity, tables[t], RedshiftFactor(redshift))
  }

  /** One pass of _get_table's outer loop, for table index t: the cosmic
      and metal group spectra, and the spectrum of every varied pair. */
  method TableColumn(g: Generator, phys: Physics, tables: seq<TableData>, t: nat, redshift: real, velocity: real)
    returns (c: seq<real>, m: seq<real>, vcol: seq<seq<real>>)
    requires Ready(g, phys) && PhysicsValid(phys) && TablesOk(g, tables) && -1.0 < redshift
    requires t < |g.tvals|
    ensures c == TableRow(g, phys, tables, t, velocity, redshift, CosmicPairs(g))
    ensures m == TableRow(g, phys, tables, t, velocity, redshift, MetalPairs(g))
    ensures vcol == VarColumn(g, phys, tables, t, velocity, redshift, |g.varElem|)
  {
    GroupsUsable(g, phys);
    var scale := RedshiftFactor(redshift);
    c := AddGroup(g, phys, g.tvals[t], velocity, tables[t], scale, CosmicPairs(g));
    m := AddGroup(g, phys, g.tvals[t], velocity, tables[t], scale, MetalPairs(g));
    vcol := [];
    var j := 0;
    while j < |g.varElem|
      invariant 0 <= j <= |g.varElem|
      invariant vcol == VarColumn(g, phys, tables, t, velocity, redshift, j)
    {
      vcol := vcol + [VarSpectrum(g, phys, tables, t, velocity, redshift, j)];
      j := j + 1;
    }
  }

  function VarColumn(g: Generator, phys: Physics, tables: seq<TableData>, t: nat, velocity: real, redshift: real, n: nat): (col: seq<seq<real>>)
    requires Ready(g, phys) && PhysicsValid(phys) && TablesOk(g, tables) && -1.0 < redshift
    requires t < |g.tvals| && n <= |g.varElem|
    ensures |col| == n
  {
    if n == 0 then [] else VarColumn(g, phys, tables, t, velocity, redshift, n - 1) + [VarSpectrum(g, phys, tables, t, velocity, redshift, n - 1)]
  }

  /** The j-th entry of a table column is the j-th varied pair's spectrum. */
  lemma {:induction false} VarColumnAt(g: Generator, phys: Physics, tables: seq<TableData>, t: nat, velocity: real,
                                       redshift: real, n: nat, j: nat)
    requires Ready(g, phys) && PhysicsValid(phys) && TablesOk(g, tables) && -1.0 < redshift
    requires t < |g.tvals| && n <= |g.varElem| && j < n
    ensures VarColumn(g, phys, tables, t, velocity, redshift, n)[j] == VarSpectrum(g, phys, tables, t, velocity, redshift, j)
  {
    if j < n - 1 {
      VarColumnAt(g, phys, tables, t, velocity, redshift, n - 1, j);
    }
  }

  /** A group's spectra at the first n table indices. */
  function GroupRows(g: Generator, phys: Physics, tables: seq<TableData>, indices: seq<nat>, velocity: real, redshift: real,
                     pairs: seq<(nat, int)>, n: nat): (rows: seq<seq<real>>)
    requires Ready(g, phys) && PhysicsValid(phys) && TablesOk(g, tables) && -1.0 < redshift
    requires (forall i :: 0 <= i < |indices| ==> indices[i] < |g.tvals|) && AllUsable(g, phys, pairs)
    requires n <= |indices|
    ensures |rows| == n
  {
    if n == 0 then []
    else
      GroupRows(g, phys, tables, indices, velocity, redshift, pairs, n - 1)
        + [TableRow(g, phys, tables, indices[n - 1], velocity, redshift, pairs)]
  }

  /** Row i of a group's table is the group's spectrum at indices[i]. */
  lemma {:induction false} GroupRowsAt(g: Generator, phys: Physics, tables: seq<TableData>, indices: seq<nat>,
                                       velocity: real, redshift: real, pairs: seq<(nat, int)>, n: nat, i: nat)
    requires Ready(g, phys) && PhysicsValid(phys) && TablesOk(g, tables) && -1.0 < redshift
    requires (forall i :: 0 <= i < |indices| ==> indices[i] < |g.tvals|) && AllUsable(g, phys, pairs)
    requires n <= |indices| && i < n
    ensures GroupRows(g, phys, tables, indices, velocity, redshift, pairs, n)[i]
         == TableRow(g, phys, tables, indices[i], velocity, redshift, pairs)
  {
    if i < n - 1 {
      GroupRowsAt(g, phys, tables, indices, velocity, redshift, pairs, n - 1, i);
    }
  }

  /** The varied pairs' spectra at the first n table indices. */
  function VarColumns(g: Generator, phys: Physics, tables: seq<TableData>, indices: seq<nat>, velocity: real,
                      redshift: real, n: nat): (cols: seq<seq<seq<real>>>)
    requires Ready(g, phys) && PhysicsValid(phys) && TablesOk(g, tables) && -1.0 < redshift
    requires forall i :: 0 <= i < |indices| ==> indices[i] < |g.tvals|
    requires n <= |indices|
    ensures |cols| == n && forall i {:trigger cols[i]} :: 0 <= i < n ==> |cols[i]| == |g.varElem|
  {
    if n == 0 then []
    else
      VarColumns(g, phys, tables, indices, velocity, redshift, n - 1)
        + [VarColumn(g, phys, tables, indices[n - 1], velocity, redshift, |g.varElem|)]
  }

  /** Entry j of column i is the j-th varied pair's spectrum at indices[i]. */
  lemma {:induction false} VarColumnsAt(g: Generator, phys: Physics, tables: seq<TableData>, indices: seq<nat>,
                                        velocity: real, redshift: real, n: nat, i: nat, j: nat)
    requires Ready(g, phys) && PhysicsValid(phys) && TablesOk(g, tables) && -1.0 < redshift
    requires forall i :: 0 <= i < |indices| ==> indices[i] < |g.tvals|
    requires n <= |indices| && i < n && j < |g.varElem|
    ensures VarColumns(g, phys, tables, indices, velocity, redshift, n)[i][j]
         == VarSpectrum(g, phys, tables, indices[i], velocity, redshift, j)
  {
    if i < n - 1 {
      VarColumnsAt(g, phys, tables, indices, velocity, redshift, n - 1, i, j);
    } else {
      VarColumnAt(g, phys, tables, indices[i], velocity, redshift, |g.varElem|, j);
    }
  }

  /** rows[j][i] == cols[i][j]. */
  function Transposed(cols: seq<seq<seq<real>>>, n: nat): (rows: seq<seq<seq<real>>>)
    requires forall i :: 0 <= i < |cols| ==> |cols[i]| == n
    ensures |rows| == n && forall j :: 0 <= j < n ==> |rows[j]| == |cols|
    ensures forall j, i :: 0 <= j < n && 0 <= i < |cols| ==> rows[j][i] == cols[i][j]
  {
    seq(n, j requires 0 <= j < n => seq(|cols|, i requires 0 <= i < |cols| => cols[i][j]))
  }

  lemma VarColumnsTransposed(g: Generator, phys: Physics, tables: seq<TableData>, indices: seq<nat>, velocity: real,
                             redshift: real)
    requires Ready(g, phys) && PhysicsValid(phys) && TablesOk(g, tables) && -1.0 < redshift
    requires forall i :: 0 <= i < |indices| ==> indices[i] < |g.tvals|
    ensures var cols := VarColumns(g, phys, tables, indices, velocity, redshift, |indices|);
      (forall i :: 0 <= i < |cols| ==> |cols[i]| == |g.varElem|) &&
      VarTable(g, phys, tables, indices, redshift, velocity, Transposed(cols, |g.varElem|))
  {
    var cols := VarColumns(g, phys, tables, indices, velocity, redshift, |indices|);
    var rows := Transposed(cols, |g.varElem|);
    forall j, i | 0 <= j < |g.varElem| && 0 <= i < |indices|
      ensures rows[j][i] == VarSpectrum(g, phys, tables, indices[i], velocity, redshift, j)
    {
      VarColumnsAt(g, phys, tables, indices, velocity, redshift, |indices|, i, j);
    }
  }

  /** One pass of _get_table's loop over the indices: the column at
      indices[i] is appended to what the first i passes built. */
  method AppendColumn(g: Generator, phys: Physics, tables: seq<TableData>, indices: seq<nat>, redshift: real,
                      velocity: real, i: nat, cspec: seq<seq<real>>, mspec: seq<seq<real>>, vcols: seq<seq<seq<real>>>)
    returns (cspec': seq<seq<real>>, mspec': seq<seq<real>>, vcols': seq<seq<seq<real>>>)
    requires Ready(g, phys) && PhysicsValid(phys) && TablesOk(g, tables) && -1.0 < redshift
    requires forall i :: 0 <= i < |indices| ==> indices[i] < |g.tvals|
    requires i < |indices|
    requires (GroupsUsable(g, phys); cspec == GroupRows(g, phys, tables, indices, velocity, redshift, CosmicPairs(g), i))
    requires (GroupsUsable(g, phys); mspec == GroupRows(g, phys, tables, indices, velocity, redshift, MetalPairs(g), i))
    requires vcols == VarColumns(g, phys, tables, indices, velocity, redshift, i)
    ensures (GroupsUsable(g, phys); cspec' == GroupRows(g, phys, tables, indices, velocity, redshift, CosmicPairs(g), i + 1))
    ensures (GroupsUsable(g, phys); mspec' == GroupRows(g, phys, tables, indices, velocity, redshift, MetalPairs(g), i + 1))
    ensures vcols' == VarColumns(g, phys, tables, indices, velocity, redshift, i + 1)
  {
    var c, m, vcol := TableColumn(g, phys, tables, indices[i], redshift, velocity);
    cspec' := cspec + [c];
    mspec' := mspec + [m];
    vcols' := vcols + [vcol];
  }

  /** _get_table: for every temperature index, the cosmic and metal group
      spectra, and (when elements are varied) each varied pair's spectrum,
      vspec[j][i] for pair j at index i. */
  method GetTable(g: Generator, phys: Physics, tables: seq<TableData>, indices: seq<nat>, redshift: real, velocity: real)
    returns (cspec: seq<seq<real>>, mspec: seq<seq<real>>, vspec: Option<seq<seq<seq<real>>>>)
    requires Ready(g, phys) && PhysicsValid(phys) && TablesOk(g, tables) && -1.0 < redshift
    requires forall i :: 0 <= i < |indices| ==> indices[i] < |g.tvals|
    ensures (GroupsUsable(g, phys); cspec == GroupRows(g, phys, tables, indices, velocity, redshift, CosmicPairs(g), |indices|))
    ensures (GroupsUsable(g, phys); mspec == GroupRows(g, phys, tables, indices, velocity, redshift, MetalPairs(g), |indices|))
    ensures vspec.Some? <==> |g.varElem| > 0
    ensures vspec.Some? ==> VarTable(g, phys, tables, indices, redshift, velocity, vspec.value)
  {
    GroupsUsable(g, phys);
    cspec := [];
    mspec := [];
    var vcols: seq<seq<seq<real>>> := [];
    var i := 0;
    while i < |indices|
      invariant 0 <= i <= |indices|
      invariant cspec == GroupRows(g, phys, tables, indices, velocity, redshift, CosmicPairs(g), i)
      invariant mspec == GroupRows(g, phys, tables, indices, velocity, redshift, MetalPairs(g), i)
      invariant vcols == VarColumns(g, phys, tables, indices, velocity, redshift, i)
    {
      cspec, mspec, vcols := AppendColumn(g, phys, tables, indices, redshift, velocity, i, cspec, mspec, vcols);
      i := i + 1;
    }
    VarColumnsTransposed(g, phys, tables, indices, velocity, redshift);
    var rows := Transposed(vcols, |g.varElem|);
    vspec := if |g.varElem| > 0 then Some(rows) else None;
  }

  /** vspec[j][i] is the j-th varied pair's spectrum at indices[i]. */
  ghost predicate VarTable(g: Generator, phys: Physics, tables: seq<TableData>, indices: seq<nat>, redshift: real,
                           velocity: real, vspec: seq<seq<seq<real>>>)
    requires Ready(g, phys) && PhysicsValid(phys) && TablesOk(g, tables) && -1.0 < redshift
    requires forall i :: 0 <= i < |indices| ==> indices[i] < |g.tvals|
  {
    && |vspec| == |g.varElem|
    && (forall j :: 0 <= j < |g.varElem| ==> |vspec[j]| == |indices|)
    && forall j, i {:trigger vspec[j][i]} :: 0 <= j < |g.varElem| && 0 <= i < |indices| ==>
         vspec[j][i] == VarSpectrum(g, phys, tables, indices[i], velocity, redshift, j)
  }

  // ---------------------------------------------------------------------------
  // _spectrum_init

  /** What _spectrum_init returns: kT, the fraction dT of the way from
      Tvals[tindex] to the next temperature, tindex, and the velocity in cm/s. */
  datatype Init = Init(kT: real, dT: real, tindex: int, v: real)

  /** _spectrum_init: tindex is np.searchsorted(Tvals, kT) - 1, both arrays
      read with Python's negative indexing; reading dTvals[tindex] raises
      IndexError for kT above the last temperature (and for every kT when
      there is one temperature). Tvals[tindex] is in range whenever
      dTvals[tindex] is. */
  function SpectrumInit(g: Generator, kT: real, velocity: real): (r: Result<Init, ApecError>)
    requires |g.tvals| >= 1 && StrictlyIncreasing(g.tvals) && g.dtvals == Diff(g.tvals)
    ensures r.Err? ==> r.error == TemperatureOutOfTable
  {
    var tindex := CountBelow(g.tvals, kT) - 1;
    if !ValidPyIndex(|g.dtvals|, tindex) then Err(TemperatureOutOfTable)
    else
      var k := PyIndex(|g.dtvals|, tindex);
      assert g.tvals[k] < g.tvals[k + 1];
      Ok(Init(kT, (kT - g.tvals[PyIndex(|g.tvals|, tindex)]) / g.dtvals[k], tindex, velocity * 1.0e5))
  }

  /** kT at or below the first temperature gives tindex -1 (with at least
      two temperatures); kT above the last raises; in between, tindex
      brackets kT, Tvals[tindex] < kT <= Tvals[tindex+1], with dT in (0, 1],
      and a tabulated temperature is hit exactly with dT = 1. */
  lemma TemperatureBracket(g: Generator, kT: real, velocity: real)
    requires |g.tvals| >= 1 && StrictlyIncreasing(g.tvals) && g.dtvals == Diff(g.tvals)
    ensures |g.tvals| == 1 ==> SpectrumInit(g, kT, velocity).Err?
    ensures |g.tvals| >= 2 && kT <= g.tvals[0] ==>
      SpectrumInit(g, kT, velocity).Ok? && SpectrumInit(g, kT, velocity).value.tindex == -1
    ensures g.tvals[|g.tvals| - 1] < kT ==> SpectrumInit(g, kT, velocity) == Err(TemperatureOutOfTable)
    ensures g.tvals[0] < kT <= g.tvals[|g.tvals| - 1] ==>
      && SpectrumInit(g, kT, velocity).Ok?
      && var init := SpectrumInit(g, kT, velocity).value;
      && 0 <= init.tindex < |g.tvals| - 1
      && g.tvals[init.tindex] < kT <= g.tvals[init.tindex + 1]
      && 0.0 < init.dT <= 1.0
      && (kT == g.tvals[init.tindex + 1] ==> init.dT == 1.0)
  {
    var n := |g.tvals|;
    assert NonDecreasing(g.tvals);
    CountBelowSplits(g.tvals, kT);
    if kT <= g.tvals[0] {
      assert CountBelow(g.tvals, kT) == 0;
    }
    if g.tvals[n - 1] < kT {
      assert CountBelow(g.tvals, kT) == n;
    }
    if g.tvals[0] < kT <= g.tvals[n - 1] {
      InsideTable(g, kT, velocity);
    }
  }

  /** The bracketed case of TemperatureBracket. */
  lemma InsideTable(g: Generator, kT: real, velocity: real)
    requires |g.tvals| >= 1 && StrictlyIncreasing(g.tvals) && g.dtvals == Diff(g.tvals)
    requires g.tvals[0] < kT <= g.tvals[|g.tvals| - 1]
    ensures var c := CountBelow(g.tvals, kT);
      && 1 <= c < |g.tvals|
      && g.tvals[c - 1] < kT <= g.tvals[c]
      && SpectrumInit(g, kT, velocity)
         == Ok(Init(kT, (kT - g.tvals[c - 1]) / (g.tvals[c] - g.tvals[c - 1]), c - 1, velocity * 1.0e5))
      && 0.0 < (kT - g.tvals[c - 1]) / (g.tvals[c] - g.tvals[c - 1]) <= 1.0
      && (kT == g.tvals[c] ==> (kT - g.tvals[c - 1]) / (g.tvals[c] - g.tvals[c - 1]) == 1.0)
  {
    assert NonDecreasing(g.tvals);
    CountBelowSplits(g.tvals, kT);
    var c := CountBelow(g.tvals, kT);
    assert 1 <= c < |g.tvals|;
    assert g.dtvals[c - 1] == g.tvals[c] - g.tvals[c - 1];
    UnitFraction(kT, g.tvals[c - 1], g.tvals[c]);
  }

  // ---------------------------------------------------------------------------
  // get_spectrum and get_nei_spectrum

  /** Linear interpolation between two table spectra, dT of the way up. */
  function Blend(lo: seq<real>, hi: seq<real>, dT: real): (r: seq<real>)
    requires |lo| == |hi|
    ensures |r| == |lo|
  {
    Plus(Scale(1.0 - dT, lo), Scale(dT, hi))
  }

  /** A weighted mean of a <= b lies between them. */
  lemma LerpBetween(a: real, b: real, t: real)
    requires a <= b && 0.0 <= t <= 1.0
    ensures a <= (1.0 - t) * a + t * b <= b
  {
    var p, q, d := (1.0 - t) * a, t * b, b - a;
    FractionOf(t, d);
    assert t * d == q - t * a;
    assert p == a - t * a;
    assert a <= p + q <= b;
  }

  /** Each bin of the blend lies between the two table values, and the
      blend is the lower spectrum at dT = 0 and the upper one at dT = 1. */
  lemma BlendBetween(lo: seq<real>, hi: seq<real>, dT: real)
    requires |lo| == |hi| && 0.0 <= dT <= 1.0
    ensures forall i :: 0 <= i < |lo| && lo[i] <= hi[i] ==> lo[i] <= Blend(lo, hi, dT)[i] <= hi[i]
    ensures forall i :: 0 <= i < |lo| && hi[i] <= lo[i] ==> hi[i] <= Blend(lo, hi, dT)[i] <= lo[i]
    ensures dT == 0.0 ==> Blend(lo, hi, dT) == lo
    ensures dT == 1.0 ==> Blend(lo, hi, dT) == hi
  {
    var r := Blend(lo, hi, dT);
    forall i | 0 <= i < |lo| && lo[i] <= hi[i] ensures lo[i] <= r[i] <= hi[i] {
      BlendAt(lo, hi, dT, i);
      LerpBetween(lo[i], hi[i], dT);
    }
    forall i | 0 <= i < |lo| && hi[i] <= lo[i] ensures hi[i] <= r[i] <= lo[i] {
      BlendAt(lo, hi, dT, i);
      var s := 1.0 - dT;
      LerpBetween(hi[i], lo[i], s);
      assert (1.0 - s) * hi[i] + s * lo[i] == r[i];
    }
  }

  lemma BlendAt(lo: seq<real>, hi: seq<real>, dT: real, i: nat)
    requires |lo| == |hi| && i < |lo|
    ensures Blend(lo, hi, dT)[i] == (1.0 - dT) * lo[i] + dT * hi[i]
  {
  }

  /** Where the spectrum is read: table index t, the fraction dT towards
      t + 1, the velocity in cm/s and the redshift. */
  datatype Point = Point(tindex: nat, dT: real, velocity: real, redshift: real)

  ghost predicate PointOk(g: Generator, pt: Point)
  {
    pt.tindex + 1 < |g.tvals| && -1.0 < pt.redshift
  }

  /** A group's spectrum interpolated between the two bracketing tables. */
  function GroupBlend(g: Generator, phys: Physics, tables: seq<TableData>, pt: Point, pairs: seq<(nat, int)>): (r: seq<real>)
    requires Ready(g, phys) && PhysicsValid(phys) && TablesOk(g, tables) && PointOk(g, pt)
    requires AllUsable(g, phys, pairs)
    ensures |r| == |g.ebins| - 1
  {
    Blend(TableRow(g, phys, tables, pt.tindex, pt.velocity, pt.redshift, pairs),
          TableRow(g, phys, tables, pt.tindex + 1, pt.velocity, pt.redshift, pairs), pt.dT)
  }

  /** The j-th varied spectrum interpolated between the bracketing tables. */
  function VarBlend(g: Generator, phys: Physics, tables: seq<TableData>, pt: Point, j: nat): (r: seq<real>)
    requires Ready(g, phys) && PhysicsValid(phys) && TablesOk(g, tables) && PointOk(g, pt)
    requires j < |g.varElem|
    ensures |r| == |g.ebins| - 1
  {
    Blend(VarSpectrum(g, phys, tables, pt.tindex, pt.velocity, pt.redshift, j),
          VarSpectrum(g, phys, tables, pt.tindex + 1, pt.velocity, pt.redshift, j), pt.dT)
  }

  /** Every key of the abundance dictionary names a varied element (ion). */
  ghost predicate KeysNamed(items: seq<(string, real)>, names: seq<string>)
  {
    forall k :: 0 <= k < |items| ==> items[k].0 in names
  }

  /** A dictionary whose keys are all names needs a name: with nothing
      varied it is empty. */
  lemma NoNamesNoKeys(items: seq<(string, real)>, names: seq<string>)
    requires KeysNamed(items, names)
    ensures |items| > 0 ==> |names| > 0
  {
    if |items| > 0 {
      assert items[0].0 in names;
    }
  }

  /** `spec += eabund * (interpolated vspec[j])` for each dictionary item in
      turn, j the first position of the item's name. */
  function AddFree(g: Generator, phys: Physics, tables: seq<TableData>, pt: Point, names: seq<string>,
                   items: seq<(string, real)>, base: seq<real>): (r: seq<real>)
    requires Ready(g, phys) && PhysicsValid(phys) && TablesOk(g, tables) && PointOk(g, pt)
    requires |names| == |g.varElem| && KeysNamed(items, names) && |base| == |g.ebins| - 1
    ensures |r| == |base|
  {
    if |items| == 0 then base
    else
      var m := |items|;
      var j := IndexOf(names, items[m - 1].0).value;
      Plus(AddFree(g, phys, tables, pt, names, items[..m - 1], base), Scale(items[m - 1].1, VarBlend(g, phys, tables, pt, j)))
  }

  /** The CIE sum: cosmic + abund * metal + the varied elements. */
  function CieSpectrum(g: Generator, phys: Physics, tables: seq<TableData>, pt: Point, abund: real,
                       items: seq<(string, real)>): (r: seq<real>)
    requires Ready(g, phys) && PhysicsValid(phys) && TablesOk(g, tables) && PointOk(g, pt)
    requires KeysNamed(items, g.varElemNames)
    ensures |r| == |g.ebins| - 1
  {
    GroupsUsable(g, phys);
    AddFree(g, phys, tables, pt, g.varElemNames, items,
            Plus(GroupBlend(g, phys, tables, pt, CosmicPairs(g)), Scale(abund, GroupBlend(g, phys, tables, pt, MetalPairs(g)))))
  }

  /** The NEI sum: H and He + the varied ions. */
  function NeiSpectrum(g: Generator, phys: Physics, tables: seq<TableData>, pt: Point,
                       items: seq<(string, real)>): (r: seq<real>)
    requires Ready(g, phys) && PhysicsValid(phys) && TablesOk(g, tables) && PointOk(g, pt)
    requires KeysNamed(items, g.varIonNames)
    ensures |r| == |g.ebins| - 1
  {
    GroupsUsable(g, phys);
    AddFree(g, phys, tables, pt, g.varIonNames, items, GroupBlend(g, phys, tables, pt, CosmicPairs(g)))
  }

  /** 1e14 * norm * spec / de, bin by bin. */
  function Normalized(g: Generator, norm: real, spec: seq<real>): (flux: seq<real>)
    requires |g.ebins| >= 2 && StrictlyIncreasing(g.ebins) && g.de == Diff(g.ebins) && g.emid == Midpoints(g.ebins)
    requires |spec| == |g.de|
    ensures |flux| == |spec|
  {
    PositiveSteps(g);
    seq(|spec|, k requires 0 <= k < |spec| => 1.0e14 * norm * spec[k] / g.de[k])
  }

  /** What the two methods return: np.zeros(nbins) outside the table, or a
      Spectrum on the generator's edges. */
  datatype ApecOutput = ZeroArray(values: seq<real>) | SpectrumOf(ebins: seq<real>, flux: seq<real>)

  /** set(elem_abund.keys()) == set(names): every key is a name and every
      name is a key. */
  predicate KeysMatch(items: seq<(string, real)>, names: seq<string>)
  {
    && (forall k :: 0 <= k < |items| ==> items[k].0 in names)
    && (forall m :: 0 <= m < |names| ==> exists k :: 0 <= k < |items| && items[k].0 == names[m])
  }

  /** The output for a temperature that passed _spectrum_init. */
  function CieOutput(g: Generator, phys: Physics, tables: seq<TableData>, init: Init, abund: real, redshift: real,
                     norm: real, items: seq<(string, real)>): ApecOutput
    requires Ready(g, phys) && PhysicsValid(phys) && TablesOk(g, tables) && -1.0 < redshift
    requires KeysNamed(items, g.varElemNames)
  {
    if init.tindex >= |g.tvals| - 1 || init.tindex < 0 then ZeroArray(Zeros(|g.ebins| - 1))
    else
      var pt := Point(init.tindex, init.dT, init.v, redshift);
      SpectrumOf(g.ebins, Normalized(g, norm, CieSpectrum(g, phys, tables, pt, abund, items)))
  }

  function NeiOutput(g: Generator, phys: Physics, tables: seq<TableData>, init: Init, redshift: real,
                     norm: real, items: seq<(string, real)>): ApecOutput
    requires Ready(g, phys) && PhysicsValid(phys) && TablesOk(g, tables) && -1.0 < redshift
    requires KeysNamed(items, g.varIonNames)
  {
    if init.tindex >= |g.tvals| - 1 || init.tindex < 0 then ZeroArray(Zeros(|g.ebins| - 1))
    else
      var pt := Point(init.tindex, init.dT, init.v, redshift);
      SpectrumOf(g.ebins, Normalized(g, norm, NeiSpectrum(g, phys, tables, pt, items)))
  }

  /** Blending the two columns read from the table gives the varied blend. */
  lemma VarTableBlend(g: Generator, phys: Physics, tables: seq<TableData>, pt: Point, vspec: seq<seq<seq<real>>>, j: nat)
    requires Ready(g, phys) && PhysicsValid(phys) && TablesOk(g, tables) && PointOk(g, pt)
    requires VarTable(g, phys, tables, [pt.tindex, pt.tindex + 1], pt.redshift, pt.velocity, vspec)
    requires j < |g.varElem|
    ensures |vspec[j]| == 2 && |vspec[j][0]| == |vspec[j][1]| == |g.ebins| - 1
    ensures Blend(vspec[j][0], vspec[j][1], pt.dT) == VarBlend(g, phys, tables, pt, j)
  {
    var idx := [pt.tindex, pt.tindex + 1];
    assert idx[0] == pt.tindex && idx[1] == pt.tindex + 1;
    assert |vspec| == |g.varElem|;
    assert |vspec[j]| == 2;
    assert vspec[j][0] == VarSpectrum(g, phys, tables, pt.tindex, pt.velocity, pt.redshift, j);
    assert vspec[j][1] == VarSpectrum(g, phys, tables, pt.tindex + 1, pt.velocity, pt.redshift, j);
  }

  /** One more dictionary item adds its scaled blend to the running sum. */
  lemma AddFreeStep(g: Generator, phys: Physics, tables: seq<TableData>, pt: Point, names: seq<string>,
                    items: seq<(string, real)>, base: seq<real>, k: nat)
    requires Ready(g, phys) && PhysicsValid(phys) && TablesOk(g, tables) && PointOk(g, pt)
    requires |names| == |g.varElem| && KeysNamed(items, names) && |base| == |g.ebins| - 1
    requires k < |items|
    ensures items[k].0 in names && IndexOf(names, items[k].0).Some?
    ensures AddFree(g, phys, tables, pt, names, items[..k + 1], base)
         == Plus(AddFree(g, phys, tables, pt, names, items[..k], base),
                 Scale(items[k].1, VarBlend(g, phys, tables, pt, IndexOf(names, items[k].0).value)))
  {
    assert items[..k + 1][..k] == items[..k];
  }

  /** The loop over the abundance dictionary shared by get_spectrum and
      get_nei_spectrum, reading the varied spectra from the two-column table. */
  method AddFreeTerms(g: Generator, phys: Physics, tables: seq<TableData>, pt: Point, names: seq<string>,
                      items: seq<(string, real)>, base: seq<real>, vspec: seq<seq<seq<real>>>)
    returns (spec: seq<real>)
    requires Ready(g, phys) && PhysicsValid(phys) && TablesOk(g, tables) && PointOk(g, pt)
    requires |names| == |g.varElem| && KeysNamed(items, names) && |base| == |g.ebins| - 1
    requires VarTable(g, phys, tables, [pt.tindex, pt.tindex + 1], pt.redshift, pt.velocity, vspec)
    ensures spec == AddFree(g, phys, tables, pt, names, items, base)
  {
    spec := base;
    var k := 0;
    while k < |items|
      invariant 0 <= k <= |items|
      invariant spec == AddFree(g, phys, tables, pt, names, items[..k], base)
    {
      AddFreeStep(g, phys, tables, pt, names, items, base, k);
      var j := IndexOf(names, items[k].0).value;
      VarTableBlend(g, phys, tables, pt, vspec, j);
      spec := Plus(spec, Scale(items[k].1, Blend(vspec[j][0], vspec[j][1], pt.dT)));
      k := k + 1;
    }
    assert items[..|items|] == items;
  }

  /** Blending the two rows _get_table returns for a group at tindex and
      tindex + 1 gives the group's blend at the point. */
  lemma RowsBlend(g: Generator, phys: Physics, tables: seq<TableData>, pt: Point, pairs: seq<(nat, int)>,
                  rows: seq<seq<real>>)
    requires Ready(g, phys) && PhysicsValid(phys) && TablesOk(g, tables) && PointOk(g, pt)
    requires AllUsable(g, phys, pairs)
    requires rows == GroupRows(g, phys, tables, [pt.tindex, pt.tindex + 1], pt.velocity, pt.redshift, pairs, 2)
    ensures |rows| == 2 && |rows[0]| == |rows[1]| == |g.ebins| - 1
    ensures Blend(rows[0], rows[1], pt.dT) == GroupBlend(g, phys, tables, pt, pairs)
  {
    var idx := [pt.tindex, pt.tindex + 1];
    GroupRowsAt(g, phys, tables, idx, pt.velocity, pt.redshift, pairs, 2, 0);
    GroupRowsAt(g, phys, tables, idx, pt.velocity, pt.redshift, pairs, 2, 1);
    GroupBlendOfRows(g, phys, tables, pt, pairs);
  }

  lemma GroupBlendOfRows(g: Generator, phys: Physics, tables: seq<TableData>, pt: Point, pairs: seq<(nat, int)>)
    requires Ready(g, phys) && PhysicsValid(phys) && TablesOk(g, tables) && PointOk(g, pt)
    requires AllUsable(g, phys, pairs)
    ensures GroupBlend(g, phys, tables, pt, pairs)
         == Blend(TableRow(g, phys, tables, pt.tindex, pt.velocity, pt.redshift, pairs),
                  TableRow(g, phys, tables, pt.tindex + 1, pt.velocity, pt.redshift, pairs), pt.dT)
  {
    var lo := TableRow(g, phys, tables, pt.tindex, pt.velocity, pt.redshift, pairs);
    var hi := TableRow(g, phys, tables, pt.tindex + 1, pt.velocity, pt.redshift, pairs);
    assert GroupBlend(g, phys, tables, pt, pairs) == Blend(lo, hi, pt.dT);
  }

  /** CieSpectrum is the varied elements added onto cosmic + abund * metal. */
  lemma CieSpectrumUnfolds(g: Generator, phys: Physics, tables: seq<TableData>, pt: Point, abund: real,
                           items: seq<(string, real)>)
    requires Ready(g, phys) && PhysicsValid(phys) && TablesOk(g, tables) && PointOk(g, pt)
    requires KeysNamed(items, g.varElemNames)
    ensures AllUsable(g, phys, CosmicPairs(g)) && AllUsable(g, phys, MetalPairs(g))
    ensures CieSpectrum(g, phys, tables, pt, abund, items)
         == AddFree(g, phys, tables, pt, g.varElemNames, items,
                    Plus(GroupBlend(g, phys, tables, pt, CosmicPairs(g)), Scale(abund, GroupBlend(g, phys, tables, pt, MetalPairs(g)))))
  {
    GroupsUsable(g, phys);
  }

  /** NeiSpectrum is the varied ions added onto the H and He blend. */
  lemma NeiSpectrumUnfolds(g: Generator, phys: Physics, tables: seq<TableData>, pt: Point, items: seq<(string, real)>)
    requires Ready(g, phys) && PhysicsValid(phys) && TablesOk(g, tables) && PointOk(g, pt)
    requires KeysNamed(items, g.varIonNames)
    ensures AllUsable(g, phys, CosmicPairs(g))
    ensures NeiSpectrum(g, phys, tables, pt, items)
         == AddFree(g, phys, tables, pt, g.varIonNames, items, GroupBlend(g, phys, tables, pt, CosmicPairs(g)))
  {
    GroupsUsable(g, phys);
  }

  /** The body of get_spectrum at a bracketed temperature: the two-column
      table read at tindex and tindex + 1, the groups blended and summed,
      then the varied elements added. */
  method CieAt(g: Generator, phys: Physics, tables: seq<TableData>, pt: Point, abund: real, items: seq<(string, real)>)
    returns (spec: seq<real>)
    requires Ready(g, phys) && PhysicsValid(phys) && TablesOk(g, tables) && PointOk(g, pt)
    requires KeysNamed(items, g.varElemNames)
    ensures spec == CieSpectrum(g, phys, tables, pt, abund, items)
  {
    var cspec, mspec, vspec := GetTable(g, phys, tables, [pt.tindex, pt.tindex + 1], pt.redshift, pt.velocity);
    GroupsUsable(g, phys);
    RowsBlend(g, phys, tables, pt, CosmicPairs(g), cspec);
    RowsBlend(g, phys, tables, pt, MetalPairs(g), mspec);
    var base := Plus(Blend(cspec[0], cspec[1], pt.dT), Scale(abund, Blend(mspec[0], mspec[1], pt.dT)));
    spec := base;
    if vspec.Some? {
      spec := AddFreeTerms(g, phys, tables, pt, g.varElemNames, items, base, vspec.value);
    } else {
      NoNamesNoKeys(items, g.varElemNames);
    }
    CieSpectrumUnfolds(g, phys, tables, pt, abund, items);
  }

  /** The body of get_nei_spectrum at a bracketed temperature: H and He
      blended, then the varied ions added. */
  method NeiAt(g: Generator, phys: Physics, tables: seq<TableData>, pt: Point, items: seq<(string, real)>)
    returns (spec: seq<real>)
    requires Ready(g, phys) && PhysicsValid(phys) && TablesOk(g, tables) && PointOk(g, pt)
    requires KeysNamed(items, g.varIonNames)
    ensures spec == NeiSpectrum(g, phys, tables, pt, items)
  {
    var cspec, _, vspec := GetTable(g, phys, tables, [pt.tindex, pt.tindex + 1], pt.redshift, pt.velocity);
    GroupsUsable(g, phys);
    RowsBlend(g, phys, tables, pt, CosmicPairs(g), cspec);
    var base := Blend(cspec[0], cspec[1], pt.dT);
    spec := base;
    if vspec.Some? {
      spec := AddFreeTerms(g, phys, tables, pt, g.varIonNames, items, base, vspec.value);
    } else {
      NoNamesNoKeys(items, g.varIonNames);
    }
    NeiSpectrumUnfolds(g, phys, tables, pt, items);
  }

  /** get_spectrum: refused for an NEI generator and for abundances that do
      not name exactly the varied elements; IndexError from _spectrum_init;
      zeros outside the table; otherwise the CIE spectrum at kT. */
  method GetSpectrum(g: Generator, phys: Physics, tables: seq<TableData>, kT: real, abund: real, redshift: real,
                     norm: real, velocity: real, elemAbund: Option<seq<(string, real)>>)
    returns (r: Result<ApecOutput, ApecError>)
    requires Ready(g, phys) && PhysicsValid(phys) && TablesOk(g, tables) && -1.0 < redshift
    ensures g.nei ==> r == Err(WrongMode)
    ensures var items := if elemAbund.Some? then elemAbund.value else [];
      !g.nei && !KeysMatch(items, g.varElemNames) ==> r == Err(AbundanceKeysMismatch)
    ensures var items := if elemAbund.Some? then elemAbund.value else [];
      !g.nei && KeysMatch(items, g.varElemNames) ==>
        (match SpectrumInit(g, kT, velocity)
         case Err(e) => r == Err(e)
         case Ok(init) => r == Ok(CieOutput(g, phys, tables, init, abund, redshift, norm, items)))
  {
    if g.nei {
      return Err(WrongMode);
    }
    var items := if elemAbund.Some? then elemAbund.value else [];
    if !KeysMatch(items, g.varElemNames) {
      return Err(AbundanceKeysMismatch);
    }
    var init := SpectrumInit(g, kT, velocity);
    if init.Err? {
      return Err(init.error);
    }
    var t := init.value.tindex;
    var dT := init.value.dT;
    if t >= |g.tvals| - 1 || t < 0 {
      return Ok(ZeroArray(Zeros(|g.ebins| - 1)));
    }
    var pt := Point(t, dT, init.value.v, redshift);
    var spec := CieAt(g, phys, tables, pt, abund, items);
    return Ok(SpectrumOf(g.ebins, Normalized(g, norm, spec)));
  }

  /** get_nei_spectrum: refused for a CIE generator and for abundances that
      do not name exactly the varied ions; IndexError from _spectrum_init;
      zeros outside the table; otherwise the NEI spectrum at kT. */
  method GetNeiSpectrum(g: Generator, phys: Physics, tables: seq<TableData>, kT: real, items: seq<(string, real)>,
                        redshift: real, norm: real, velocity: real)
    returns (r: Result<ApecOutput, ApecError>)
    requires Ready(g, phys) && PhysicsValid(phys) && TablesOk(g, tables) && -1.0 < redshift
    ensures !g.nei ==> r == Err(WrongMode)
    ensures g.nei && !KeysMatch(items, g.varIonNames) ==> r == Err(AbundanceKeysMismatch)
    ensures g.nei && KeysMatch(items, g.varIonNames) ==>
      (match SpectrumInit(g, kT, velocity)
       case Err(e) => r == Err(e)
       case Ok(init) => r == Ok(NeiOutput(g, phys, tables, init, redshift, norm, items)))
  {
    if !g.nei {
      return Err(WrongMode);
    }
    if !KeysMatch(items, g.varIonNames) {
      return Err(AbundanceKeysMismatch);
    }
    var init := SpectrumInit(g, kT, velocity);
    if init.Err? {
      return Err(init.error);
    }
    var t := init.value.tindex;
    var dT := init.value.dT;
    if t >= |g.tvals| - 1 || t < 0 {
      return Ok(ZeroArray(Zeros(|g.ebins| - 1)));
    }
    var pt := Point(t, dT, init.value.v, redshift);
    var spec := NeiAt(g, phys, tables, pt, items);
    return Ok(SpectrumOf(g.ebins, Normalized(g, norm, spec)));
  }

  /** What get_spectrum returns for a temperature _spectrum_init accepts:
      zeros at or below the first tabulated temperature, and inside the
      table the CIE spectrum blended between the bracketing temperatures
      with a weight dT in (0, 1]. */
  lemma CieOutputByTemperature(g: Generator, phys: Physics, tables: seq<TableData>, kT: real, velocity: real,
                               abund: real, redshift: real, norm: real, items: seq<(string, real)>)
    requires Ready(g, phys) && PhysicsValid(phys) && TablesOk(g, tables) && -1.0 < redshift
    requires KeysNamed(items, g.varElemNames)
    ensures |g.tvals| >= 2 && kT <= g.tvals[0] ==>
      && SpectrumInit(g, kT, velocity).Ok?
      && CieOutput(g, phys, tables, SpectrumInit(g, kT, velocity).value, abund, redshift, norm, items)
         == ZeroArray(Zeros(|g.ebins| - 1))
    ensures g.tvals[0] < kT <= g.tvals[|g.tvals| - 1] ==>
      && SpectrumInit(g, kT, velocity).Ok?
      && var init := SpectrumInit(g, kT, velocity).value;
      && 0 <= init.tindex && g.tvals[init.tindex] < kT <= g.tvals[init.tindex + 1] && 0.0 < init.dT <= 1.0
      && var pt := Point(init.tindex, init.dT, init.v, redshift);
      && PointOk(g, pt)
      && CieOutput(g, phys, tables, init, abund, redshift, norm, items)
         == SpectrumOf(g.ebins, Normalized(g, norm, CieSpectrum(g, phys, tables, pt, abund, items)))
  {
    TemperatureBracket(g, kT, velocity);
  }

  /** The same for get_nei_spectrum. */
  lemma NeiOutputByTemperature(g: Generator, phys: Physics, tables: seq<TableData>, kT: real, velocity: real,
                               redshift: real, norm: real, items: seq<(string, real)>)
    requires Ready(g, phys) && PhysicsValid(phys) && TablesOk(g, tables) && -1.0 < redshift
    requires KeysNamed(items, g.varIonNames)
    ensures |g.tvals| >= 2 && kT <= g.tvals[0] ==>
      && SpectrumInit(g, kT, velocity).Ok?
      && NeiOutput(g, phys, tables, SpectrumInit(g, kT, velocity).value, redshift, norm, items)
         == ZeroArray(Zeros(|g.ebins| - 1))
    ensures g.tvals[0] < kT <= g.tvals[|g.tvals| - 1] ==>
      && SpectrumInit(g, kT, velocity).Ok?
      && var init := SpectrumInit(g, kT, velocity).value;
      && 0 <= init.tindex && g.tvals[init.tindex] < kT <= g.tvals[init.tindex + 1] && 0.0 < init.dT <= 1.0
      && var pt := Point(init.tindex, init.dT, init.v, redshift);
      && PointOk(g, pt)
      && NeiOutput(g, phys, tables, init, redshift, norm, items)
         == SpectrumOf(g.ebins, Normalized(g, norm, NeiSpectrum(g, phys, tables, pt, items)))
  {
    TemperatureBracket(g, kT, velocity);
  }
}
