/** The Morrison & McCammon photoelectric cross-section behind "wabs"
    absorption (wabs_cross_section and get_wabs_absorb,
    soxs/spectra.py:941-957): a quadratic in E divided by E^3 on fourteen
    energy segments, the segment found by np.searchsorted over the segment
    upper edges and clamped to the last one. */
module Absorption {
  import opened Numerics

  /** Segment upper edges in keV; segment k is (WABS_EMAX[k], WABS_EMAX[k+1]]. */
  const WABS_EMAX: seq<real> := [0.0, 0.1, 0.284, 0.4, 0.532, 0.707, 0.867, 1.303, 1.840,
                                 2.471, 3.210, 4.038, 7.111, 8.331, 10.0]
  const WABS_C0: seq<real> := [17.3, 34.6, 78.1, 71.4, 95.5, 308.9, 120.6, 141.3,
                               202.7, 342.7, 352.2, 433.9, 629.0, 701.2]
  const WABS_C1: seq<real> := [608.1, 267.9, 18.8, 66.8, 145.8, -380.6, 169.3,
                               146.8, 104.7, 18.7, 18.7, -2.4, 30.9, 25.2]
  const WABS_C2: seq<real> := [-2150.0, -476.1, 4.3, -51.4, -61.1, 294.0, -47.7,
                               -31.5, -17.0, 0.0, 0.0, 0.75, 0.0, 0.0]

  /** np.minimum(np.searchsorted(emax, E) - 1, 13): -1 for E <= 0. */
  function WabsSegment(e: real): (k: int)
    ensures -1 <= k <= 13
  {
    var n := CountBelow(WABS_EMAX, e) - 1;
    if n < 13 then n else 13
  }

  /** The coefficient set actually read: Python reads index -1 as the last
      set, so E <= 0 falls on set 13. */
  function WabsSet(e: real): (k: nat)
    ensures k < 14
  {
    PyIndex(14, WabsSegment(e))
  }

  /** (c0 + c1*E + c2*E^2) * 1e-24 / E^3 in cm^2. */
  function WabsCrossSection(e: real): real
    requires e != 0.0
  {
    var k := WabsSet(e);
    (WABS_C0[k] + WABS_C1[k] * e + WABS_C2[k] * e * e) * 1.0e-24 / (e * e * e)
  }

  /** get_wabs_absorb: the surviving fraction exp(-nH * 1e22 * sigma(E)),
      with exp supplied by the caller. */
  function WabsAbsorb(exp: real -> real, e: real, nH: real): real
    requires e != 0.0
  {
    exp(-nH * 1.0e22 * WabsCrossSection(e))
  }

  lemma WabsEdgesIncrease()
    ensures StrictlyIncreasing(WABS_EMAX)
  {
  }

  /** A positive energy up to 8.331 keV reads the coefficient set of the
      segment (WABS_EMAX[k], WABS_EMAX[k+1]] that contains it; any energy above
      8.331 keV, 10 keV and beyond included, reads set 13; and a non-positive
      energy wraps around to set 13 as well. */
  lemma WabsSetBrackets(e: real)
    ensures 0.0 < e <= 8.331 ==> WabsSet(e) <= 12 && WABS_EMAX[WabsSet(e)] < e <= WABS_EMAX[WabsSet(e) + 1]
    ensures 8.331 < e ==> WabsSet(e) == 13
    ensures e <= 0.0 ==> WabsSet(e) == 13
  {
    WabsEdgesIncrease();
    CountBelowSplits(WABS_EMAX, e);
    var n := CountBelow(WABS_EMAX, e);
    if 0.0 < e {
      assert WABS_EMAX[0] < e;
      assert 1 <= n;
    } else {
      assert n == 0;
    }
    if e <= 8.331 {
      assert e <= WABS_EMAX[13];
      assert n <= 13;
    } else {
      assert WABS_EMAX[13] < e;
      assert 14 <= n;
    }
  }

  /** Above 8.331 keV, and for every negative energy through the wrap-around,
      the cross-section is the last segment's (701.2 + 25.2*E)*1e-24/E^3. */
  lemma WabsLastSegment(e: real)
    requires 8.331 < e || e < 0.0
    ensures WabsCrossSection(e) == (701.2 + 25.2 * e) * 1.0e-24 / (e * e * e)
  {
    WabsSetBrackets(e);
  }

  /** The same segment choice written out as the table of breakpoints it
      encodes, as an independent reference. */
  function WabsSetByBreakpoints(e: real): nat
  {
    if e <= 0.0 then 13
    else if e <= 0.1 then 0
    else if e <= 0.284 then 1
    else if e <= 0.4 then 2
    else if e <= 0.532 then 3
    else if e <= 0.707 then 4
    else if e <= 0.867 then 5
    else if e <= 1.303 then 6
    else if e <= 1.840 then 7
    else if e <= 2.471 then 8
    else if e <= 3.210 then 9
    else if e <= 4.038 then 10
    else if e <= 7.111 then 11
    else if e <= 8.331 then 12
    else 13
  }

  lemma WabsSetMatchesBreakpoints(e: real)
    ensures WabsSet(e) == WabsSetByBreakpoints(e)
  {
    WabsSetBrackets(e);
    WabsEdgesIncrease();
  }
}
