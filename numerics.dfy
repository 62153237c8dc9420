/** The array arithmetic the spectral code borrows from numpy, stated over
    exact reals: sums and cumulative sums, evenly spaced grids (linspace),
    the clamped piecewise-linear interpolation of np.interp, the counts behind
    np.searchsorted, Python's negative indexing, np.isclose, and what a
    floating-point division by zero and np.nan_to_num make of a value. */
module Numerics {

  // ---------------------------------------------------------------------------
  // Sums

  /** Sum of a sequence, folded from the left as np.cumsum accumulates. */
  function Sum(s: seq<real>): real
  {
    if |s| == 0 then 0.0 else Sum(s[..|s| - 1]) + s[|s| - 1]
  }

  lemma {:induction false} SumAppend(a: seq<real>, b: seq<real>)
    ensures Sum(a + b) == Sum(a) + Sum(b)
  {
    if |b| == 0 {
      assert a + b == a;
    } else {
      assert (a + b)[..|a + b| - 1] == a + b[..|b| - 1];
      SumAppend(a, b[..|b| - 1]);
    }
  }

  /** Every entry multiplied by the same factor. */
  function Scale(c: real, s: seq<real>): (r: seq<real>)
    ensures |r| == |s| && forall i :: 0 <= i < |s| ==> r[i] == c * s[i]
  {
    seq(|s|, i requires 0 <= i < |s| => c * s[i])
  }

  /** Entry-by-entry product of two sequences of one length. */
  function Times(s: seq<real>, t: seq<real>): (r: seq<real>)
    requires |s| == |t|
    ensures |r| == |s| && forall i :: 0 <= i < |s| ==> r[i] == s[i] * t[i]
  {
    seq(|s|, i requires 0 <= i < |s| => s[i] * t[i])
  }

  /** Entry-by-entry sum of two sequences of one length. */
  function Plus(s: seq<real>, t: seq<real>): (r: seq<real>)
    requires |s| == |t|
    ensures |r| == |s| && forall i :: 0 <= i < |s| ==> r[i] == s[i] + t[i]
  {
    seq(|s|, i requires 0 <= i < |s| => s[i] + t[i])
  }

  function Zeros(n: nat): (r: seq<real>)
    ensures |r| == n && forall i :: 0 <= i < n ==> r[i] == 0.0
  {
    seq(n, i => 0.0)
  }

  /** Scaling every entry scales the sum. */
  lemma {:induction false} SumScale(c: real, s: seq<real>)
    ensures Sum(Scale(c, s)) == c * Sum(s)
  {
    if |s| > 0 {
      var t := Scale(c, s);
      var front := Scale(c, s[..|s| - 1]);
      assert forall i :: 0 <= i < |s| - 1 ==> front[i] == t[i];
      assert t[..|s| - 1] == front;
      SumScale(c, s[..|s| - 1]);
      assert Sum(t) == c * Sum(s[..|s| - 1]) + c * s[|s| - 1];
    }
  }

  /** The sum of an entry-by-entry sum is the sum of the sums. */
  lemma {:induction false} SumPlus(s: seq<real>, t: seq<real>)
    requires |s| == |t|
    ensures Sum(Plus(s, t)) == Sum(s) + Sum(t)
  {
    if |s| > 0 {
      assert Plus(s, t)[..|s| - 1] == Plus(s[..|s| - 1], t[..|t| - 1]);
      SumPlus(s[..|s| - 1], t[..|t| - 1]);
    }
  }

  lemma {:induction false} SumZeros(n: nat)
    ensures Sum(Zeros(n)) == 0.0
  {
    if n > 0 {
      assert Zeros(n)[..n - 1] == Zeros(n - 1);
      SumZeros(n - 1);
    }
  }

  lemma {:induction false} SumNonNegative(s: seq<real>)
    requires forall i :: 0 <= i < |s| ==> 0.0 <= s[i]
    ensures 0.0 <= Sum(s)
  {
    if |s| > 0 {
      SumNonNegative(s[..|s| - 1]);
    }
  }

  /** The running sums of a sequence with a leading zero: np.cumsum of the
      sequence with 0.0 inserted in front (np.insert(cumsum, 0, 0.0)). */
  function PrefixSums(s: seq<real>): (r: seq<real>)
    ensures |r| == |s| + 1
    ensures forall k :: 0 <= k <= |s| ==> r[k] == Sum(s[..k])
  {
    if |s| == 0 then [0.0]
    else
      var front := PrefixSums(s[..|s| - 1]);
      assert forall k :: 0 <= k < |s| ==> s[..|s| - 1][..k] == s[..k];
      assert s[..|s|] == s;
      front + [Sum(s)]
  }

  /** Running sums of non-negative entries never decrease. */
  lemma {:induction false} PrefixSumsMonotone(s: seq<real>, i: nat, j: nat)
    requires forall k :: 0 <= k < |s| ==> 0.0 <= s[k]
    requires i <= j <= |s|
    ensures Sum(s[..i]) <= Sum(s[..j])
  {
    if i < j {
      PrefixSumsMonotone(s, i, j - 1);
      assert s[..j][..j - 1] == s[..j - 1];
    }
  }

  // ---------------------------------------------------------------------------
  // Orderings, searches and Python indexing

  ghost predicate NonDecreasing(s: seq<real>)
  {
    forall i, j :: 0 <= i <= j < |s| ==> s[i] <= s[j]
  }

  ghost predicate StrictlyIncreasing(s: seq<real>)
  {
    forall i, j :: 0 <= i < j < |s| ==> s[i] < s[j]
  }

  /** Number of entries strictly below x: np.searchsorted(s, x) (side
      "left") on a sorted s. */
  function CountBelow(s: seq<real>, x: real): (n: nat)
    ensures n <= |s|
  {
    if |s| == 0 then 0
    else CountBelow(s[..|s| - 1], x) + (if s[|s| - 1] < x then 1 else 0)
  }

  /** Number of entries at most x: np.searchsorted(s, x, side="right") on a
      sorted s. */
  function CountAtMost(s: seq<real>, x: real): (n: nat)
    ensures n <= |s|
  {
    if |s| == 0 then 0
    else CountAtMost(s[..|s| - 1], x) + (if s[|s| - 1] <= x then 1 else 0)
  }

  /** On a sorted sequence the entries below x are exactly a prefix, and
      CountBelow is its length. */
  lemma {:induction false} CountBelowSplits(s: seq<real>, x: real)
    requires NonDecreasing(s)
    ensures forall i :: 0 <= i < CountBelow(s, x) ==> s[i] < x
    ensures forall i :: CountBelow(s, x) <= i < |s| ==> x <= s[i]
  {
    if |s| > 0 {
      CountBelowSplits(s[..|s| - 1], x);
    }
  }

  /** On a sorted sequence the entries at most x are exactly a prefix, and
      CountAtMost is its length. */
  lemma {:induction false} CountAtMostSplits(s: seq<real>, x: real)
    requires NonDecreasing(s)
    ensures forall i :: 0 <= i < CountAtMost(s, x) ==> s[i] <= x
    ensures forall i :: CountAtMost(s, x) <= i < |s| ==> x < s[i]
  {
    if |s| > 0 {
      CountAtMostSplits(s[..|s| - 1], x);
    }
  }

  /** A prefix boundary determines the count. */
  lemma {:induction false} CountAtMostIs(s: seq<real>, x: real, k: nat)
    requires k <= |s|
    requires forall i :: 0 <= i < k ==> s[i] <= x
    requires forall i :: k <= i < |s| ==> x < s[i]
    ensures CountAtMost(s, x) == k
  {
    if |s| > 0 {
      var m := |s| - 1;
      if s[m] <= x {
        assert k == |s|;
        CountAtMostIs(s[..m], x, m);
      } else {
        assert k <= m;
        CountAtMostIs(s[..m], x, k);
      }
    }
  }

  lemma {:induction false} CountBelowIs(s: seq<real>, x: real, k: nat)
    requires k <= |s|
    requires forall i :: 0 <= i < k ==> s[i] < x
    requires forall i :: k <= i < |s| ==> x <= s[i]
    ensures CountBelow(s, x) == k
  {
    if |s| > 0 {
      var m := |s| - 1;
      if s[m] < x {
        assert k == |s|;
        CountBelowIs(s[..m], x, m);
      } else {
        assert k <= m;
        CountBelowIs(s[..m], x, k);
      }
    }
  }

  /** Python's reading of an index into a list of length n: a negative index
      counts from the end; it is valid when -n <= i < n. */
  predicate ValidPyIndex(n: nat, i: int)
  {
    -(n as int) <= i < n
  }

  function PyIndex(n: nat, i: int): (k: nat)
    requires ValidPyIndex(n, i)
    ensures k < n && (0 <= i ==> k == i) && (i < 0 ==> k == n + i)
  {
    if i < 0 then n + i else i
  }

  // ---------------------------------------------------------------------------
  // Evenly spaced grids

  /** np.linspace(lo, hi, num) with its end point: num values, the first lo,
      then steps of (hi - lo)/(num - 1), the last hi (computed here without
      rounding). */
  function Linspace(lo: real, hi: real, num: nat): (r: seq<real>)
    ensures |r| == num
  {
    if num == 1 then [lo]
    else
      var step := (hi - lo) / ((num - 1) as real);
      seq(num, i requires 0 <= i < num => lo + (i as real) * step)
  }

  lemma LinspaceEnds(lo: real, hi: real, num: nat)
    requires num >= 2
    ensures Linspace(lo, hi, num)[0] == lo
    ensures Linspace(lo, hi, num)[num - 1] == hi
  {
    var d := (num - 1) as real;
    assert d * ((hi - lo) / d) == hi - lo;
  }

  /** The i-th point of a grid of nbins equal bins, nbins + 1 edges. */
  lemma GridPoint(lo: real, hi: real, nbins: nat, i: nat)
    requires nbins >= 1 && i <= nbins
    ensures Linspace(lo, hi, nbins + 1)[i] == lo + (i as real) * ((hi - lo) / (nbins as real))
  {
    assert (nbins + 1) - 1 == nbins;
  }

  /** The centre of the i-th bin of a grid of nbins equal bins. */
  lemma GridMid(lo: real, hi: real, nbins: nat, i: nat)
    requires nbins >= 1 && i < nbins
    ensures var e := Linspace(lo, hi, nbins + 1);
      0.5 * (e[i + 1] + e[i]) == lo + ((i as real) + 0.5) * ((hi - lo) / (nbins as real))
  {
    var step := (hi - lo) / (nbins as real);
    var e := Linspace(lo, hi, nbins + 1);
    GridPoint(lo, hi, nbins, i);
    GridPoint(lo, hi, nbins, i + 1);
    assert e[i + 1] - e[i] == step by {
      assert ((i + 1) as real) * step == (i as real) * step + step;
    }
    MidOfSteps(lo, step, i as real, e[i], e[i + 1]);
  }

  /** The midpoint of the k-th and (k+1)-th points of an evenly spaced grid. */
  lemma MidOfSteps(lo: real, step: real, k: real, a: real, b: real)
    requires a == lo + k * step && b - a == step
    ensures 0.5 * (b + a) == lo + (k + 0.5) * step
  {
    assert (k + 0.5) * step == k * step + 0.5 * step;
  }

  lemma MulPositive(a: real, b: real)
    requires 0.0 < a && 0.0 < b
    ensures 0.0 < a * b
  {
  }

  lemma MulNonNegative(a: real, b: real)
    requires 0.0 <= a && 0.0 <= b
    ensures 0.0 <= a * b
  {
  }

  /** A non-negative multiple of a sum of three non-negative sequences is
      non-negative everywhere. */
  lemma ScaledSumNonNegative(c: real, a: seq<real>, b: seq<real>, d: seq<real>)
    requires 0.0 <= c && |a| == |b| == |d|
    requires forall i :: 0 <= i < |a| ==> 0.0 <= a[i] && 0.0 <= b[i] && 0.0 <= d[i]
    ensures forall i :: 0 <= i < |a| ==> 0.0 <= Scale(c, Plus(Plus(a, b), d))[i]
  {
    forall i | 0 <= i < |a| ensures 0.0 <= Scale(c, Plus(Plus(a, b), d))[i] {
      MulNonNegative(c, a[i] + b[i] + d[i]);
    }
  }

  /** Multiplying a non-negative value by a factor in [0, 1] keeps it
      between 0 and itself. */
  lemma MulByFraction(a: real, t: real)
    requires 0.0 <= a && 0.0 <= t <= 1.0
    ensures 0.0 <= a * t <= a
  {
  }

  lemma DivMonotone(a: real, b: real, t: real)
    requires a <= b && 0.0 < t
    ensures a / t <= b / t
  {
  }

  lemma ReciprocalPositive(d: real)
    requires 0.0 < d
    ensures 0.0 < 1.0 / d
  {
    DivTimes(1.0, d);
    if 1.0 / d <= 0.0 {
      MulNonNegative(-(1.0 / d), d);
    }
  }

  lemma DivTimes(a: real, b: real)
    requires b != 0.0
    ensures (a / b) * b == a
  {
  }

  lemma MulEqual(c: real, a: real, b: real)
    requires a == b
    ensures c * a == c * b
  {
  }

  /** How far x is from lo, as a fraction of the step from lo to hi. */
  lemma UnitFraction(x: real, lo: real, hi: real)
    requires lo < x <= hi
    ensures 0.0 < (x - lo) / (hi - lo) <= 1.0
    ensures x == hi ==> (x - lo) / (hi - lo) == 1.0
  {
    var d := hi - lo;
    DivMonotone(x - lo, d, d);
    assert d / d == 1.0;
    DivMonotone(0.0, x - lo, d);
    if (x - lo) / d == 0.0 {
      DivTimes(x - lo, d);
    }
  }

  lemma FractionOf(t: real, d: real)
    requires 0.0 <= d && 0.0 <= t <= 1.0
    ensures 0.0 <= t * d <= d
  {
  }

  lemma Distribute(a: real, b: real, x: real)
    ensures (a + b) * x == a * x + b * x
  {
  }

  /** Scaling s by target/(s*d) makes (scaled s)*d the target. */
  lemma RescaleTo(s: real, d: real, target: real)
    requires s * d != 0.0
    ensures ((target / (s * d)) * s) * d == target
  {
    var c := target / (s * d);
    Associate(c, s, d);
    DivTimes(target, s * d);
  }

  lemma Associate(a: real, b: real, c: real)
    ensures (a * b) * c == a * (b * c)
  {
  }

  /** A grid with lo < hi rises strictly. */
  lemma LinspaceIncreasing(lo: real, hi: real, num: nat)
    requires lo < hi
    ensures StrictlyIncreasing(Linspace(lo, hi, num))
  {
    var r := Linspace(lo, hi, num);
    if num >= 2 {
      var step := (hi - lo) / ((num - 1) as real);
      assert 0.0 < step;
      forall i, j | 0 <= i < j < num ensures r[i] < r[j] {
        MulPositive((j as real) - (i as real), step);
        assert (j as real) * step - (i as real) * step == ((j as real) - (i as real)) * step;
      }
    }
  }

  /** An evenly spaced sequence: every step equal to the first. */
  ghost predicate Uniform(s: seq<real>)
  {
    |s| >= 2 && forall i :: 0 <= i < |s| - 1 ==> s[i + 1] - s[i] == s[1] - s[0]
  }

  /** An evenly spaced sequence is the linspace between its ends. */
  lemma UniformIsLinspace(s: seq<real>)
    requires Uniform(s)
    ensures s == Linspace(s[0], s[|s| - 1], |s|)
  {
    var n := |s|;
    var d := s[1] - s[0];
    var m := (n - 1) as real;
    UniformAt(s, n - 1);
    assert (s[n - 1] - s[0]) / m == d by {
      assert s[n - 1] - s[0] == m * d;
    }
    var r := Linspace(s[0], s[n - 1], n);
    forall i | 0 <= i < n ensures r[i] == s[i] {
      UniformAt(s, i);
    }
  }

  lemma {:induction false} UniformAt(s: seq<real>, i: nat)
    requires Uniform(s) && i < |s|
    ensures s[i] == s[0] + (i as real) * (s[1] - s[0])
  {
    if i > 0 {
      UniformAt(s, i - 1);
      assert s[i] - s[i - 1] == s[1] - s[0];
    }
  }

  /** Bin midpoints 0.5*(ebins[1:] + ebins[:-1]). */
  function Midpoints(ebins: seq<real>): (emid: seq<real>)
    requires |ebins| >= 1
    ensures |emid| == |ebins| - 1
  {
    seq(|ebins| - 1, i requires 0 <= i < |ebins| - 1 => 0.5 * (ebins[i + 1] + ebins[i]))
  }

  /** np.diff: the steps between neighbours. */
  function Diff(s: seq<real>): (d: seq<real>)
    requires |s| >= 1
    ensures |d| == |s| - 1 && forall i :: 0 <= i < |s| - 1 ==> d[i] == s[i + 1] - s[i]
  {
    seq(|s| - 1, i requires 0 <= i < |s| - 1 => s[i + 1] - s[i])
  }

  // ---------------------------------------------------------------------------
  // ---------------------------------------------------------------------------
  // np.interp

  /** np.interp(x, xp, fp): fp[0] left of the table, fp[-1] right of it, and
      in between the straight line through the two table points that bracket
      x, where the bracket is the last xp[j] <= x (numpy's binary search);
      an exact hit, or a hit on the last point, returns that point's value. */
  function Interp(x: real, xp: seq<real>, fp: seq<real>): real
    requires |xp| == |fp| >= 1
    requires NonDecreasing(xp)
  {
    if x < xp[0] then fp[0]
    else if x > xp[|xp| - 1] then fp[|fp| - 1]
    else
      CountAtMostSplits(xp, x);
      var j := CountAtMost(xp, x) - 1;
      if j == |xp| - 1 || xp[j] == x then fp[j]
      else Line(x, xp[j], xp[j + 1], fp[j], fp[j + 1])
  }

  /** The straight line through (a, fa) and (b, fb), evaluated at x, as
      np.interp computes it: slope times the distance from a, plus fa. */
  function Line(x: real, a: real, b: real, fa: real, fb: real): real
    requires a != b
  {
    (fb - fa) / (b - a) * (x - a) + fa
  }

  /** On a segment the line is a weighted mean of its end values, so it
      is non-negative when both are. */
  lemma SegmentNonNegative(x: real, a: real, b: real, fa: real, fb: real)
    requires a < x < b && 0.0 <= fa && 0.0 <= fb
    ensures 0.0 <= Line(x, a, b, fa, fb)
  {
    var d := b - a;
    var t := (x - a) / d;
    var s := (fb - fa) / d;
    DivMonotone(0.0, x - a, d);
    DivMonotone(x - a, d, d);
    assert d / d == 1.0;
    DivTimes(x - a, d);
    DivTimes(fb - fa, d);
    Associate(s, t, d);
    Associate(s, d, t);
    assert s * (x - a) == (fb - fa) * t;
    assert (fb - fa) * t + fa == t * fb + (1.0 - t) * fa;
    MulNonNegative(t, fb);
    MulNonNegative(1.0 - t, fa);
  }

  /** np.interp of non-negative values is non-negative. */
  lemma InterpNonNegative(x: real, xp: seq<real>, fp: seq<real>)
    requires |xp| == |fp| >= 1 && NonDecreasing(xp)
    requires forall i :: 0 <= i < |fp| ==> 0.0 <= fp[i]
    ensures 0.0 <= Interp(x, xp, fp)
  {
    if xp[0] <= x <= xp[|xp| - 1] {
      CountAtMostSplits(xp, x);
      var j := CountAtMost(xp, x) - 1;
      if j < |xp| - 1 && xp[j] != x {
        SegmentNonNegative(x, xp[j], xp[j + 1], fp[j], fp[j + 1]);
      }
    }
  }

  /** Between two table points the line stays between their values. */
  lemma SegmentBounds(x: real, a: real, b: real, fa: real, fb: real)
    requires a < x < b && fa <= fb
    ensures fa <= Line(x, a, b, fa, fb) <= fb
  {
    var slope := (fb - fa) / (b - a);
    var p := slope * (x - a);
    var q := slope * (b - a);
    assert Line(x, a, b, fa, fb) == p + fa;
    assert 0.0 <= slope;
    assert q == fb - fa;
    assert q - p == slope * (b - x);
    MulNonNegative(slope, b - x);
    MulNonNegative(slope, x - a);
  }

  /** Along one segment the line rises with x when fa <= fb. */
  lemma SegmentMonotone(x1: real, x2: real, a: real, b: real, fa: real, fb: real)
    requires a < b && x1 <= x2 && fa <= fb
    ensures Line(x1, a, b, fa, fb) <= Line(x2, a, b, fa, fb)
  {
    var slope := (fb - fa) / (b - a);
    var p1 := slope * (x1 - a);
    var p2 := slope * (x2 - a);
    assert Line(x1, a, b, fa, fb) == p1 + fa && Line(x2, a, b, fa, fb) == p2 + fa;
    assert 0.0 <= slope;
    assert p2 - p1 == slope * (x2 - x1);
    MulNonNegative(slope, x2 - x1);
  }

  /** Strictly inside a segment, np.interp is that segment's line. */
  lemma InterpOnSegment(x: real, xp: seq<real>, fp: seq<real>, j: nat)
    requires |xp| == |fp| >= 1 && NonDecreasing(xp)
    requires j + 1 < |xp| && xp[j] < x < xp[j + 1]
    ensures Interp(x, xp, fp) == Line(x, xp[j], xp[j + 1], fp[j], fp[j + 1])
  {
    CountAtMostIs(xp, x, j + 1);
  }

  /** Interpolation onto a non-decreasing fp is at least fp[i] once x has
      passed xp[i]. */
  lemma InterpAtLeast(x: real, xp: seq<real>, fp: seq<real>, i: nat)
    requires |xp| == |fp| >= 1 && NonDecreasing(xp) && NonDecreasing(fp)
    requires i < |xp| && xp[i] <= x
    ensures fp[i] <= Interp(x, xp, fp)
  {
    var n := |xp|;
    if x <= xp[n - 1] {
      CountAtMostSplits(xp, x);
      var j := CountAtMost(xp, x) - 1;
      assert i <= j;
      assert fp[i] <= fp[j];
      if j < n - 1 && xp[j] != x {
        SegmentBounds(x, xp[j], xp[j + 1], fp[j], fp[j + 1]);
      } else {
        assert Interp(x, xp, fp) == fp[j];
      }
    } else {
      assert fp[i] <= fp[n - 1];
    }
  }

  /** ... and at most fp[i] while x is strictly before xp[i]. */
  lemma InterpBelow(x: real, xp: seq<real>, fp: seq<real>, i: nat)
    requires |xp| == |fp| >= 1 && NonDecreasing(xp) && NonDecreasing(fp)
    requires i < |xp| && x < xp[i]
    ensures Interp(x, xp, fp) <= fp[i]
  {
    if xp[0] <= x {
      CountAtMostSplits(xp, x);
      var j := CountAtMost(xp, x) - 1;
      assert j < i;
      assert fp[j + 1] <= fp[i];
      if xp[j] != x {
        SegmentBounds(x, xp[j], xp[j + 1], fp[j], fp[j + 1]);
      } else {
        assert Interp(x, xp, fp) == fp[j];
      }
    } else {
      assert fp[0] <= fp[i];
    }
  }

  /** Interpolation onto a non-decreasing fp stays within [fp[0], fp[-1]]. */
  lemma InterpRange(x: real, xp: seq<real>, fp: seq<real>)
    requires |xp| == |fp| >= 1 && NonDecreasing(xp) && NonDecreasing(fp)
    ensures fp[0] <= Interp(x, xp, fp) <= fp[|fp| - 1]
  {
    if xp[0] <= x {
      InterpAtLeast(x, xp, fp, 0);
    }
    if x < xp[|xp| - 1] {
      InterpBelow(x, xp, fp, |xp| - 1);
    } else if x == xp[|xp| - 1] {
      CountAtMostIs(xp, x, |xp|);
    }
  }

  /** Two points strictly inside one segment keep their order. */
  lemma InterpRisesOnSegment(x1: real, x2: real, xp: seq<real>, fp: seq<real>, j: nat)
    requires |xp| == |fp| >= 1 && NonDecreasing(xp) && NonDecreasing(fp)
    requires j + 1 < |xp| && xp[j] < x1 <= x2 < xp[j + 1]
    ensures Interp(x1, xp, fp) <= Interp(x2, xp, fp)
  {
    InterpOnSegment(x1, xp, fp, j);
    InterpOnSegment(x2, xp, fp, j);
    SegmentMonotone(x1, x2, xp[j], xp[j + 1], fp[j], fp[j + 1]);
  }

  /** A point strictly inside segment j is at most what any point at or
      past xp[j + 1] gets. */
  lemma InterpRisesPastSegment(x1: real, x2: real, xp: seq<real>, fp: seq<real>, j: nat)
    requires |xp| == |fp| >= 1 && NonDecreasing(xp) && NonDecreasing(fp)
    requires j + 1 < |xp| && xp[j] < x1 < xp[j + 1] <= x2
    ensures Interp(x1, xp, fp) <= Interp(x2, xp, fp)
  {
    InterpOnSegment(x1, xp, fp, j);
    SegmentBounds(x1, xp[j], xp[j + 1], fp[j], fp[j + 1]);
    InterpAtLeast(x2, xp, fp, j + 1);
  }

  /** Interpolating a non-decreasing table is monotone in x. */
  lemma InterpMonotone(x1: real, x2: real, xp: seq<real>, fp: seq<real>)
    requires |xp| == |fp| >= 1 && NonDecreasing(xp) && NonDecreasing(fp)
    requires x1 <= x2
    ensures Interp(x1, xp, fp) <= Interp(x2, xp, fp)
  {
    var n := |xp|;
    if x1 < xp[0] {
      InterpRange(x2, xp, fp);
    } else if x1 > xp[n - 1] {
      assert x2 > xp[n - 1];
    } else {
      CountAtMostSplits(xp, x1);
      var j := CountAtMost(xp, x1) - 1;
      if j == n - 1 || xp[j] == x1 {
        InterpAtLeast(x2, xp, fp, j);
      } else {
        if x2 < xp[j + 1] {
          InterpRisesOnSegment(x1, x2, xp, fp, j);
        } else {
          InterpRisesPastSegment(x1, x2, xp, fp, j);
        }
      }
    }
  }

  /** At a table point with distinct neighbours the table value comes back. */
  lemma InterpAtPoint(xp: seq<real>, fp: seq<real>, i: nat)
    requires |xp| == |fp| >= 1 && StrictlyIncreasing(xp) && i < |xp|
    ensures NonDecreasing(xp) && Interp(xp[i], xp, fp) == fp[i]
  {
    CountAtMostIs(xp, xp[i], i + 1);
  }

  // ---------------------------------------------------------------------------
  // Floating-point corner cases

  /** np.isclose(a, b) with its default tolerances: |a - b| <= atol + rtol*|b|. */
  const ABS_TOL: real := 1.0e-8
  const REL_TOL: real := 1.0e-5

  function Abs(x: real): real { if x < 0.0 then -x else x }

  predicate IsClose(a: real, b: real)
  {
    Abs(a - b) <= ABS_TOL + REL_TOL * Abs(b)
  }

  /** np.isclose(a, b).all() on two arrays of one length. */
  predicate AllClose(a: seq<real>, b: seq<real>)
    requires |a| == |b|
  {
    forall i :: 0 <= i < |a| ==> IsClose(a[i], b[i])
  }

  /** The outcome of a float64 division: x/0 is an infinity of x's sign and
      0/0 is not a number. */
  datatype Float = Finite(value: real) | PosInf | NegInf | NaN

  function Divide(a: real, b: real): (r: Float)
    ensures b != 0.0 ==> r == Finite(a / b)
    ensures b == 0.0 ==> (r == NaN <==> a == 0.0) && (r == PosInf <==> 0.0 < a) && (r == NegInf <==> a < 0.0)
  {
    if b != 0.0 then Finite(a / b)
    else if 0.0 < a then PosInf
    else if a < 0.0 then NegInf
    else NaN
  }

  /** The largest finite float64, which np.nan_to_num puts for +inf. */
  const MAX_FLOAT64: real := 1.7976931348623157e308

  /** np.nan_to_num: NaN becomes 0, the infinities the largest finite floats. */
  function NanToNum(f: Float): real
  {
    match f
    case Finite(v) => v
    case PosInf => MAX_FLOAT64
    case NegInf => -MAX_FLOAT64
    case NaN => 0.0
  }
}
