/** The SMA crossover signal detector of strategy.py (check_crossover):
    rolling means over closing prices and the comparison of the last two bars. */
module Crossover {
  import opened Wrappers

  datatype Signal = Buy | Sell | NoSignal

  /** The signal pointing the other way: a golden cross becomes a death cross. */
  function Opposite(s: Signal): (o: Signal)
  {
    match s
    case Buy => Sell
    case Sell => Buy
    case NoSignal => NoSignal
  }

  function Sum(s: seq<real>): (t: real)
  {
    if s == [] then 0.0 else s[0] + Sum(s[1..])
  }

  function Mean(s: seq<real>): (m: real)
    requires s != []
  {
    Sum(s) / |s| as real
  }

  /** The w closes just before index end: closes[end - w .. end - 1]. */
  function Window(closes: seq<real>, w: nat, end: nat): (win: seq<real>)
    requires w <= end <= |closes|
  {
    closes[end - w .. end]
  }

  /** The value at index i of pandas' `rolling(window = w).mean()`: the mean of
      closes i-w+1 .. i, undefined (NaN) while fewer than w closes end at i. */
  function RollingMean(closes: seq<real>, w: nat, i: int): (m: Option<real>)
  {
    if 1 <= w && w - 1 <= i < |closes| then Some(Mean(Window(closes, w, i + 1))) else None
  }

  /** A defined rolling mean lies between any lower and upper bound of the
      closes in its window. */
  lemma RollingMeanBetween(closes: seq<real>, w: nat, i: int, lo: real, hi: real)
    requires RollingMean(closes, w, i).Some?
    requires forall k :: i - w + 1 <= k <= i ==> lo <= closes[k] <= hi
    ensures lo <= RollingMean(closes, w, i).value <= hi
  {
    var win := Window(closes, w, i + 1);
    var n := |win| as real;
    forall k | 0 <= k < |win|
      ensures lo <= win[k] <= hi
    {
      assert win[k] == closes[i + 1 - w + k];
    }
    SumAtLeast(win, lo);
    SumAtMost(win, hi);
    assert (Sum(win) / n) * n == Sum(win);
    AtLeastByFactor(Sum(win) / n, lo, n);
    AtLeastByFactor(hi, Sum(win) / n, n);
  }

  /** a < b, where a comparison with an undefined value is false (as with NaN). */
  predicate Below(a: Option<real>, b: Option<real>)
  {
    a.Some? && b.Some? && a.value < b.value
  }

  /** Reference reading of a golden cross, with no undefined values: both windows
      fit behind the second-to-last bar, the short mean is strictly below the long
      one there and strictly above it at the last bar. */
  ghost predicate GoldenCross(closes: seq<real>, short: nat, long: nat)
  {
    var n := |closes|;
    1 <= short < n && 1 <= long < n &&
    Mean(Window(closes, short, n - 1)) < Mean(Window(closes, long, n - 1)) &&
    Mean(Window(closes, short, n)) > Mean(Window(closes, long, n))
  }

  /** The mirror image: the short mean strictly above, then strictly below. */
  ghost predicate DeathCross(closes: seq<real>, short: nat, long: nat)
  {
    var n := |closes|;
    1 <= short < n && 1 <= long < n &&
    Mean(Window(closes, short, n - 1)) > Mean(Window(closes, long, n - 1)) &&
    Mean(Window(closes, short, n)) < Mean(Window(closes, long, n))
  }

  /** check_crossover with windows short and long (10 and 30 in the strategy). */
  function CheckCrossover(closes: seq<real>, short: nat, long: nat): (r: Signal)
    requires 1 <= short && 2 <= long
    ensures |closes| < long ==> r == NoSignal
    ensures r != NoSignal ==> |closes| >= long + 1 && |closes| >= short + 1
  {
    if |closes| < long then NoSignal
    else
      var n := |closes|;
      var shortPrev, longPrev := RollingMean(closes, short, n - 2), RollingMean(closes, long, n - 2);
      var shortCurr, longCurr := RollingMean(closes, short, n - 1), RollingMean(closes, long, n - 1);
      if shortPrev.None? || longPrev.None? then NoSignal
      else if Below(shortPrev, longPrev) && Below(longCurr, shortCurr) then Buy
      else if Below(longPrev, shortPrev) && Below(shortCurr, longCurr) then Sell
      else NoSignal
  }

  /** check_crossover returns Buy exactly on a golden cross and Sell exactly on
      a death cross. */
  lemma CrossoverMeaning(closes: seq<real>, short: nat, long: nat)
    requires 1 <= short && 2 <= long
    ensures CheckCrossover(closes, short, long) == Buy <==> GoldenCross(closes, short, long)
    ensures CheckCrossover(closes, short, long) == Sell <==> DeathCross(closes, short, long)
  {
  }

  /** Buy and Sell never hold together, and equal means at either of the last
      two bars never signal. */
  lemma SignalsExclusive(closes: seq<real>, short: nat, long: nat)
    requires 1 <= short && 2 <= long
    ensures !(GoldenCross(closes, short, long) && DeathCross(closes, short, long))
    ensures short < |closes| && long < |closes| &&
            Mean(Window(closes, short, |closes|)) == Mean(Window(closes, long, |closes|))
            ==> CheckCrossover(closes, short, long) == NoSignal
    ensures short < |closes| && long < |closes| &&
            Mean(Window(closes, short, |closes| - 1)) == Mean(Window(closes, long, |closes| - 1))
            ==> CheckCrossover(closes, short, long) == NoSignal
  {
    CrossoverMeaning(closes, short, long);
  }

  /** The signal depends only on the last long + 1 closes: two series that agree
      there give the same signal. */
  lemma SignalDependsOnLastBars(a: seq<real>, b: seq<real>, short: nat, long: nat)
    requires 1 <= short <= long && 2 <= long
    requires |a| > long && |b| > long
    requires a[|a| - long - 1 ..] == b[|b| - long - 1 ..]
    ensures CheckCrossover(a, short, long) == CheckCrossover(b, short, long)
  {
    SameWindows(a, b, long, short);
    SameWindows(a, b, long, long);
    CrossoverMeaning(a, short, long);
    CrossoverMeaning(b, short, long);
  }

  lemma SameWindows(a: seq<real>, b: seq<real>, long: nat, w: nat)
    requires 1 <= w <= long < |a| && long < |b|
    requires a[|a| - long - 1 ..] == b[|b| - long - 1 ..]
    ensures Window(a, w, |a| - 1) == Window(b, w, |b| - 1)
    ensures Window(a, w, |a|) == Window(b, w, |b|)
  {
    var ta, tb := a[|a| - long - 1 ..], b[|b| - long - 1 ..];
    assert ta[long - w .. long] == a[|a| - 1 - w .. |a| - 1];
    assert Window(a, w, |a| - 1) == ta[long - w .. long];
    assert Window(b, w, |b| - 1) == tb[long - w .. long];
    assert Window(a, w, |a|) == ta[long + 1 - w ..];
    assert Window(b, w, |b|) == tb[long + 1 - w ..];
  }

  lemma {:induction false} SumConcat(a: seq<real>, b: seq<real>)
    ensures Sum(a + b) == Sum(a) + Sum(b)
  {
    if a == [] {
      assert a + b == b;
    } else {
      assert (a + b)[1..] == a[1..] + b;
      SumConcat(a[1..], b);
    }
  }

  lemma {:induction false} SumBelow(s: seq<real>, m: real)
    requires s != []
    requires forall i :: 0 <= i < |s| ==> s[i] < m
    ensures Sum(s) < |s| as real * m
  {
    if |s| > 1 {
      SumBelow(s[1..], m);
    }
  }

  lemma {:induction false} SumAtMost(s: seq<real>, m: real)
    requires forall i :: 0 <= i < |s| ==> s[i] <= m
    ensures Sum(s) <= |s| as real * m
  {
    if s != [] {
      SumAtMost(s[1..], m);
    }
  }

  lemma {:induction false} SumAtLeast(s: seq<real>, m: real)
    requires forall i :: 0 <= i < |s| ==> s[i] >= m
    ensures Sum(s) >= |s| as real * m
  {
    if s != [] {
      SumAtLeast(s[1..], m);
    }
  }

  ghost predicate StrictlyIncreasing(s: seq<real>)
  {
    forall i, j :: 0 <= i < j < |s| ==> s[i] < s[j]
  }

  ghost predicate StrictlyDecreasing(s: seq<real>)
  {
    forall i, j :: 0 <= i < j < |s| ==> s[i] > s[j]
  }

  /** Over a strictly rising window, the mean of its last k values exceeds the
      mean of the whole window. */
  lemma TailMeanAboveMean(w: seq<real>, k: nat)
    requires 1 <= k < |w|
    requires StrictlyIncreasing(w)
    ensures Mean(w[|w| - k ..]) > Mean(w)
  {
    var l := |w|;
    var front, tail := w[.. l - k], w[l - k ..];
    var m := w[l - k];
    forall i | 0 <= i < |front|
      ensures front[i] < m
    {
      assert front[i] == w[i];
    }
    forall i | 0 <= i < |tail|
      ensures tail[i] >= m
    {
      assert tail[i] == w[l - k + i];
    }
    assert front + tail == w;
    MeanSplit(front, tail, m);
  }

  /** Closes below m followed by closes at least m: the later part has the
      larger mean. */
  lemma MeanSplit(front: seq<real>, tail: seq<real>, m: real)
    requires front != [] && tail != []
    requires forall i :: 0 <= i < |front| ==> front[i] < m
    requires forall i :: 0 <= i < |tail| ==> tail[i] >= m
    ensures Mean(tail) > Mean(front + tail)
  {
    SumConcat(front, tail);
    SumBelow(front, m);
    SumAtLeast(tail, m);
    WeightedMean(Sum(front), Sum(tail), |front| as real, |tail| as real, m);
  }

  /** The arithmetic behind MeanSplit, on plain reals. */
  lemma WeightedMean(sf: real, st: real, nf: real, nt: real, m: real)
    requires nf >= 1.0 && nt >= 1.0
    requires sf < nf * m && st >= nt * m
    ensures st / nt > (sf + st) / (nf + nt)
  {
    var a := st / nt;
    assert st == a * nt;
    AtLeastByFactor(a, m, nt);
    assert nf * m <= nf * a;
    assert sf + st < (nf + nt) * a;
    BelowByFactor(sf + st, a, nf + nt);
  }

  lemma AtLeastByFactor(a: real, m: real, n: real)
    requires n > 0.0 && a * n >= n * m
    ensures a >= m
  {
    assert (a - m) * n >= 0.0;
  }

  lemma BelowByFactor(x: real, a: real, n: real)
    requires n > 0.0 && x < n * a
    ensures x / n < a
  {
    var q := x / n;
    assert q * n == x;
    assert (a - q) * n > 0.0;
  }

  /** A strictly rising series never produces a death cross (short < long). */
  lemma RisingNeverSells(closes: seq<real>, short: nat, long: nat)
    requires 1 <= short < long
    requires StrictlyIncreasing(closes)
    ensures CheckCrossover(closes, short, long) != Sell
  {
    var n := |closes|;
    if CheckCrossover(closes, short, long) == Sell {
      CrossoverMeaning(closes, short, long);
      var w := Window(closes, long, n);
      assert w[|w| - short ..] == Window(closes, short, n);
      TailMeanAboveMean(w, short);
      assert false;
    }
  }

  /** The series reflected about k: every close c becomes k - c, which negates
      every change between consecutive closes. */
  function Reflect(s: seq<real>, k: real): (r: seq<real>)
  {
    seq(|s|, i requires 0 <= i < |s| => k - s[i])
  }

  lemma {:induction false} SumReflect(s: seq<real>, k: real)
    ensures Sum(Reflect(s, k)) == |s| as real * k - Sum(s)
  {
    if s != [] {
      assert Reflect(s, k)[1..] == Reflect(s[1..], k);
      SumReflect(s[1..], k);
    }
  }

  lemma MeanReflect(s: seq<real>, k: real)
    requires s != []
    ensures Mean(Reflect(s, k)) == k - Mean(s)
  {
    SumReflect(s, k);
    var n := |s| as real;
    assert (n * k - Sum(s)) / n == k - Sum(s) / n;
  }

  lemma MeanReflectWindow(s: seq<real>, k: real, w: nat, end: nat)
    requires 1 <= w <= end <= |s|
    ensures Mean(Window(Reflect(s, k), w, end)) == k - Mean(Window(s, w, end))
  {
    assert Window(Reflect(s, k), w, end) == Reflect(Window(s, w, end), k);
    MeanReflect(Window(s, w, end), k);
  }

  /** Reflecting a series turns every golden cross into a death cross at the
      same bar and back: the detector is symmetric. */
  lemma ReflectSwapsSignal(closes: seq<real>, k: real, short: nat, long: nat)
    requires 1 <= short && 2 <= long
    ensures CheckCrossover(Reflect(closes, k), short, long) == Opposite(CheckCrossover(closes, short, long))
  {
    var n := |closes|;
    var r := Reflect(closes, k);
    CrossoverMeaning(closes, short, long);
    CrossoverMeaning(r, short, long);
    assert |r| == n;
    if 1 <= short < n && 1 <= long < n {
      MeanReflectWindow(closes, k, short, n - 1);
      MeanReflectWindow(closes, k, long, n - 1);
      MeanReflectWindow(closes, k, short, n);
      MeanReflectWindow(closes, k, long, n);
      assert GoldenCross(r, short, long) <==> DeathCross(closes, short, long);
      assert DeathCross(r, short, long) <==> GoldenCross(closes, short, long);
    } else {
      assert !GoldenCross(r, short, long) && !DeathCross(r, short, long);
      assert !GoldenCross(closes, short, long) && !DeathCross(closes, short, long);
    }
  }

  /** A strictly falling series never produces a golden cross (short < long). */
  lemma FallingNeverBuys(closes: seq<real>, short: nat, long: nat)
    requires 1 <= short < long
    requires StrictlyDecreasing(closes)
    ensures CheckCrossover(closes, short, long) != Buy
  {
    var r := Reflect(closes, 0.0);
    assert StrictlyIncreasing(r);
    RisingNeverSells(r, short, long);
    ReflectSwapsSignal(closes, 0.0, short, long);
  }
}
