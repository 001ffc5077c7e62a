// The summary of a series of pings: counts, extremes, mean and variance, kept as results come in. Latencies are exact
// reals.

module Ping {
  import opened Wrappers

  /** A ping that got no answer, or an error, or an answer after some seconds. */
  datatype PingResult = NoResult | Failed | Answered(latency: real)

  // ----- The samples and their plain statistics

  function Latencies(rs: seq<PingResult>): seq<real> {
    if rs == [] then []
    else Latencies(rs[..|rs| - 1]) + if rs[|rs| - 1].Answered? then [rs[|rs| - 1].latency] else []
  }

  function Sum(xs: seq<real>): real { if xs == [] then 0.0 else Sum(xs[..|xs| - 1]) + xs[|xs| - 1] }

  function Mean(xs: seq<real>): real
    requires xs != []
  {
    Sum(xs) / |xs| as real
  }

  /** The sum of squared deviations from c. */
  function Deviations(xs: seq<real>, c: real): real {
    if xs == [] then 0.0 else Deviations(xs[..|xs| - 1], c) + (xs[|xs| - 1] - c) * (xs[|xs| - 1] - c)
  }

  predicate IsMinimum(xs: seq<real>, m: real) { m in xs && forall x :: x in xs ==> m <= x }

  predicate IsMaximum(xs: seq<real>, m: real) { m in xs && forall x :: x in xs ==> x <= m }

  // ----- Welford's update

  /** Moving the centre: the deviations from d in terms of those from c. */
  function Shifted(n: real, sum: real, dev: real, c: real, d: real): real {
    dev + 2.0 * ((c - d) * (sum - n * c)) + n * ((c - d) * (c - d))
  }

  lemma ShiftedStep(n: real, sum: real, dev: real, c: real, d: real, x: real)
    ensures Shifted(n + 1.0, sum + x, dev + (x - c) * (x - c), c, d) == Shifted(n, sum, dev, c, d) + (x - d) * (x - d)
  {
  }

  lemma {:induction false} ShiftCentre(xs: seq<real>, c: real, d: real)
    ensures Deviations(xs, d) == Shifted(|xs| as real, Sum(xs), Deviations(xs, c), c, d)
    decreases |xs|
  {
    if xs != [] {
      var rest, x := xs[..|xs| - 1], xs[|xs| - 1];
      ShiftCentre(rest, c, d);
      ShiftedStep(|rest| as real, Sum(rest), Deviations(rest, c), c, d, x);
      assert |xs| as real == |rest| as real + 1.0;
    }
  }

  /** How the mean moves when x joins n samples, with q the distance it moves. */
  lemma MeanMoves(n: real, avg: real, x: real, q: real)
    requires n >= 0.0 && q == (x - avg) / (n + 1.0)
    ensures x - avg == (n + 1.0) * q
    ensures x - (avg + q) == n * q
    ensures (n + 1.0) * (avg + q) == n * avg + x
  {
    assert (n + 1.0) * q == n * q + q;
    assert (n + 1.0) * (avg + q) == n * avg + avg + (n + 1.0) * q;
  }

  lemma DeviationsMove(n: real, sum: real, dev: real, dev': real, avg: real, avg': real, x: real, q: real)
    requires sum == n * avg && avg' == avg + q && x - avg == (n + 1.0) * q && x - avg' == n * q
    requires dev' == Shifted(n, sum, dev, avg, avg')
    ensures dev' + (x - avg') * (x - avg') == dev + (x - avg) * (x - avg')
  {
    assert dev' == dev + n * (q * q);
    assert ((n + 1.0) * q) * (n * q) == (n * q) * (n * q) + n * (q * q);
  }

  lemma SumAppend(xs: seq<real>, x: real, c: real)
    ensures Sum(xs + [x]) == Sum(xs) + x
    ensures Deviations(xs + [x], c) == Deviations(xs, c) + (x - c) * (x - c)
  {
    assert (xs + [x])[..|xs|] == xs;
  }

  lemma DeviationsStep(xs: seq<real>, n: real, avg: real, avg': real, x: real, q: real)
    requires n == |xs| as real && Sum(xs) == n * avg
    requires avg' == avg + q && x - avg == (n + 1.0) * q && x - avg' == n * q
    ensures Deviations(xs + [x], avg') == Deviations(xs, avg) + (x - avg) * (x - avg')
  {
    SumAppend(xs, x, avg');
    ShiftCentre(xs, avg, avg');
    DeviationsMove(n, Sum(xs), Deviations(xs, avg), Deviations(xs, avg'), avg, avg', x, q);
  }

  /** avg is the mean of the samples, and m2 the sum of their squared deviations from it. */
  ghost predicate Moments(xs: seq<real>, avg: real, m2: real) {
    |xs| as real * avg == Sum(xs) && m2 == Deviations(xs, avg)
  }

  /** The running moments of a sample, updated with x, are those of the sample extended by x. */
  lemma MomentsStep(xs: seq<real>, avg: real, m2: real, x: real, n: real, avg': real, m2': real)
    requires Moments(xs, avg, m2) && n == |xs| as real
    requires avg' == avg + (x - avg) / (n + 1.0) && m2' == m2 + (x - avg) * (x - avg')
    ensures Moments(xs + [x], avg', m2')
  {
    assert |xs + [x]| as real * avg' == Sum(xs + [x]) by {
      WelfordMean(xs, n, x, avg, avg');
    }
    assert m2' == Deviations(xs + [x], avg') by {
      WelfordDeviations(xs, n, x, avg, avg');
    }
  }

  lemma WelfordMean(xs: seq<real>, n: real, x: real, avg: real, avg': real)
    requires n == |xs| as real && n * avg == Sum(xs) && avg' == avg + (x - avg) / (n + 1.0)
    ensures |xs + [x]| as real * avg' == Sum(xs + [x])
  {
    MeanMoves(n, avg, x, (x - avg) / (n + 1.0));
    SumAppend(xs, x, 0.0);
  }

  lemma WelfordDeviations(xs: seq<real>, n: real, x: real, avg: real, avg': real)
    requires n == |xs| as real && n * avg == Sum(xs) && avg' == avg + (x - avg) / (n + 1.0)
    ensures Deviations(xs + [x], avg') == Deviations(xs, avg) + (x - avg) * (x - avg')
  {
    var q := avg' - avg;
    assert x - avg == (n + 1.0) * q && x - avg' == n * q by {
      MeanMoves(n, avg, x, (x - avg) / (n + 1.0));
    }
    DeviationsStep(xs, n, avg, avg', x, q);
  }

  // ----- Extremes

  function Least(xs: seq<real>): real
    requires xs != []
  {
    if |xs| == 1 then xs[0]
    else
      var m, x := Least(xs[..|xs| - 1]), xs[|xs| - 1];
      if x < m then x else m
  }

  lemma {:induction false} LeastIsMinimum(xs: seq<real>)
    requires xs != []
    ensures IsMinimum(xs, Least(xs))
    decreases |xs|
  {
    if |xs| > 1 {
      LeastIsMinimum(xs[..|xs| - 1]);
      assert xs == xs[..|xs| - 1] + [xs[|xs| - 1]];
    }
  }

  /** What the summary keeps as its maximum: the code compares each latency with the minimum, not with the maximum. */
  function KeptMax(xs: seq<real>): real
    requires xs != []
  {
    if |xs| == 1 || xs[|xs| - 1] > Least(xs) then xs[|xs| - 1] else KeptMax(xs[..|xs| - 1])
  }

  /** No latency after position k is above the minimum before it. */
  ghost predicate QuietAfter(xs: seq<real>, k: nat)
    requires k < |xs|
  {
    forall j :: k < j < |xs| ==> xs[j] <= Least(xs[..j])
  }

  lemma LeastLast(xs: seq<real>)
    requires |xs| > 1
    ensures xs[|xs| - 1] > Least(xs) <==> xs[|xs| - 1] > Least(xs[..|xs| - 1])
  {
  }

  lemma {:induction false} KeptAt(xs: seq<real>) returns (k: nat)
    requires xs != []
    ensures k < |xs| && KeptMax(xs) == xs[k] && QuietAfter(xs, k)
    decreases |xs|
  {
    var l := |xs| - 1;
    if l == 0 || xs[l] > Least(xs) {
      k := l;
    } else {
      k := KeptAt(xs[..l]);
      LeastLast(xs);
      forall j | k < j < |xs| ensures xs[j] <= Least(xs[..j]) {
        assert j < l ==> xs[..l][..j] == xs[..j];
      }
    }
  }

  lemma {:induction false} QuietKeeps(xs: seq<real>, k: nat)
    requires k < |xs| && QuietAfter(xs, k)
    ensures KeptMax(xs) == KeptMax(xs[..k + 1])
    decreases |xs|
  {
    var l := |xs| - 1;
    if k < l {
      LeastLast(xs);
      forall j | k < j < l ensures xs[..l][j] <= Least(xs[..l][..j]) {
        assert xs[..l][..j] == xs[..j];
      }
      QuietKeeps(xs[..l], k);
      assert xs[..l][..k + 1] == xs[..k + 1];
    } else {
      assert xs[..k + 1] == xs;
    }
  }

  lemma QuietMaximumIsKept(xs: seq<real>, k: nat)
    requires k < |xs| && IsMaximum(xs, xs[k]) && QuietAfter(xs, k)
    ensures KeptMax(xs) == xs[k]
  {
    QuietKeeps(xs, k);
    var ys := xs[..k + 1];
    if k > 0 && ys[k] <= Least(ys) {
      var i := KeptAt(ys);
      LeastIsMinimum(ys);
      assert ys[i] in ys && ys[i] in xs;
    }
  }

  /** The reported maximum is the maximum exactly when nothing after some maximal latency rises above the minimum so
      far. */
  lemma MaxIsMaximumIff(xs: seq<real>)
    requires xs != []
    ensures IsMaximum(xs, KeptMax(xs)) <==> exists k: nat :: k < |xs| && IsMaximum(xs, xs[k]) && QuietAfter(xs, k)
  {
    var at := KeptAt(xs);
    if k: nat :| k < |xs| && IsMaximum(xs, xs[k]) && QuietAfter(xs, k) {
      QuietMaximumIsKept(xs, k);
    }
  }

  lemma MaxExample()
    ensures KeptMax([1.0, 3.0, 2.0]) == 2.0 && !IsMaximum([1.0, 3.0, 2.0], 2.0)
  {
    var xs := [1.0, 3.0, 2.0];
    assert xs[..2] == [1.0, 3.0] && xs[..2][..1] == [1.0];
    assert Least(xs[..2]) == 1.0 && Least(xs) == 1.0;
    assert 3.0 in xs by {
      assert xs[1] == 3.0;
    }
  }

  /** Both extremes, one latency at a time, as the code updates them. */
  lemma ExtremesStep(xs: seq<real>, x: real)
    ensures xs == [] ==> Least(xs + [x]) == x && KeptMax(xs + [x]) == x
    ensures xs != [] ==>
              && Least(xs + [x]) == (if x < Least(xs) then x else Least(xs))
              && KeptMax(xs + [x]) == (if x > Least(xs + [x]) then x else KeptMax(xs))
  {
    assert (xs + [x])[..|xs|] == xs;
  }

  /** What the summary keeps as its extremes. */
  ghost predicate Extremes(xs: seq<real>, min: Option<real>, max: Option<real>) {
    if xs == [] then min == None && max == None else min == Some(Least(xs)) && max == Some(KeptMax(xs))
  }

  // ----- The summary

  class PingSummary {
    var total: nat
    var successful: nat
    var min: Option<real>
    var max: Option<real>
    var latencySum: real
    var runningAvg: real
    var m2: real
    ghost var results: seq<PingResult>

    ghost function Samples(): seq<real>
      reads this
    {
      Latencies(results)
    }

    ghost predicate Valid()
      reads this
    {
      var xs := Samples();
      && total == |results| && successful == |xs|
      && latencySum == Sum(xs)
      && Moments(xs, runningAvg, m2)
      && Extremes(xs, min, max)
    }

    constructor ()
      ensures Valid() && results == []
    {
      total, successful, min, max, latencySum, runningAvg, m2, results := 0, 0, None, None, 0.0, 0.0, 0.0, [];
    }

    method AddResult(r: PingResult)
      requires Valid()
      modifies this
      ensures Valid() && results == old(results) + [r]
    {
      ghost var xs := Samples();
      results := results + [r];
      assert results[..|results| - 1] == old(results);
      total := total + 1;
      if !r.Answered? {
        assert Samples() == xs;
        return;
      }
      var x := r.latency;
      assert Samples() == xs + [x];
      SumAppend(xs, x, 0.0);
      successful := successful + 1;
      UpdateExtremes(x, xs);
      latencySum := latencySum + x;
      UpdateMoments(x, xs);
    }

    /** The two comparisons of AddResult. */
    method UpdateExtremes(x: real, ghost xs: seq<real>)
      requires Extremes(xs, min, max)
      modifies this`min, this`max
      ensures Extremes(xs + [x], min, max)
    {
      ExtremesStep(xs, x);
      if min.None? || x < min.value {
        min := Some(x);
      }
      if max.None? || x > min.value {
        max := Some(x);
      }
    }

    /** The last four statements of AddResult: mean and deviations of the sample become those of the sample with x. */
    method UpdateMoments(x: real, ghost xs: seq<real>)
      requires successful == |xs| + 1 && Moments(xs, runningAvg, m2)
      modifies this`runningAvg, this`m2
      ensures Moments(xs + [x], runningAvg, m2)
    {
      ghost var avg, dev, n := runningAvg, m2, |xs| as real;
      assert successful as real == n + 1.0;
      var d := x - runningAvg;
      runningAvg := runningAvg + d / (successful as real);
      var d2 := x - runningAvg;
      m2 := m2 + d * d2;
      MomentsStep(xs, avg, dev, x, n, runningAvg, m2);
    }

    /** The average and variance of Write. */
    method Finish() returns (avg: Option<real>, variance: Option<real>)
      requires Valid()
      ensures var xs := Samples();
              && (avg.Some? <==> xs != [])
              && (xs != [] ==> avg == Some(Mean(xs)))
              && (variance.Some? <==> |xs| > 1)
              && (|xs| > 1 ==> variance == Some(Deviations(xs, Mean(xs)) / (|xs| - 1) as real))
    {
      avg, variance := None, None;
      if successful > 0 {
        avg := Some(latencySum / successful as real);
        assert runningAvg == Mean(Samples());
      }
      if successful > 1 {
        variance := Some(m2 / (successful - 1) as real);
      }
    }
  }
}
