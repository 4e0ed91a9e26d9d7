/**
 * The results snapshot of the evaluation dashboard (src/pages/Project.jsx):
 * the key figures and the five chart series that the page derives, with
 * `useMemo`, from the list of per-domain records fetched from /api/analysis.
 * Every `reduce` of the page is a left fold, modelled here by recursion on
 * the prefix so that the last element is folded in last.
 */
module Stats {
  import opened Wrappers

  /** One record of the snapshot; `count` may be absent from the record. */
  datatype DomainStat = DomainStat(domain: string, count: Option<nat>, accuracy: real, avgResponseTime: real)

  /** `s.count || 0`: an absent count reads as 0. */
  function CountOf(s: DomainStat): nat
  {
    if s.count.Some? then s.count.value else 0
  }

  // ---------------------------------------------------------------------
  // Key figures
  // ---------------------------------------------------------------------

  /** `totalQuestions`: the counts of all entries added up, left to right. */
  function TotalQuestions(stats: seq<DomainStat>): nat
  {
    if |stats| == 0 then 0
    else TotalQuestions(stats[..|stats| - 1]) + CountOf(stats[|stats| - 1])
  }

  /** Adding up a snapshot in two pieces gives the same total. */
  lemma {:induction false} TotalQuestionsAppend(a: seq<DomainStat>, b: seq<DomainStat>)
    ensures TotalQuestions(a + b) == TotalQuestions(a) + TotalQuestions(b)
    decreases |b|
  {
    if |b| == 0 {
      assert a + b == a;
    } else {
      var b' := b[..|b| - 1];
      assert (a + b)[..|a + b| - 1] == a + b';
      assert (a + b)[|a + b| - 1] == b[|b| - 1];
      TotalQuestionsAppend(a, b');
    }
  }

  /** The total is 0 exactly when every entry's count is absent or 0. */
  lemma {:induction false} TotalQuestionsZero(stats: seq<DomainStat>)
    ensures TotalQuestions(stats) == 0 <==> forall i | 0 <= i < |stats| :: CountOf(stats[i]) == 0
    decreases |stats|
  {
    if |stats| > 0 {
      var p := stats[..|stats| - 1];
      TotalQuestionsZero(p);
      assert forall i | 0 <= i < |p| :: p[i] == stats[i];
    }
  }

  /** No single entry counts more questions than the whole snapshot. */
  lemma {:induction false} CountAtMostTotal(stats: seq<DomainStat>, i: nat)
    requires i < |stats|
    ensures CountOf(stats[i]) <= TotalQuestions(stats)
    decreases |stats|
  {
    if i < |stats| - 1 {
      CountAtMostTotal(stats[..|stats| - 1], i);
    }
  }

  /** The numerator of `overallAccuracy`: each accuracy weighted by its count. */
  function WeightedSum(stats: seq<DomainStat>): real
  {
    if |stats| == 0 then 0.0
    else WeightedSum(stats[..|stats| - 1]) + Weighted(stats[|stats| - 1])
  }

  /** `s.accuracy * (s.count || 0)`: one term of the weighted sum. */
  function Weighted(s: DomainStat): real
  {
    s.accuracy * (CountOf(s) as real)
  }

  /**
   * `overallAccuracy` as written: 0 for an empty snapshot, otherwise the
   * weighted sum divided by `totalQuestions`. The guard looks only at the
   * length, so a non-empty snapshot whose counts are all 0 divides 0 by 0;
   * the NaN that JavaScript produces there is `None`.
   */
  function OverallAccuracy(stats: seq<DomainStat>): (r: Option<real>)
    ensures |stats| == 0 ==> r == Some(0.0)
    ensures r.None? <==> |stats| > 0 && TotalQuestions(stats) == 0
  {
    if |stats| == 0 then Some(0.0)
    else if TotalQuestions(stats) == 0 then None
    else Some(WeightedSum(stats) / (TotalQuestions(stats) as real))
  }

  /** When every count is 0 the weighted sum is 0 too: the division above is 0 / 0. */
  lemma {:induction false} WeightedSumOfZeroCounts(stats: seq<DomainStat>)
    requires TotalQuestions(stats) == 0
    ensures WeightedSum(stats) == 0.0
    decreases |stats|
  {
    if |stats| > 0 {
      WeightedSumOfZeroCounts(stats[..|stats| - 1]);
    }
  }

  /** A one-domain snapshot with a count of 0 has no overall accuracy (NaN on the page). */
  lemma ZeroCountSnapshotHasNoAccuracy()
    ensures OverallAccuracy([DomainStat("History", Some(0), 0.8, 120.0)]).None?
    ensures WeightedSum([DomainStat("History", Some(0), 0.8, 120.0)]) == 0.0
  {
    var s := [DomainStat("History", Some(0), 0.8, 120.0)];
    assert s[..0] == [];
  }

  /**
   * `overallAccuracy` with the guard the page evidently intends: 0 when no
   * question was counted, otherwise the count-weighted mean of the accuracies.
   */
  function OverallAccuracyGuarded(stats: seq<DomainStat>): (r: real)
    ensures TotalQuestions(stats) == 0 ==> r == 0.0
  {
    if TotalQuestions(stats) == 0 then 0.0
    else WeightedSum(stats) / (TotalQuestions(stats) as real)
  }

  /** Wherever the page's own value is defined, the guarded one agrees with it. */
  lemma GuardedAgreesWhereDefined(stats: seq<DomainStat>)
    ensures OverallAccuracy(stats).Some? ==> OverallAccuracy(stats).value == OverallAccuracyGuarded(stats)
  {
  }

  lemma MulMonotone(x: real, y: real, c: real)
    requires x <= y && 0.0 <= c
    ensures x * c <= y * c
  {
    assert y * c - x * c == (y - x) * c;
  }

  lemma Distribute(x: real, t: real, c: real)
    ensures x * (t + c) == x * t + x * c
  {
  }

  /** Each weighted term lies between the bounds scaled by its count. */
  lemma WeightedBounds(s: DomainStat, lo: real, hi: real)
    requires lo <= s.accuracy <= hi
    ensures lo * (CountOf(s) as real) <= Weighted(s) <= hi * (CountOf(s) as real)
  {
    MulMonotone(lo, s.accuracy, CountOf(s) as real);
    MulMonotone(s.accuracy, hi, CountOf(s) as real);
  }

  /** If every accuracy lies in [lo, hi], the weighted sum lies between lo and hi times the total. */
  lemma {:induction false} WeightedSumBounds(stats: seq<DomainStat>, lo: real, hi: real)
    requires forall i | 0 <= i < |stats| :: lo <= stats[i].accuracy <= hi
    ensures lo * (TotalQuestions(stats) as real) <= WeightedSum(stats) <= hi * (TotalQuestions(stats) as real)
    decreases |stats|
  {
    if |stats| > 0 {
      var p := stats[..|stats| - 1];
      var last := stats[|stats| - 1];
      assert forall i | 0 <= i < |p| :: p[i] == stats[i];
      WeightedSumBounds(p, lo, hi);
      WeightedBounds(last, lo, hi);
      var t := TotalQuestions(p) as real;
      var c := CountOf(last) as real;
      assert TotalQuestions(stats) as real == t + c;
      assert WeightedSum(stats) == WeightedSum(p) + Weighted(last);
      Distribute(lo, t, c);
      Distribute(hi, t, c);
    }
  }

  lemma DivideBounds(w: real, t: real, lo: real, hi: real)
    requires t > 0.0 && lo * t <= w <= hi * t
    ensures lo <= w / t <= hi
  {
    var m := w / t;
    assert m * t == w;
    assert (m - lo) * t == w - lo * t;
    assert (hi - m) * t == hi * t - w;
  }

  lemma GuardedBounds(stats: seq<DomainStat>, lo: real, hi: real)
    requires TotalQuestions(stats) > 0
    requires lo * (TotalQuestions(stats) as real) <= WeightedSum(stats) <= hi * (TotalQuestions(stats) as real)
    ensures lo <= OverallAccuracyGuarded(stats) <= hi
  {
    DivideBounds(WeightedSum(stats), TotalQuestions(stats) as real, lo, hi);
  }

  /**
   * The overall accuracy is a weighted mean: it lies between the lowest and
   * the highest accuracy of the snapshot (in particular in [0, 1] when every
   * accuracy does).
   */
  lemma WeightedMeanWithin(stats: seq<DomainStat>, lo: real, hi: real)
    requires forall i | 0 <= i < |stats| :: lo <= stats[i].accuracy <= hi
    requires TotalQuestions(stats) > 0
    ensures lo <= OverallAccuracyGuarded(stats) <= hi
  {
    WeightedSumBounds(stats, lo, hi);
    GuardedBounds(stats, lo, hi);
  }

  /** The reducer of `fastestDomain`: the new entry wins only when it is strictly faster. */
  function Better(best: Option<DomainStat>, s: DomainStat): Option<DomainStat>
  {
    if best.None? || s.avgResponseTime < best.value.avgResponseTime then Some(s) else best
  }

  /**
   * `fastestDomain`: absent exactly for the empty snapshot, otherwise an entry
   * whose average response time is no larger than any other's.
   */
  function FastestDomain(stats: seq<DomainStat>): (r: Option<DomainStat>)
    ensures r.None? <==> |stats| == 0
    ensures r.Some? ==> r.value in stats
    ensures r.Some? ==> forall j | 0 <= j < |stats| :: r.value.avgResponseTime <= stats[j].avgResponseTime
  {
    if |stats| == 0 then None
    else
      var p := stats[..|stats| - 1];
      assert forall j | 0 <= j < |p| :: p[j] == stats[j];
      Better(FastestDomain(p), stats[|stats| - 1])
  }

  /** Ties go to the earliest entry: every entry before the chosen one is strictly slower. */
  lemma {:induction false} FastestDomainFirstMinimum(stats: seq<DomainStat>) returns (k: nat)
    requires |stats| > 0
    ensures k < |stats| && FastestDomain(stats) == Some(stats[k])
    ensures forall j | 0 <= j < k :: stats[j].avgResponseTime > stats[k].avgResponseTime
    decreases |stats|
  {
    var n := |stats|;
    var p := stats[..n - 1];
    if n == 1 {
      k := 0;
    } else {
      var k' := FastestDomainFirstMinimum(p);
      assert forall j | 0 <= j < |p| :: p[j] == stats[j];
      if stats[n - 1].avgResponseTime < stats[k'].avgResponseTime {
        k := n - 1;
      } else {
        k := k';
      }
    }
  }

  // ---------------------------------------------------------------------
  // Chart series
  // ---------------------------------------------------------------------

  /** `Math.round` on the page's non-negative values: halves round up. */
  function Round(x: real): (r: int)
    ensures x - 0.5 < r as real <= x + 0.5
  {
    (x + 0.5).Floor
  }

  /** A labelled series as handed to a Bar, Line or Doughnut chart. */
  datatype Chart<T> = Chart(labels: seq<string>, data: seq<T>)

  /** The two stacked series of the correct-versus-incorrect bar chart. */
  datatype SplitChart = SplitChart(labels: seq<string>, correct: seq<int>, incorrect: seq<int>)

  /** One data set of the scatter chart: a domain and its (time, accuracy) point. */
  datatype ScatterSet = ScatterSet(domain: string, x: real, y: real)

  /** `stats.map((s) => s.domain)`: the labels shared by the charts. */
  function Domains(stats: seq<DomainStat>): (labels: seq<string>)
    ensures |labels| == |stats|
    ensures forall i | 0 <= i < |stats| :: labels[i] == stats[i].domain
  {
    seq(|stats|, i requires 0 <= i < |stats| => stats[i].domain)
  }

  /** `accuracyData`: one bar per entry, in snapshot order. */
  function AccuracyData(stats: seq<DomainStat>): (c: Chart<real>)
    ensures c.labels == Domains(stats) && |c.data| == |stats|
    ensures forall i | 0 <= i < |stats| :: c.data[i] == stats[i].accuracy
  {
    Chart(Domains(stats), seq(|stats|, i requires 0 <= i < |stats| => stats[i].accuracy))
  }

  /** `timeData`: one point per entry, in snapshot order. */
  function TimeData(stats: seq<DomainStat>): (c: Chart<real>)
    ensures c.labels == Domains(stats) && |c.data| == |stats|
    ensures forall i | 0 <= i < |stats| :: c.data[i] == stats[i].avgResponseTime
  {
    Chart(Domains(stats), seq(|stats|, i requires 0 <= i < |stats| => stats[i].avgResponseTime))
  }

  /**
   * `correctWrongData`: per entry, the rounded number of correct answers and
   * the rest of its count as incorrect, so the two bars stack to the count.
   */
  function CorrectWrongData(stats: seq<DomainStat>): (c: SplitChart)
    ensures c.labels == Domains(stats) && |c.correct| == |stats| && |c.incorrect| == |stats|
    ensures forall i | 0 <= i < |stats| ::
      c.correct[i] == Round(Weighted(stats[i])) &&
      c.correct[i] + c.incorrect[i] == CountOf(stats[i])
  {
    var counts := seq(|stats|, i requires 0 <= i < |stats| => CountOf(stats[i]));
    var correct := seq(|stats|, i requires 0 <= i < |stats| => Round(Weighted(stats[i])));
    var incorrect := seq(|stats|, i requires 0 <= i < |stats| => counts[i] - correct[i]);
    SplitChart(Domains(stats), correct, incorrect)
  }

  /** `domainShareData`: the raw `count` of each entry, absent where the record has none. */
  function DomainShareData(stats: seq<DomainStat>): (c: Chart<Option<nat>>)
    ensures c.labels == Domains(stats) && |c.data| == |stats|
    ensures forall i | 0 <= i < |stats| :: c.data[i] == stats[i].count
  {
    Chart(Domains(stats), seq(|stats|, i requires 0 <= i < |stats| => stats[i].count))
  }

  /** `scatterData`: one single-point data set per entry, labelled by its domain. */
  function ScatterData(stats: seq<DomainStat>): (d: seq<ScatterSet>)
    ensures |d| == |stats|
    ensures forall i | 0 <= i < |stats| ::
      d[i] == ScatterSet(stats[i].domain, stats[i].avgResponseTime, stats[i].accuracy)
  {
    seq(|stats|, i requires 0 <= i < |stats| => ScatterSet(stats[i].domain, stats[i].avgResponseTime, stats[i].accuracy))
  }

  /** With an accuracy in [0, 1], the correct bar is never negative and never exceeds the count. */
  lemma CorrectWithinCount(stats: seq<DomainStat>, i: nat)
    requires i < |stats|
    requires 0.0 <= stats[i].accuracy <= 1.0
    ensures 0 <= CorrectWrongData(stats).correct[i] <= CountOf(stats[i])
    ensures 0 <= CorrectWrongData(stats).incorrect[i] <= CountOf(stats[i])
  {
    WeightedBounds(stats[i], 0.0, 1.0);
  }

  function Sum(s: seq<int>): int
  {
    if |s| == 0 then 0 else Sum(s[..|s| - 1]) + s[|s| - 1]
  }

  lemma {:induction false} SumPointwise(a: seq<int>, b: seq<int>, c: seq<int>)
    requires |a| == |b| == |c|
    requires forall i | 0 <= i < |c| :: a[i] + b[i] == c[i]
    ensures Sum(a) + Sum(b) == Sum(c)
    decreases |c|
  {
    if |c| > 0 {
      var n := |c| - 1;
      assert forall i | 0 <= i < n :: a[..n][i] == a[i] && b[..n][i] == b[i] && c[..n][i] == c[i];
      SumPointwise(a[..n], b[..n], c[..n]);
    }
  }

  lemma {:induction false} SumOfCounts(stats: seq<DomainStat>, counts: seq<int>)
    requires |counts| == |stats|
    requires forall i | 0 <= i < |stats| :: counts[i] == CountOf(stats[i])
    ensures Sum(counts) == TotalQuestions(stats)
    decreases |stats|
  {
    if |stats| > 0 {
      var n := |stats| - 1;
      assert forall i | 0 <= i < n :: counts[..n][i] == counts[i] && stats[..n][i] == stats[i];
      SumOfCounts(stats[..n], counts[..n]);
    }
  }

  /** The correct and incorrect bars together account for every counted question. */
  lemma CorrectWrongTotal(stats: seq<DomainStat>)
    ensures Sum(CorrectWrongData(stats).correct) + Sum(CorrectWrongData(stats).incorrect) == TotalQuestions(stats)
  {
    var c := CorrectWrongData(stats);
    var counts := seq(|stats|, i requires 0 <= i < |stats| => CountOf(stats[i]) as int);
    SumPointwise(c.correct, c.incorrect, counts);
    SumOfCounts(stats, counts);
  }

  /** The doughnut's slices (absent counts drawn as nothing) add up to `totalQuestions`. */
  function SliceTotal(data: seq<Option<nat>>): nat
  {
    if |data| == 0 then 0
    else SliceTotal(data[..|data| - 1]) + (if data[|data| - 1].Some? then data[|data| - 1].value else 0)
  }

  lemma {:induction false} DomainShareTotal(stats: seq<DomainStat>)
    ensures SliceTotal(DomainShareData(stats).data) == TotalQuestions(stats)
    decreases |stats|
  {
    if |stats| > 0 {
      var n := |stats| - 1;
      var d := DomainShareData(stats).data;
      assert d[..n] == DomainShareData(stats[..n]).data;
      DomainShareTotal(stats[..n]);
    }
  }

  /** The fastest domain's point is the leftmost of the scatter chart. */
  lemma FastestIsLeftmostPoint(stats: seq<DomainStat>)
    requires |stats| > 0
    ensures forall i | 0 <= i < |stats| :: FastestDomain(stats).value.avgResponseTime <= ScatterData(stats)[i].x
  {
  }

  /** A worked snapshot: two domains, 15 questions, 11 of them correct, Security fastest. */
  lemma TwoDomainSnapshot()
    ensures var s := [DomainStat("History", Some(10), 0.8, 120.0), DomainStat("Security", Some(5), 0.6, 90.0)];
      TotalQuestions(s) == 15 &&
      OverallAccuracy(s) == Some(11.0 / 15.0) &&
      FastestDomain(s) == Some(s[1]) &&
      CorrectWrongData(s).correct == [8, 3] && CorrectWrongData(s).incorrect == [2, 2]
  {
    var s := [DomainStat("History", Some(10), 0.8, 120.0), DomainStat("Security", Some(5), 0.6, 90.0)];
    assert s[..1] == [s[0]] && s[..1][..0] == [];
    assert WeightedSum(s[..1]) == 8.0;
    assert WeightedSum(s) == 11.0;
    assert Round(Weighted(s[0])) == 8 && Round(Weighted(s[1])) == 3;
  }
}
