/** Request samples, their sanitation, and what a window of them adds up to. */
module RequestSamples {
  import opened Wrappers
  import opened Arithmetic

  /** What a caller reports; `churn` is derived when it is not given. */
  datatype RawRequest = RawRequest(
    prompt: int, cached: int, completion: int, total: int, latency: real, active: int, waiting: int, growth: int,
    gap: real, churn: Option<int>, roundsSincePause: int, decode: Option<real>, queue: real)

  datatype Sample = Sample(
    prompt: int, cached: int, uncached: int, completion: Option<int>, total: int, latency: real, decode: Option<real>,
    active: int, waiting: int, growth: Option<int>, churn: int, gap: real, queue: real, roundsSincePause: int)


  function Completion(completion: int, prompt: int, total: int): Option<int> {
    var value := Max(completion, 0);
    if total <= 0 then None
    else if prompt <= 0 && value >= total then None
    else if value > total then None
    else Some(value)
  }

  function Growth(growth: int, previousTotal: int): Option<int> {
    if previousTotal <= 0 || growth <= 0 then None
    else if growth < previousTotal then Some(growth)
    else None
  }

  function Sanitized(r: RawRequest): Sample {
    var prompt, total := Max(r.prompt, 0), Max(r.total, 0);
    var cached := Min(prompt, Max(r.cached, 0));
    var churn := if r.churn.Some? then r.churn.value else Max(0, r.prompt - r.cached) + Max(0, r.completion);
    Sample(prompt, cached, prompt - cached, Completion(r.completion, prompt, total), total,
           MaxReal(r.latency, 0.0), r.decode,
           Max(r.active, 0), Max(r.waiting, 0), Growth(r.growth, Max(0, total - Max(r.growth, 0))), Max(0, churn),
           MaxReal(r.gap, 0.0), MaxReal(r.queue, 0.0), Max(r.roundsSincePause, 0))
  }

  /** What every retained sample satisfies. */
  ghost predicate SampleOk(s: Sample) {
    && 0 <= s.cached <= s.prompt && s.uncached == s.prompt - s.cached
    && s.total >= 0 && s.latency >= 0.0 && s.gap >= 0.0 && s.queue >= 0.0
    && s.active >= 0 && s.waiting >= 0 && s.churn >= 0 && s.roundsSincePause >= 0
    && (s.completion.Some? ==> 0 <= s.completion.value <= s.total)
    && (s.growth.Some? ==> 0 < s.growth.value && 2 * s.growth.value < s.total)
    && (s.decode.Some? ==> s.decode.value >= 0.0)
  }

  /** Whatever is reported, only credible values are kept; in particular a growth is kept only if it is smaller than the
      context it was added to. */
  lemma SanitizedOk(r: RawRequest)
    requires r.decode.Some? ==> r.decode.value >= 0.0
    ensures SampleOk(Sanitized(r))
  {
    var total := Max(r.total, 0);
    assert Max(0, total - Max(r.growth, 0)) <= total;
  }

  // ---- column sums

  type Column = Sample -> int
  type RealColumn = Sample -> real

  function PromptOf(): Column { (s: Sample) => s.prompt }
  function CachedOf(): Column { (s: Sample) => s.cached }
  function UncachedOf(): Column { (s: Sample) => s.uncached }
  function CompletionOf(): Column { (s: Sample) => if s.completion.Some? then s.completion.value else 0 }
  function HasCompletion(): Column { (s: Sample) => if s.completion.Some? then 1 else 0 }
  function TotalOf(): Column { (s: Sample) => s.total }
  function ActiveOf(): Column { (s: Sample) => s.active }
  function WaitingOf(): Column { (s: Sample) => s.waiting }
  function ChurnOf(): Column { (s: Sample) => s.churn }
  function RoundsOf(): Column { (s: Sample) => s.roundsSincePause }
  function GrowthOf(): Column { (s: Sample) => if s.growth.Some? then s.growth.value else 0 }
  function HasGrowth(): Column { (s: Sample) => if s.growth.Some? then 1 else 0 }
  function HasDecode(): Column { (s: Sample) => if s.decode.Some? then 1 else 0 }
  function LatencyOf(): RealColumn { (s: Sample) => s.latency }
  function DecodeOf(): RealColumn { (s: Sample) => if s.decode.Some? then s.decode.value else 0.0 }
  function GapOf(): RealColumn { (s: Sample) => s.gap }
  function QueueOf(): RealColumn { (s: Sample) => s.queue }

  function Total(s: seq<Sample>, f: Column): int {
    if s == [] then 0 else Total(s[..|s| - 1], f) + f(s[|s| - 1])
  }

  function RealTotal(s: seq<Sample>, f: RealColumn): real {
    if s == [] then 0.0 else RealTotal(s[..|s| - 1], f) + f(s[|s| - 1])
  }

  lemma TotalSnoc(s: seq<Sample>, x: Sample, f: Column)
    ensures Total(s + [x], f) == Total(s, f) + f(x)
  {
    assert (s + [x])[..|s|] == s;
  }

  lemma RealTotalSnoc(s: seq<Sample>, x: Sample, f: RealColumn)
    ensures RealTotal(s + [x], f) == RealTotal(s, f) + f(x)
  {
    assert (s + [x])[..|s|] == s;
  }

  /** Removing the oldest sample. */
  lemma {:induction false} TotalTail(s: seq<Sample>, f: Column)
    requires s != []
    ensures Total(s[1..], f) == Total(s, f) - f(s[0])
  {
    if |s| == 1 {
      assert s[..0] == [];
    } else {
      TotalTail(s[..|s| - 1], f);
      assert s[1..][..|s| - 2] == s[..|s| - 1][1..];
    }
  }

  lemma {:induction false} RealTotalTail(s: seq<Sample>, f: RealColumn)
    requires s != []
    ensures RealTotal(s[1..], f) == RealTotal(s, f) - f(s[0])
  {
    if |s| == 1 {
      assert s[..0] == [];
    } else {
      RealTotalTail(s[..|s| - 1], f);
      assert s[1..][..|s| - 2] == s[..|s| - 1][1..];
    }
  }

  /** The running sums, one per column. */
  datatype Sums = Sums(
    prompt: int, cached: int, uncached: int, completion: int, completions: int, total: int, latency: real, decode: real,
    decodes: int, active: int, waiting: int, gap: real, queue: real, rounds: int, churn: int)

  function SumsOf(s: seq<Sample>): Sums {
    Sums(Total(s, PromptOf()), Total(s, CachedOf()), Total(s, UncachedOf()), Total(s, CompletionOf()),
         Total(s, HasCompletion()), Total(s, TotalOf()), RealTotal(s, LatencyOf()), RealTotal(s, DecodeOf()),
         Total(s, HasDecode()), Total(s, ActiveOf()), Total(s, WaitingOf()), RealTotal(s, GapOf()),
         RealTotal(s, QueueOf()), Total(s, RoundsOf()), Total(s, ChurnOf()))
  }

  /** Cached and uncached tokens add up to prompt tokens over any window. */
  lemma {:induction false} SplitTotals(s: seq<Sample>)
    requires forall i | 0 <= i < |s| :: SampleOk(s[i])
    ensures Total(s, CachedOf()) + Total(s, UncachedOf()) == Total(s, PromptOf())
  {
    if s != [] {
      assert forall i | 0 <= i < |s| - 1 :: s[..|s| - 1][i] == s[i];
      SplitTotals(s[..|s| - 1]);
    }
  }

  /** The last `w` of a history. */
  function LastOf<T>(history: seq<T>, w: nat): seq<T> {
    if |history| <= w then history else history[|history| - w..]
  }

  lemma LastLength<T>(history: seq<T>, w: nat)
    ensures |LastOf(history, w)| == if |history| <= w then |history| else w
  {
  }

  lemma LastAppended<T>(history: seq<T>, w: nat, x: T)
    requires w >= 1
    ensures LastOf(history + [x], w) == LastOf(LastOf(history, w) + [x], w)
    ensures |LastOf(history, w) + [x]| <= w + 1
    ensures |LastOf(history, w) + [x]| <= w ==> LastOf(history + [x], w) == LastOf(history, w) + [x]
    ensures |LastOf(history, w) + [x]| > w ==> LastOf(history + [x], w) == (LastOf(history, w) + [x])[1..]
  {
  }
}

/** The merge loop of the throughput estimate against the measure of the union of the intervals. */
module CoveredTime {
  import opened Sorting

  type Instant = real
  type Interval = (Instant, Instant)

  ghost predicate IntervalsOk(s: seq<Interval>) {
    forall i | 0 <= i < |s| :: 0.0 <= s[i].0 <= s[i].1
  }

  /** The instant lies in one of the intervals. */
  ghost predicate Inside(s: seq<Interval>, t: Instant) {
    exists i :: 0 <= i < |s| && s[i].0 <= t <= s[i].1
  }

  ghost predicate SameInstants(a: seq<Interval>, b: seq<Interval>) {
    forall t: Instant :: Inside(a, t) <==> Inside(b, t)
  }

  /** Intervals in order with a gap between any two. */
  ghost predicate Separated(parts: seq<Interval>) {
    && (forall i | 0 <= i < |parts| :: parts[i].0 <= parts[i].1)
    && (forall i, j | 0 <= i < j < |parts| :: parts[i].1 < parts[j].0)
  }

  function Length(parts: seq<Interval>): real {
    if parts == [] then 0.0 else Length(parts[..|parts| - 1]) + (parts[|parts| - 1].1 - parts[|parts| - 1].0)
  }

  /** The union of the intervals as separated parts. */
  ghost predicate Coverage(parts: seq<Interval>, s: seq<Interval>) {
    Separated(parts) && SameInstants(parts, s)
  }

  /** The measure of the union: the total length of its separated parts. */
  ghost predicate Measures(s: seq<Interval>, m: real) {
    exists parts :: Coverage(parts, s) && Length(parts) == m
  }

  /** The first parts of two separations of the same instants begin together. */
  lemma FirstStart(p: seq<Interval>, q: seq<Interval>)
    requires Separated(p) && Separated(q) && SameInstants(p, q) && p != [] && q != []
    ensures q[0].0 <= p[0].0
  {
    assert Inside(p, p[0].0);
    var j :| 0 <= j < |q| && q[j].0 <= p[0].0 <= q[j].1;
  }

  /** They also end together: just after an earlier end one separation would have a gap that the other has not. */
  lemma FirstEnd(p: seq<Interval>, q: seq<Interval>)
    requires Separated(p) && Separated(q) && SameInstants(p, q) && p != [] && q != [] && p[0].0 == q[0].0
    ensures q[0].1 <= p[0].1
  {
    if q[0].1 > p[0].1 {
      var limit := if |p| > 1 && p[1].0 < q[0].1 then p[1].0 else q[0].1;
      var t := (p[0].1 + limit) / 2.0;
      assert p[0].1 < t < limit;
      assert q[0].0 <= t <= q[0].1 && Inside(q, t);
      GapAfterFirst(p, t);
    }
  }

  lemma GapAfterFirst(p: seq<Interval>, t: Instant)
    requires Separated(p) && p != [] && p[0].1 < t && (|p| > 1 ==> t < p[1].0)
    ensures !Inside(p, t)
  {
    forall i | 0 <= i < |p| ensures !(p[i].0 <= t <= p[i].1) {
      if i > 1 { assert p[1].1 < p[i].0; }
    }
  }

  lemma InsideTail(p: seq<Interval>, t: Instant)
    requires Separated(p) && p != []
    ensures Inside(p[1..], t) <==> Inside(p, t) && p[0].1 < t
  {
    if Inside(p[1..], t) {
      var i :| 0 <= i < |p| - 1 && p[1..][i].0 <= t <= p[1..][i].1;
      assert p[i + 1].0 <= t <= p[i + 1].1 && p[0].1 < p[i + 1].0;
    }
    if Inside(p, t) && p[0].1 < t {
      var i :| 0 <= i < |p| && p[i].0 <= t <= p[i].1;
      assert p[1..][i - 1] == p[i];
    }
  }

  lemma FirstsAgree(p: seq<Interval>, q: seq<Interval>)
    requires Separated(p) && Separated(q) && SameInstants(p, q) && p != [] && q != []
    ensures p[0] == q[0]
  {
    FirstStart(p, q);
    assert SameInstants(q, p);
    FirstStart(q, p);
    FirstEnd(p, q);
    FirstEnd(q, p);
  }

  lemma TailsAgree(p: seq<Interval>, q: seq<Interval>)
    requires Separated(p) && Separated(q) && SameInstants(p, q) && p != [] && q != [] && p[0] == q[0]
    ensures SameInstants(p[1..], q[1..])
  {
    forall t: Instant ensures Inside(p[1..], t) <==> Inside(q[1..], t) {
      InsideTail(p, t);
      InsideTail(q, t);
    }
  }

  lemma TailSeparated(p: seq<Interval>)
    requires Separated(p) && p != []
    ensures Separated(p[1..])
  {
  }

  lemma BothEmpty(p: seq<Interval>, q: seq<Interval>)
    requires Separated(q) && SameInstants(p, q) && p == []
    ensures q == []
  {
    if q != [] { assert Inside(q, q[0].0); }
  }

  /** A union of intervals has one separation only. */
  lemma {:induction false} CoverageUnique(p: seq<Interval>, q: seq<Interval>)
    requires Separated(p) && Separated(q) && SameInstants(p, q) && SameInstants(q, p)
    ensures p == q
  {
    hide Separated, SameInstants, Inside;
    if p == [] {
      BothEmpty(p, q);
    } else if q == [] {
      BothEmpty(q, p);
    } else {
      FirstsAgree(p, q);
      TailsAgree(p, q);
      TailsAgree(q, p);
      TailSeparated(p);
      TailSeparated(q);
      CoverageUnique(p[1..], q[1..]);
      assert p == [p[0]] + p[1..] && q == [q[0]] + q[1..];
    }
  }

  /** Hence the measure is well defined. */
  lemma MeasureUnique(s: seq<Interval>, m: real, n: real)
    requires Measures(s, m) && Measures(s, n)
    ensures m == n
  {
    var p :| Coverage(p, s) && Length(p) == m;
    var q :| Coverage(q, s) && Length(q) == n;
    assert SameInstants(p, q);
    CoverageUnique(p, q);
  }

  /** Reordering intervals covers the same instants. */
  lemma CoveredPermuted(s: seq<Interval>, r: seq<Interval>)
    requires multiset(s) == multiset(r)
    ensures SameInstants(s, r)
  {
    forall i | 0 <= i < |s| ensures s[i] in r { assert s[i] in multiset(s) && s[i] in multiset(r); }
    forall i | 0 <= i < |r| ensures r[i] in s { assert r[i] in multiset(r) && r[i] in multiset(s); }
    forall t: Instant ensures Inside(s, t) <==> Inside(r, t) {
      if Inside(s, t) {
        var i :| 0 <= i < |s| && s[i].0 <= t <= s[i].1;
        var j :| 0 <= j < |r| && r[j] == s[i];
      }
      if Inside(r, t) {
        var i :| 0 <= i < |r| && r[i].0 <= t <= r[i].1;
        var j :| 0 <= j < |s| && s[j] == r[i];
      }
    }
  }

  function ByStart(): (Interval, Interval) -> bool {
    (a: Interval, b: Interval) => a.0 < b.0 || (a.0 == b.0 && a.1 <= b.1)
  }

  /** The closed-off parts have the covered length, and the last part is still being extended. */
  ghost predicate Merged(s: seq<Interval>, covered: real, start: Instant, end: Instant) {
    exists closed: seq<Interval> :: MergedWith(s, closed, covered, start, end)
  }

  ghost predicate MergedWith(s: seq<Interval>, closed: seq<Interval>, covered: real, start: Instant, end: Instant) {
    Coverage(closed + [(start, end)], s) && Length(closed) == covered
  }

  lemma InsideSnoc(s: seq<Interval>, x: Interval, t: Instant)
    ensures Inside(s + [x], t) <==> Inside(s, t) || x.0 <= t <= x.1
  {
    if Inside(s, t) {
      var i :| 0 <= i < |s| && s[i].0 <= t <= s[i].1;
      assert (s + [x])[i] == s[i];
    }
    assert (s + [x])[|s|] == x;
    if Inside(s + [x], t) {
      var i :| 0 <= i < |s + [x]| && (s + [x])[i].0 <= t <= (s + [x])[i].1;
      if i < |s| { assert s[i] == (s + [x])[i]; }
    }
  }

  lemma SeparatedSnoc(parts: seq<Interval>, last: Interval, x: Interval)
    requires Separated(parts + [last]) && x.0 <= x.1
    ensures last.1 < x.0 ==> Separated(parts + [last] + [x])
    ensures last.0 <= x.0 ==> Separated(parts + [x]) || last.0 != x.0
  {
    var open := parts + [last];
    assert open[|parts|] == last;
    assert forall i | 0 <= i < |parts| :: open[i] == parts[i];
  }

  lemma MergeNext(s: seq<Interval>, x: Interval, covered: real, start: Instant, end: Instant)
    requires Merged(s, covered, start, end) && start <= x.0 <= x.1
    ensures x.0 > end ==> Merged(s + [x], covered + (end - start), x.0, x.1)
    ensures x.0 <= end ==> Merged(s + [x], covered, start, if end < x.1 then x.1 else end)
  {
    var closed :| MergedWith(s, closed, covered, start, end);
    var open := closed + [(start, end)];
    assert open[|closed|] == (start, end);
    if x.0 > end {
      SeparatedSnoc(closed, (start, end), x);
      forall t: Instant ensures Inside(open + [x], t) <==> Inside(s + [x], t) {
        InsideSnoc(open, x, t);
        InsideSnoc(s, x, t);
      }
      assert open[..|closed|] == closed;
      assert MergedWith(s + [x], open, covered + (end - start), x.0, x.1);
    } else {
      var later := (start, if end < x.1 then x.1 else end);
      SeparatedSnoc(closed, (start, end), later);
      forall t: Instant ensures Inside(closed + [later], t) <==> Inside(s + [x], t) {
        InsideSnoc(closed, later, t);
        InsideSnoc(closed, (start, end), t);
        InsideSnoc(s, x, t);
      }
      assert MergedWith(s + [x], closed, covered, later.0, later.1);
    }
  }

  lemma MergedTotal(s: seq<Interval>, covered: real, start: Instant, end: Instant)
    requires Merged(s, covered, start, end)
    ensures Measures(s, covered + (end - start))
  {
    var closed :| MergedWith(s, closed, covered, start, end);
    assert (closed + [(start, end)])[..|closed|] == closed;
  }

  lemma MergeFirst(s: seq<Interval>)
    requires s != [] && s[0].0 <= s[0].1
    ensures Merged(s[..1], 0.0, s[0].0, s[0].1)
  {
    assert [] + [(s[0].0, s[0].1)] == s[..1];
    assert MergedWith(s[..1], [], 0.0, s[0].0, s[0].1);
  }

  lemma NothingMeasured()
    ensures Measures([], 0.0)
  {
    assert Coverage([], []);
  }

  lemma MeasuresSame(s: seq<Interval>, r: seq<Interval>, m: real)
    requires SameInstants(s, r) && Measures(s, m)
    ensures Measures(r, m)
  {
    var parts :| Coverage(parts, s) && Length(parts) == m;
    assert Coverage(parts, r);
  }

  lemma SortedIntervals(retained: seq<Interval>)
    requires IntervalsOk(retained)
    ensures var intervals := Sort(retained, ByStart());
      && |intervals| == |retained| && SameInstants(intervals, retained)
      && (forall i | 0 <= i < |intervals| :: intervals[i].0 <= intervals[i].1)
      && (forall i, j | 0 <= i < j < |intervals| :: intervals[i].0 <= intervals[j].0)
  {
    var intervals := Sort(retained, ByStart());
    assert TotalPreorder(ByStart());
    SortSorts(retained, ByStart());
    CoveredPermuted(intervals, retained);
    forall i | 0 <= i < |intervals| ensures intervals[i].0 <= intervals[i].1 {
      assert intervals[i] in multiset(retained);
    }
    forall i, j | 0 <= i < j < |intervals| ensures intervals[i].0 <= intervals[j].0 {
      assert ByStart()(intervals[i], intervals[j]);
    }
  }

  /** The merge loop over sorted intervals. */
  method MergeSorted(intervals: seq<Interval>) returns (covered: real)
    requires intervals != [] && (forall i | 0 <= i < |intervals| :: intervals[i].0 <= intervals[i].1)
    requires forall i, j | 0 <= i < j < |intervals| :: intervals[i].0 <= intervals[j].0
    ensures Measures(intervals, covered)
  {
    hide *;
    MergeFirst(intervals);
    covered := 0.0;
    var coveredStart, coveredEnd := intervals[0].0, intervals[0].1;
    ghost var groupFirst := 0;
    for n := 1 to |intervals|
      invariant Merged(intervals[..n], covered, coveredStart, coveredEnd)
      invariant 0 <= groupFirst < n && coveredStart == intervals[groupFirst].0
    {
      var sample := intervals[n];
      MergeNext(intervals[..n], sample, covered, coveredStart, coveredEnd);
      assert intervals[..n + 1] == intervals[..n] + [sample];
      if sample.0 > coveredEnd {
        covered := covered + (coveredEnd - coveredStart);
        coveredStart, coveredEnd := sample.0, sample.1;
        groupFirst := n;
      } else {
        coveredEnd := if coveredEnd < sample.1 then sample.1 else coveredEnd;
      }
    }
    assert intervals[..|intervals|] == intervals;
    MergedTotal(intervals, covered, coveredStart, coveredEnd);
    covered := covered + (coveredEnd - coveredStart);
  }

  /** The measure of the union of the intervals, in any order. */
  method CoveredSeconds(retained: seq<Interval>) returns (covered: real)
    requires IntervalsOk(retained)
    ensures Measures(retained, covered)
  {
    if retained == [] {
      NothingMeasured();
      covered := 0.0;
    } else {
      SortedIntervals(retained);
      hide Sort, Measures, SameInstants;
      covered := MergeSorted(Sort(retained, ByStart()));
      MeasuresSame(Sort(retained, ByStart()), retained, covered);
    }
  }
}

/** `ProgressTTLGlobalFactors`: bounded windows with running sums that stay equal to the sums over the windows. */
module RollingModel {
  import opened Wrappers
  import opened Arithmetic
  import opened RequestSamples
  import opened CoveredTime

  /** A window holds at least one entry. */
  type Window = n: nat | n >= 1 witness 1

  /** The averages derived from the request window. */
  datatype Averages = Averages(
    prompt: real, cached: real, uncached: real, completion: real, total: real, latency: real, decode: real,
    active: real,
    waiting: real, growth: real, churn: real, gap: real, queue: real, rounds: real)

  const DEFAULT_AVERAGES :=
    Averages(1024.0, 0.0, 1024.0, 256.0, 1280.0, 1.0, 1.0, 1.0, 0.0, 1024.0, 1280.0, 0.0, 0.0, 0.0)

  function Mean(s: seq<Sample>, f: Column): real
    requires s != []
  {
    Total(s, f) as real / |s| as real
  }

  function RealMean(s: seq<Sample>, f: RealColumn): real
    requires s != []
  {
    RealTotal(s, f) / |s| as real
  }

  /** Window means; the optional columns keep their last value while the window has no entry for them. */
  ghost predicate AreMeans(a: Averages, s: seq<Sample>)
    requires s != []
  {
    && a.prompt == Mean(s, PromptOf()) && a.cached == Mean(s, CachedOf()) && a.uncached == Mean(s, UncachedOf())
    && a.total == Mean(s, TotalOf()) && a.latency == RealMean(s, LatencyOf()) && a.active == Mean(s, ActiveOf())
    && a.waiting == Mean(s, WaitingOf()) && a.churn == Mean(s, ChurnOf()) && a.gap == RealMean(s, GapOf())
    && a.queue == RealMean(s, QueueOf()) && a.rounds == Mean(s, RoundsOf())
    && (Total(s, HasCompletion()) > 0 ==>
        a.completion == Total(s, CompletionOf()) as real / Total(s, HasCompletion()) as real)
    && (Total(s, HasDecode()) > 0 ==> a.decode == RealTotal(s, DecodeOf()) / Total(s, HasDecode()) as real)
    && (Total(s, HasGrowth()) > 0 ==> a.growth == Total(s, GrowthOf()) as real / Total(s, HasGrowth()) as real)
  }

  function Refreshed(a: Averages, sums: Sums, growth: int, growths: int, count: nat): Averages
    requires count > 0
  {
    var n := count as real;
    Averages(
      sums.prompt as real / n, sums.cached as real / n, sums.uncached as real / n,
      if sums.completions > 0 then sums.completion as real / sums.completions as real else a.completion,
      sums.total as real / n, sums.latency / n,
      if sums.decodes > 0 then sums.decode / sums.decodes as real else a.decode,
      sums.active as real / n, sums.waiting as real / n,
      if growths > 0 then growth as real / growths as real else a.growth,
      sums.churn as real / n, sums.gap / n, sums.queue / n, sums.rounds as real / n)
  }

  lemma SplitMeans(a: Averages, s: seq<Sample>)
    requires s != [] && AreMeans(a, s) && AllOk(s)
    ensures a.cached + a.uncached == a.prompt
  {
    SplitTotals(s);
    var n := |s| as real;
    assert (Total(s, CachedOf()) + Total(s, UncachedOf())) as real / n
        == Total(s, CachedOf()) as real / n + Total(s, UncachedOf()) as real / n;
  }

  ghost predicate AllOk(s: seq<Sample>) {
    forall i | 0 <= i < |s| :: SampleOk(s[i])
  }

  /** The optional averages keep their value while nothing in the window reports them. */
  ghost predicate KeepsUnobserved(a: Averages, before: Averages, s: seq<Sample>) {
    && (Total(s, HasCompletion()) == 0 ==> a.completion == before.completion)
    && (Total(s, HasDecode()) == 0 ==> a.decode == before.decode)
    && (Total(s, HasGrowth()) == 0 ==> a.growth == before.growth)
  }

  lemma RefreshedMeans(a: Averages, s: seq<Sample>, growth: int, growths: int)
    requires s != [] && growth == Total(s, GrowthOf()) && growths == Total(s, HasGrowth())
    ensures AreMeans(Refreshed(a, SumsOf(s), growth, growths, |s|), s)
    ensures KeepsUnobserved(Refreshed(a, SumsOf(s), growth, growths, |s|), a, s)
  {
    hide Total, RealTotal;
  }

  lemma WindowSlides(history: seq<Sample>, w: Window, x: Sample)
    ensures LastOf(LastOf(history, w) + [x], w) == LastOf(history + [x], w)
    ensures AllOk(LastOf(history, w)) && SampleOk(x) ==> AllOk(LastOf(history + [x], w))
  {
    hide SampleOk;
    LastAppended(history, w, x);
  }

  /** Completed tool-call intervals; the assigned TTLs come from an estimator that is not modelled. */
  datatype Continuity = Continuity(interval: real, impact: real, ttl: real, utility: real)

  function Utility(interval: real, impact: real, ttl: real): real {
    if interval <= ttl then impact - interval else -ttl
  }

  function Observation(interval: real, impact: real, ttl: real): Continuity {
    Continuity(interval, impact, ttl, Utility(interval, impact, ttl))
  }

  /** The same observations, each with the utility of the TTL it is now accounted with. */
  ghost predicate Reassigned(s: seq<Continuity>, observed: seq<Continuity>) {
    && |s| == |observed|
    && forall i | 0 <= i < |s| ::
         && s[i].interval == observed[i].interval && s[i].impact == observed[i].impact
         && s[i].utility == Utility(s[i].interval, s[i].impact, s[i].ttl)
  }

  /** A new observation enters both windows and pushes the same oldest entry out of both. */
  lemma ReassignedSlides(s: seq<Continuity>, history: seq<Continuity>, w: Window, x: Continuity)
    requires Reassigned(s, LastOf(history, w)) && x.utility == Utility(x.interval, x.impact, x.ttl)
    ensures Reassigned(LastOf(s + [x], w), LastOf(history + [x], w))
    ensures |s| <= w && LastOf(s + [x], w) == if |s + [x]| > w then (s + [x])[1..] else s + [x]
  {
    LastAppended(history, w, x);
    LastLength(history, w);
  }

  function UtilityTotal(s: seq<Continuity>): real {
    if s == [] then 0.0 else UtilityTotal(s[..|s| - 1]) + s[|s| - 1].utility
  }

  function RoundsTotal(s: seq<int>): int {
    if s == [] then 0 else RoundsTotal(s[..|s| - 1]) + s[|s| - 1]
  }

  lemma RoundsSnoc(s: seq<int>, x: int)
    ensures RoundsTotal(s + [x]) == RoundsTotal(s) + x
  {
    assert (s + [x])[..|s|] == s;
  }

  lemma {:induction false} RoundsTail(s: seq<int>)
    requires s != []
    ensures RoundsTotal(s[1..]) == RoundsTotal(s) - s[0]
  {
    if |s| == 1 {
      assert s[..0] == [];
    } else {
      RoundsTail(s[..|s| - 1]);
      assert s[1..][..|s| - 2] == s[..|s| - 1][1..];
    }
  }

  class RollingFactors {
    const windowSize: Window
    const minSamples: nat
    var requestCount: nat
    var samples: seq<Sample>
    var sums: Sums
    var averages: Averages
    var pauseRounds: seq<int>
    var pauseRoundsSum: int
    var averagePauseRounds: real
    var intervals: seq<Interval>
    var continuity: seq<Continuity>
    var continuityUtility: real
    var continuityEnabled: bool
    /** Everything ever observed. */
    ghost var history: seq<Sample>
    ghost var pauseHistory: seq<int>
    ghost var intervalHistory: seq<Interval>
    ghost var continuityHistory: seq<Continuity>

    /** The window holds the last samples, the sums are its sums, and mature averages are its means. */
    ghost predicate RequestsValid()
      reads `requestCount, `samples, `sums, `averages, `history
    {
      && 1 <= minSamples <= windowSize
      && requestCount == |history| && samples == LastOf(history, windowSize) && sums == SumsOf(samples)
      && AllOk(samples) && averages.cached + averages.uncached == averages.prompt
      && (|samples| >= minSamples ==> AreMeans(averages, samples))
    }

    ghost predicate PausesValid()
      reads `pauseRounds, `pauseRoundsSum, `averagePauseRounds, `pauseHistory
    {
      && 1 <= minSamples
      && pauseRounds == LastOf(pauseHistory, windowSize) && pauseRoundsSum == RoundsTotal(pauseRounds)
      && (|pauseRounds| >= minSamples ==> averagePauseRounds == pauseRoundsSum as real / |pauseRounds| as real)
    }

    ghost predicate IntervalsValid()
      reads `intervals, `intervalHistory
    {
      intervals == LastOf(intervalHistory, windowSize) && IntervalsOk(intervals)
    }

    /** Recalibration may replace assigned TTLs and with them utilities, but never an observed interval or impact. */
    ghost predicate ContinuityValid()
      reads `continuity, `continuityUtility, `continuityHistory
    {
      && Reassigned(continuity, LastOf(continuityHistory, windowSize))
      && (|continuity| >= windowSize ==> continuityUtility == UtilityTotal(continuity))
    }

    /** The windows are the last observations and every running sum is the sum over its window. */
    ghost predicate Valid()
      reads this
    {
      RequestsValid() && PausesValid() && IntervalsValid() && ContinuityValid()
    }

    constructor (windowSize: Window, minFraction: real)
      requires 0.0 < minFraction <= 1.0
      ensures Valid() && history == [] && pauseHistory == [] && intervalHistory == [] && continuityHistory == []
      ensures averages == DEFAULT_AVERAGES && !continuityEnabled
      ensures this.windowSize == windowSize
    {
      FractionFloor(windowSize, minFraction);
      this.windowSize := windowSize;
      minSamples := Max(1, (windowSize as real * minFraction).Floor);
      requestCount, samples, sums, averages := 0, [], SumsOf([]), DEFAULT_AVERAGES;
      pauseRounds, pauseRoundsSum, averagePauseRounds := [], 0, 1.0;
      intervals, continuity, continuityUtility, continuityEnabled := [], [], 0.0, false;
      history, pauseHistory, intervalHistory, continuityHistory := [], [], [], [];
    }

    /** Rejects a negative decode duration; otherwise the window slides by one sanitized sample. */
    method UpdateRequest(raw: RawRequest) returns (ok: bool)
      requires Valid()
      modifies `requestCount, `samples, `sums, `averages, `history
      ensures Valid()
      ensures ok <==> (raw.decode.Some? ==> raw.decode.value >= 0.0)
      ensures !ok ==> history == old(history) && averages == old(averages)
      ensures ok ==> history == old(history) + [Sanitized(raw)]
      ensures |samples| < minSamples ==> averages == old(averages)
      ensures ok && |samples| >= minSamples ==>
        AreMeans(averages, samples) && KeepsUnobserved(averages, old(averages), samples)
    {
      hide KeepsUnobserved;
      hide AreMeans, SumsOf, SampleOk, Sanitized, AllOk, LastOf, PausesValid, IntervalsValid, ContinuityValid;
      if raw.decode.Some? && raw.decode.value < 0.0 { return false; }
      var sample := Sanitized(raw);
      SanitizedOk(raw);
      WindowSlides(history, windowSize, sample);
      requestCount := requestCount + 1;
      Append(sample);
      Evict();
      history := history + [sample];
      Refresh();
      ok := true;
    }

    method Append(sample: Sample)
      requires sums == SumsOf(samples)
      modifies `samples, `sums
      ensures samples == old(samples) + [sample] && sums == SumsOf(samples)
    {
      SumsAppended(samples, sample);
      samples := samples + [sample];
      sums := Sums(
        sums.prompt + sample.prompt, sums.cached + sample.cached, sums.uncached + sample.uncached,
        if sample.completion.Some? then sums.completion + sample.completion.value else sums.completion,
        if sample.completion.Some? then sums.completions + 1 else sums.completions,
        sums.total + sample.total, sums.latency + sample.latency,
        if sample.decode.Some? then sums.decode + sample.decode.value else sums.decode,
        if sample.decode.Some? then sums.decodes + 1 else sums.decodes,
        sums.active + sample.active, sums.waiting + sample.waiting, sums.gap + sample.gap, sums.queue + sample.queue,
        sums.rounds + sample.roundsSincePause, sums.churn + sample.churn);
    }

    method RemoveOldest()
      requires sums == SumsOf(samples) && samples != []
      modifies `samples, `sums
      ensures samples == old(samples)[1..] && sums == SumsOf(samples)
    {
      var sample := samples[0];
      SumsRemoved(samples);
      samples := samples[1..];
      sums := Sums(
        sums.prompt - sample.prompt, sums.cached - sample.cached, sums.uncached - sample.uncached,
        if sample.completion.Some? then sums.completion - sample.completion.value else sums.completion,
        if sample.completion.Some? then sums.completions - 1 else sums.completions,
        sums.total - sample.total, sums.latency - sample.latency,
        if sample.decode.Some? then sums.decode - sample.decode.value else sums.decode,
        if sample.decode.Some? then sums.decodes - 1 else sums.decodes,
        sums.active - sample.active, sums.waiting - sample.waiting, sums.gap - sample.gap, sums.queue - sample.queue,
        sums.rounds - sample.roundsSincePause, sums.churn - sample.churn);
    }

    /** Drops the oldest samples until the window fits. */
    method Evict()
      requires sums == SumsOf(samples)
      modifies `samples, `sums
      ensures samples == LastOf(old(samples), windowSize) && sums == SumsOf(samples)
    {
      hide SumsOf;
      while |samples| > windowSize
        invariant sums == SumsOf(samples)
        invariant |samples| <= |old(samples)| && samples == old(samples)[|old(samples)| - |samples|..]
        invariant |samples| >= windowSize || samples == old(samples)
        decreases |samples|
      {
        RemoveOldest();
      }
    }

    /** Recomputes the averages once the window is mature enough. */
    method Refresh()
      requires sums == SumsOf(samples) && minSamples >= 1 && AllOk(samples)
      modifies `averages
      ensures |samples| < minSamples ==> averages == old(averages)
      ensures |samples| >= minSamples ==>
        AreMeans(averages, samples) && averages.cached + averages.uncached == averages.prompt
      ensures |samples| >= minSamples ==> KeepsUnobserved(averages, old(averages), samples)
    {
      hide *;
      if |samples| < minSamples { return; }
      var growth, growths := GrowthTotals();
      RefreshedMeans(averages, samples, growth, growths);
      averages := Refreshed(averages, sums, growth, growths, |samples|);
      SplitMeans(averages, samples);
    }

    /** The growth column has no running sum: it is added up over the window. */
    method GrowthTotals() returns (growth: int, growths: int)
      ensures growth == Total(samples, GrowthOf()) && growths == Total(samples, HasGrowth())
    {
      growth, growths := 0, 0;
      for n := 0 to |samples|
        invariant growth == Total(samples[..n], GrowthOf()) && growths == Total(samples[..n], HasGrowth())
      {
        assert samples[..n + 1] == samples[..n] + [samples[n]];
        TotalSnoc(samples[..n], samples[n], GrowthOf());
        TotalSnoc(samples[..n], samples[n], HasGrowth());
        if samples[n].growth.Some? {
          growth, growths := growth + samples[n].growth.value, growths + 1;
        }
      }
      assert samples[..|samples|] == samples;
    }

    method UpdateTtlPause(servedRounds: int)
      requires Valid()
      modifies `pauseRounds, `pauseRoundsSum, `averagePauseRounds, `pauseHistory
      ensures Valid() && pauseHistory == old(pauseHistory) + [Max(servedRounds, 0)]
    {
      hide RequestsValid, IntervalsValid, ContinuityValid, LastOf, RoundsTotal;
      var rounds := Max(servedRounds, 0);
      LastAppended(pauseHistory, windowSize, rounds);
      RoundsSnoc(pauseRounds, rounds);
      pauseRounds := pauseRounds + [rounds];
      pauseRoundsSum := pauseRoundsSum + rounds;
      // At most one entry is over the limit.
      while |pauseRounds| > windowSize
        invariant pauseHistory == old(pauseHistory) && pauseRoundsSum == RoundsTotal(pauseRounds)
        invariant |pauseRounds| > windowSize ==> pauseRounds == LastOf(pauseHistory, windowSize) + [rounds]
        invariant |pauseRounds| <= windowSize ==> pauseRounds == LastOf(pauseHistory + [rounds], windowSize)
        decreases |pauseRounds|
      {
        RoundsTail(pauseRounds);
        pauseRoundsSum := pauseRoundsSum - pauseRounds[0];
        pauseRounds := pauseRounds[1..];
      }
      pauseHistory := pauseHistory + [rounds];
      if |pauseRounds| >= minSamples { averagePauseRounds := pauseRoundsSum as real / |pauseRounds| as real; }
    }

    /** Rejects unordered or negative intervals. */
    method ObserveRequestInterval(started: Instant, finished: Instant) returns (ok: bool)
      requires Valid()
      modifies `intervals, `intervalHistory
      ensures Valid() && (ok <==> 0.0 <= started <= finished)
      ensures intervalHistory == if ok then old(intervalHistory) + [(started, finished)] else old(intervalHistory)
    {
      hide RequestsValid, PausesValid, ContinuityValid;
      if started < 0.0 || finished < started { return false; }
      LastAppended(intervalHistory, windowSize, (started, finished));
      intervals := intervals + [(started, finished)];
      if |intervals| > windowSize { intervals := intervals[1..]; }
      intervalHistory := intervalHistory + [(started, finished)];
      ok := true;
    }

    /** Completions per covered second: throughput times covered time is the number of retained completions. */
    method RequestThroughput() returns (perSecond: real)
      requires Valid()
      ensures exists m :: Measures(intervals, m)
      ensures forall m | Measures(intervals, m) ::
        if m > 0.0 then perSecond * m == |intervals| as real else perSecond == 0.0
    {
      hide RequestsValid, PausesValid, ContinuityValid, Measures;
      var covered := CoveredSeconds(intervals);
      forall m | Measures(intervals, m) ensures m == covered { MeasureUnique(intervals, m, covered); }
      perSecond := if covered <= 0.0 then 0.0 else |intervals| as real / covered;
    }

    method ObserveContinuity(interval: real, impact: real, ttl: real) returns (sample: Continuity)
      requires Valid()
      modifies `continuity, `continuityUtility, `continuityHistory
      ensures Valid() && continuityHistory == old(continuityHistory) + [sample]
      ensures sample == Observation(MaxReal(0.0, interval), MaxReal(0.0, impact), MaxReal(0.0, ttl))
      ensures continuity == LastOf(old(continuity) + [sample], windowSize)
      ensures |continuity| < windowSize ==> continuityUtility == old(continuityUtility)
    {
      hide RequestsValid, PausesValid, IntervalsValid;
      hide LastOf, UtilityTotal, Reassigned;
      var i, c, t := MaxReal(0.0, interval), MaxReal(0.0, impact), MaxReal(0.0, ttl);
      sample := Continuity(i, c, t, if i <= t then c - i else -t);
      ReassignedSlides(continuity, continuityHistory, windowSize, sample);
      continuity := continuity + [sample];
      if |continuity| > windowSize { continuity := continuity[1..]; }
      continuityHistory := continuityHistory + [sample];
      if |continuity| >= windowSize { continuityUtility := UtilityTotal(continuity); }
    }

    /** Re-estimates every retained TTL once the window is complete, whatever the estimator returns for a sample's
        impact and the given ratio; an incomplete window is left alone before the ratio is looked at. */
    method RecalibrateContinuity(estimate: (real, real) -> real, ratio: real)
      returns (r: Result<Option<Continuity>, RatioError>)
      requires Valid()
      modifies `continuity, `continuityUtility
      ensures Valid() && |continuity| == |old(continuity)|
      ensures r.Err? <==> |continuity| >= windowSize && !(0.0 <= ratio <= 1.0)
      ensures r == Ok(None) <==> |continuity| < windowSize
      ensures r.Err? || r == Ok(None) ==> continuity == old(continuity)
      ensures r.Ok? && r.value.Some? ==>
        && |continuity| > 0 && r.value.value == continuity[|continuity| - 1]
        && forall i | 0 <= i < |continuity| :: continuity[i] == Reestimated(old(continuity)[i], estimate, ratio)
    {
      hide RequestsValid, PausesValid, IntervalsValid;
      if |continuity| < windowSize { return Ok(None); }
      if !(0.0 <= ratio <= 1.0) { return Err(RATIO_OUT_OF_RANGE); }
      var next: seq<Continuity> := [];
      for n := 0 to |continuity|
        invariant |next| == n
        invariant forall i | 0 <= i < n :: next[i] == Reestimated(continuity[i], estimate, ratio)
      {
        var c := continuity[n];
        var ttl := estimate(c.impact, ratio);
        next := next + [Continuity(c.interval, c.impact, ttl, Utility(c.interval, c.impact, ttl))];
      }
      continuity := next;
      continuityUtility := UtilityTotal(continuity);
      r := Ok(Some(continuity[|continuity| - 1]));
    }

    /** Hysteresis: between the two thresholds the mode stays as it was. Nothing is returned for thresholds out of
        order. */
    method UpdateContinuityMode(enable: real, disable: real) returns (changed: Option<bool>)
      requires Valid()
      modifies `continuityEnabled
      ensures Valid()
      ensures changed.None? <==> |continuity| >= windowSize && !(0.0 <= disable <= enable)
      ensures changed.Some? ==> changed.value == (continuityEnabled != old(continuityEnabled))
      ensures continuityEnabled ==
        if changed.None? || |continuity| < windowSize || disable <= continuityUtility < enable
          then old(continuityEnabled)
        else continuityUtility >= enable
    {
      if |continuity| < windowSize { return Some(false); }
      if !(0.0 <= disable <= enable) { return None; }
      var previous := continuityEnabled;
      if continuityEnabled {
        if continuityUtility < disable { continuityEnabled := false; }
      } else if continuityUtility >= enable {
        continuityEnabled := true;
      }
      changed := Some(previous != continuityEnabled);
    }
  }

  datatype RatioError = RATIO_OUT_OF_RANGE

  function Reestimated(c: Continuity, estimate: (real, real) -> real, ratio: real): Continuity {
    Observation(c.interval, c.impact, estimate(c.impact, ratio))
  }

  lemma FractionFloor(windowSize: nat, minFraction: real)
    requires windowSize >= 1 && 0.0 < minFraction <= 1.0
    ensures (windowSize as real * minFraction).Floor <= windowSize
  {
    assert windowSize as real * minFraction <= windowSize as real;
  }

  lemma SumsAppended(s: seq<Sample>, x: Sample)
    ensures var a, b := SumsOf(s), SumsOf(s + [x]);
      && b.prompt == a.prompt + x.prompt && b.cached == a.cached + x.cached && b.uncached == a.uncached + x.uncached
      && b.completion == a.completion + CompletionOf()(x) && b.completions == a.completions + HasCompletion()(x)
      && b.total == a.total + x.total && b.latency == a.latency + x.latency && b.decode == a.decode + DecodeOf()(x)
      && b.decodes == a.decodes + HasDecode()(x) && b.active == a.active + x.active
        && b.waiting == a.waiting + x.waiting
      && b.gap == a.gap + x.gap && b.queue == a.queue + x.queue && b.rounds == a.rounds + x.roundsSincePause
      && b.churn == a.churn + x.churn
  {
    hide Total, RealTotal;
    forall f: Column ensures Total(s + [x], f) == Total(s, f) + f(x) { TotalSnoc(s, x, f); }
    forall f: RealColumn ensures RealTotal(s + [x], f) == RealTotal(s, f) + f(x) { RealTotalSnoc(s, x, f); }
  }

  lemma SumsRemoved(s: seq<Sample>)
    requires s != []
    ensures var a, b, x := SumsOf(s), SumsOf(s[1..]), s[0];
      && b.prompt == a.prompt - x.prompt && b.cached == a.cached - x.cached && b.uncached == a.uncached - x.uncached
      && b.completion == a.completion - CompletionOf()(x) && b.completions == a.completions - HasCompletion()(x)
      && b.total == a.total - x.total && b.latency == a.latency - x.latency && b.decode == a.decode - DecodeOf()(x)
      && b.decodes == a.decodes - HasDecode()(x) && b.active == a.active - x.active
        && b.waiting == a.waiting - x.waiting
      && b.gap == a.gap - x.gap && b.queue == a.queue - x.queue && b.rounds == a.rounds - x.roundsSincePause
      && b.churn == a.churn - x.churn
  {
    hide Total, RealTotal;
    forall f: Column ensures Total(s[1..], f) == Total(s, f) - f(s[0]) { TotalTail(s, f); }
    forall f: RealColumn ensures RealTotal(s[1..], f) == RealTotal(s, f) - f(s[0]) { RealTotalTail(s, f); }
  }
}
