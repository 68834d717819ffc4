/** The fetch planner: which sub-ranges of a requested window must be fetched, given the
    stored coverage.  `Wanted` says it one instant at a time; `Plan` and its stages reach it
    by clipping, coalescing, subtracting, forgiving and merging intervals. */
module Planner {
  import opened Timeline
  import opened Sorting

  /** A request: the window asked for, the clock, and the timeframe's two durations. */
  datatype Window = Window(start: Time, end: Time, now: Time, ttl: Time, live: Time) {
    /** Instants at or after this one are live: upstream may still change them. */
    function LiveStart(): Time { now - live }
    /** Fetches stamped at or after this one are fresh. */
    function FreshAfter(): Time { now - ttl }
  }

  // ---- the plan, one instant at a time ----

  /** Some stored interval holds the instant: it is history there, or its fetch is fresh. */
  ghost predicate Held(ivs: seq<Interval>, w: Window, p: Time) {
    exists iv :: iv in ivs && Covers(iv, p) && (p < w.LiveStart() || iv.fetchedAt >= w.FreshAfter())
  }

  /** The instants of the window that no stored interval holds. */
  ghost function NeedOf(ivs: seq<Interval>, w: Window): iset<Time> {
    iset p: Time | w.start <= p < w.end && !Held(ivs, w, p)
  }

  /** A run of needed instants starts at `a`, reaches the end of the window, is preceded by a
      held instant and is no older than the ttl. */
  ghost predicate TailStart(need: iset<Time>, w: Window, a: Time) {
    && w.start < a < w.end
    && w.FreshAfter() < a
    && a - 1 !in need
    && forall q :: a <= q < w.end ==> q in need
  }

  ghost predicate InWindow(need: iset<Time>, w: Window) {
    forall p :: p in need ==> w.start <= p < w.end
  }

  ghost predicate Forgiven(need: iset<Time>, w: Window, p: Time) {
    exists a :: a <= p < w.end && TailStart(need, w, a)
  }

  ghost predicate Kept(need: iset<Time>, w: Window, p: Time) {
    p in need && !Forgiven(need, w, p)
  }

  /** [lo, hi) is a run of instants not kept, at most a minute long, between two kept ones. */
  ghost predicate SliverRun(need: iset<Time>, w: Window, lo: Time, hi: Time) {
    && lo < hi <= lo + SLIVER_THRESHOLD
    && Kept(need, w, lo - 1) && Kept(need, w, hi)
    && forall q :: lo <= q < hi ==> !Kept(need, w, q)
  }

  ghost predicate Sliver(need: iset<Time>, w: Window, p: Time) {
    exists lo, hi :: lo <= p < hi && SliverRun(need, w, lo, hi)
  }

  ghost predicate Wanted(need: iset<Time>, w: Window, p: Time) {
    Kept(need, w, p) || Sliver(need, w, p)
  }

  ghost function WantedSet(need: iset<Time>, w: Window): iset<Time> {
    iset p: Time | Wanted(need, w, p)
  }

  /** The maximal runs of wanted instants. */
  ghost function PlanOf(need: iset<Time>, w: Window): seq<Range> {
    RunsOf(WantedSet(need, w), w.start, w.end)
  }

  ghost function PlanSpec(ivs: seq<Interval>, w: Window): seq<Range> {
    PlanOf(NeedOf(ivs, w), w)
  }

  // ---- coalesce ----

  ghost predicate NonEmptyIntervals(ivs: seq<Interval>) {
    forall iv :: iv in ivs ==> iv.from < iv.to
  }

  function RangesOf(ivs: seq<Interval>): (rs: seq<Range>)
    ensures |rs| == |ivs|
    ensures forall i :: 0 <= i < |ivs| ==> rs[i] == Range(ivs[i].from, ivs[i].to)
  {
    seq(|ivs|, i requires 0 <= i < |ivs| => Range(ivs[i].from, ivs[i].to))
  }

  /** Some merged interval contains `x` and is stamped no earlier. */
  ghost predicate Absorbs(out: seq<Interval>, x: Interval) {
    exists o :: o in out && Spans(o, x.from, x.to) && x.fetchedAt <= o.fetchedAt
  }

  /** Some member inside `o` has its stamp. */
  ghost predicate Stamps(ins: seq<Interval>, o: Interval) {
    exists x :: x in ins && Spans(o, x.from, x.to) && x.fetchedAt == o.fetchedAt
  }

  /** Each merged interval carries the greatest stamp among the members it absorbed. */
  ghost predicate StampsAreMaxima(out: seq<Interval>, ins: seq<Interval>) {
    && (forall x :: x in ins ==> Absorbs(out, x))
    && (forall o :: o in out ==> Stamps(ins, o))
  }

  /** One interval meets the last merged one: extend it, or start a new one. */
  function Meet(out: seq<Interval>, iv: Interval): (r: seq<Interval>)
    requires out != []
    ensures r != []
  {
    var last := out[|out| - 1];
    if iv.from <= last.to then
      out[|out| - 1 := Interval(last.from, MaxTime(last.to, iv.to), MaxTime(last.fetchedAt, iv.fetchedAt))]
    else
      out + [iv]
  }

  lemma MeetSeparated(out: seq<Interval>, iv: Interval)
    requires out != [] && Separated(RangesOf(out), 0)
    requires out[|out| - 1].from <= iv.from < iv.to
    ensures Separated(RangesOf(Meet(out, iv)), 0)
  {
    var n := |out| - 1;
    var before, after := RangesOf(out), RangesOf(Meet(out, iv));
    assert forall i :: 0 <= i < n ==> after[i] == before[i];
    assert forall i :: 0 <= i < n ==> before[n].from - before[i].to > 0;
    assert after[n].from == before[n].from;
  }

  lemma MeetCovers(out: seq<Interval>, iv: Interval, p: Time)
    requires out != [] && out[|out| - 1].from <= iv.from
    requires out[|out| - 1].from < out[|out| - 1].to
    ensures Covered(Meet(out, iv), p) <==> Covered(out, p) || Covers(iv, p)
  {
    var r := Meet(out, iv);
    var n := |out| - 1;
    if Covered(r, p) {
      var k :| 0 <= k < |r| && Covers(r[k], p);
      if k < n || |r| > |out| {
        assert r[k] in out || r[k] == iv;
      } else {
        assert out[n] in out;
        assert Covers(out[n], p) || Covers(iv, p);
      }
    }
    if Covered(out, p) {
      var k :| 0 <= k < |out| && Covers(out[k], p);
      assert r[k] in r && Covers(r[k], p);
    }
    if Covers(iv, p) {
      assert r[|r| - 1] in r && Covers(r[|r| - 1], p);
    }
  }

  lemma MeetStamps(out: seq<Interval>, seen: seq<Interval>, iv: Interval)
    requires out != [] && out[|out| - 1].from <= iv.from
    requires StampsAreMaxima(out, seen)
    ensures StampsAreMaxima(Meet(out, iv), seen + [iv])
  {
    forall x | x in seen + [iv] ensures Absorbs(Meet(out, iv), x) {
      MeetAbsorbs(out, seen, iv, x);
    }
    forall o | o in Meet(out, iv) ensures Stamps(seen + [iv], o) {
      MeetStamped(out, seen, iv, o);
    }
  }

  lemma MeetAbsorbs(out: seq<Interval>, seen: seq<Interval>, iv: Interval, x: Interval)
    requires out != [] && out[|out| - 1].from <= iv.from
    requires x in seen ==> Absorbs(out, x)
    requires x in seen + [iv]
    ensures Absorbs(Meet(out, iv), x)
  {
    var r := Meet(out, iv);
    if x in seen {
      var o :| o in out && Spans(o, x.from, x.to) && x.fetchedAt <= o.fetchedAt;
      var k :| 0 <= k < |out| && out[k] == o;
      assert r[k] in r && Spans(r[k], x.from, x.to) && x.fetchedAt <= r[k].fetchedAt;
    } else {
      var o := r[|r| - 1];
      assert o in r && Spans(o, x.from, x.to) && x.fetchedAt <= o.fetchedAt;
    }
  }

  lemma MeetStamped(out: seq<Interval>, seen: seq<Interval>, iv: Interval, o: Interval)
    requires out != [] && out[|out| - 1].from <= iv.from
    requires forall o' :: o' in out ==> Stamps(seen, o')
    requires o in Meet(out, iv)
    ensures Stamps(seen + [iv], o)
  {
    if o in out {
      var x :| x in seen && Spans(o, x.from, x.to) && x.fetchedAt == o.fetchedAt;
      assert x in seen + [iv];
    } else if o.fetchedAt == iv.fetchedAt {
      assert iv in seen + [iv] && Spans(o, iv.from, iv.to);
    } else {
      var last := out[|out| - 1];
      assert last in out;
      var x :| x in seen && Spans(last, x.from, x.to) && x.fetchedAt == last.fetchedAt;
      assert x in seen + [iv] && Spans(o, x.from, x.to);
    }
  }

  /** Merges overlapping and touching intervals; non-empty ones into the unique separated list
      with the same instants, each carrying the greatest stamp in its group. */
  method Coalesce(ins: seq<Interval>) returns (out: seq<Interval>)
    ensures out == [] <==> ins == []
    ensures NonEmptyIntervals(ins) ==> CoalescedFrom(out, ins)
  {
    if |ins| == 0 {
      return [];
    }
    var s := SortSlice(ins, (iv: Interval) => iv.from);
    PermutationMembers(s, ins);
    out := [s[0]];
    for i := 1 to |s|
      invariant out == Merged(s, i)
    {
      var iv, n := s[i], |out| - 1;
      var last := out[n];
      if iv.from <= last.to {
        if iv.to > last.to {
          last := last.(to := iv.to);
        }
        if iv.fetchedAt > last.fetchedAt {
          last := last.(fetchedAt := iv.fetchedAt);
        }
        out := out[n := last];
        continue;
      }
      out := out + [iv];
    }
    if NonEmptyIntervals(ins) {
      SortedByFrom(s, ins);
      MergedWhole(s, ins);
    }
  }

  /** Separated, with the same instants, each stamp the greatest in its group. */
  ghost predicate CoalescedFrom(out: seq<Interval>, ins: seq<Interval>) {
    && Separated(RangesOf(out), 0)
    && (forall p :: Covered(out, p) <==> Covered(ins, p))
    && StampsAreMaxima(out, ins)
  }

  /** The first n intervals met one after the other. */
  ghost function Merged(s: seq<Interval>, n: nat): (out: seq<Interval>)
    requires 0 < n <= |s|
    ensures out != []
  {
    if n == 1 then [s[0]] else Meet(Merged(s, n - 1), s[n - 1])
  }

  lemma {:induction false} MergedExact(s: seq<Interval>, n: nat)
    requires 0 < n <= |s| && AscendingFroms(s) && NonEmptyIntervals(s)
    ensures CoalescedPrefix(Merged(s, n), s, n)
  {
    if n == 1 {
      FirstCoalesced(s);
    } else {
      MergedExact(s, n - 1);
      CoalesceStep(Merged(s, n - 1), s, n - 1);
    }
  }

  ghost predicate CoalescedPrefix(out: seq<Interval>, s: seq<Interval>, i: nat)
    requires 0 < i <= |s|
  {
    && out != [] && Separated(RangesOf(out), 0)
    && out[|out| - 1].from <= s[i - 1].from
    && (forall p :: Covered(out, p) <==> Covered(s[..i], p))
    && StampsAreMaxima(out, s[..i])
  }

  ghost predicate AscendingFroms(s: seq<Interval>) {
    forall i, j :: 0 <= i < j < |s| ==> s[i].from <= s[j].from
  }

  lemma SortedByFrom(s: seq<Interval>, ins: seq<Interval>)
    requires multiset(s) == multiset(ins) && SortedBy(s, (iv: Interval) => iv.from)
    requires NonEmptyIntervals(ins)
    ensures |s| == |ins| && AscendingFroms(s) && NonEmptyIntervals(s)
    ensures forall iv :: iv in s <==> iv in ins
  {
    PermutationMembers(s, ins);
    var key := (iv: Interval) => iv.from;
    forall i, j | 0 <= i < j < |s| ensures s[i].from <= s[j].from {
      assert key(s[i]) <= key(s[j]);
    }
  }

  lemma FirstCoalesced(s: seq<Interval>)
    requires s != [] && NonEmptyIntervals(s)
    ensures CoalescedPrefix([s[0]], s, 1)
  {
    assert s[..1] == [s[0]] && s[0] in s;
    var one := [s[0]];
    assert s[0] in one && Spans(s[0], s[0].from, s[0].to);
    assert Absorbs(one, s[0]) && Stamps(one, s[0]);
  }

  lemma CoalesceStep(out: seq<Interval>, s: seq<Interval>, i: nat)
    requires 0 < i < |s| && AscendingFroms(s) && NonEmptyIntervals(s)
    requires CoalescedPrefix(out, s, i)
    ensures CoalescedPrefix(Meet(out, s[i]), s, i + 1)
  {
    assert s[i] in s;
    assert s[..i + 1] == s[..i] + [s[i]];
    MeetSeparated(out, s[i]);
    assert RangesOf(out)[|out| - 1].from < RangesOf(out)[|out| - 1].to;
    forall p ensures Covered(Meet(out, s[i]), p) <==> Covered(s[..i + 1], p) {
      MeetCovers(out, s[i], p);
      CoveredConcat(s[..i], [s[i]], p);
      CoveredSingle(s[i], p);
    }
    MeetStamps(out, s[..i], s[i]);
  }

  lemma MergedWhole(s: seq<Interval>, ins: seq<Interval>)
    requires s != [] && AscendingFroms(s) && NonEmptyIntervals(s)
    requires forall iv :: iv in s <==> iv in ins
    ensures CoalescedFrom(Merged(s, |s|), ins)
  {
    MergedExact(s, |s|);
    assert s[..|s|] == s;
    CoalescedWhole(Merged(s, |s|), s, ins);
  }

  lemma CoalescedWhole(out: seq<Interval>, s: seq<Interval>, ins: seq<Interval>)
    requires forall iv :: iv in s <==> iv in ins
    requires CoalescedFrom(out, s)
    ensures CoalescedFrom(out, ins)
  {
    forall p ensures Covered(s, p) <==> Covered(ins, p) {
    }
    forall x | x in ins ensures Absorbs(out, x) {
      assert x in s;
    }
    forall o | o in out ensures Stamps(ins, o) {
      assert Stamps(s, o);
    }
  }

  // ---- subtract ----

  /** The instants no covered interval contains. */
  ghost function Uncovered(covered: seq<Interval>): iset<Time> {
    iset p: Time | !Covered(covered, p)
  }

  /** [start, end] minus a coalesced set clipped to it: the maximal uncovered runs. */
  method Subtract(start: Time, end: Time, covered: seq<Interval>) returns (gaps: seq<Range>)
    requires Separated(RangesOf(covered), 0)
    requires forall i :: 0 <= i < |covered| ==> start <= covered[i].from && covered[i].to <= end
    ensures gaps == RunsOf(Uncovered(covered), start, end)
  {
    gaps := [];
    var cur := start;
    for i := 0 to |covered|
      invariant Separated(gaps, 0)
      invariant start <= cur && (cur <= end || i == 0)
      invariant forall k :: 0 <= k < |gaps| ==> gaps[k].to < cur
      invariant forall k :: 0 <= k < i ==> covered[k].to <= cur
      invariant cur == start || (i > 0 && cur == covered[i - 1].to)
      invariant forall p :: InRanges(gaps, p) <==> start <= p < cur && !Covered(covered[..i], p)
    {
      var c := covered[i];
      ghost var before, cur0 := gaps, cur;
      assert RangesOf(covered)[i].from < RangesOf(covered)[i].to;
      assert i > 0 ==> RangesOf(covered)[i].from - RangesOf(covered)[i - 1].to > 0;
      assert covered[..i + 1] == covered[..i] + [c];
      if c.from > cur {
        gaps := gaps + [Range(cur, c.from)];
      }
      if c.to > cur {
        cur := c.to;
      }
      forall p ensures InRanges(gaps, p) <==> start <= p < cur && !Covered(covered[..i + 1], p) {
        CoveredConcat(covered[..i], [c], p);
        CoveredSingle(c, p);
        BeyondCovered(covered[..i], cur0, p);
        if c.from > cur0 {
          AppendRange(before, Range(cur0, c.from), p);
        }
      }
    }
    assert covered[..|covered|] == covered;
    ghost var before := gaps;
    if cur < end {
      gaps := gaps + [Range(cur, end)];
    }
    forall p ensures InRanges(gaps, p) <==> start <= p < end && p in Uncovered(covered) {
      BeyondCovered(covered, cur, p);
      if cur < end {
        AppendRange(before, Range(cur, end), p);
      }
    }
    SeparatedIsRunsOf(gaps, Uncovered(covered), start, end);
  }

  lemma BeyondCovered(covered: seq<Interval>, cur: Time, p: Time)
    requires forall k :: 0 <= k < |covered| ==> covered[k].to <= cur
    ensures p >= cur ==> !Covered(covered, p)
  {
  }

  // ---- forgiveTrailingGap and mergeSlivers ----

  /** Drops a final gap that exists only because the clock moved. */
  function ForgiveTrailingGap(gaps: seq<Range>, start: Time, end: Time, freshAfter: Time): seq<Range> {
    if gaps == [] then
      gaps
    else
      var last := gaps[|gaps| - 1];
      if last.to == end && last.from > start && last.from > freshAfter then gaps[..|gaps| - 1] else gaps
  }

  /** The instant lies between two consecutive gaps at most `threshold` apart. */
  ghost predicate Bridged(gaps: seq<Range>, threshold: Time, p: Time) {
    exists i :: 0 < i < |gaps| && gaps[i - 1].to <= p < gaps[i].from && gaps[i].from - gaps[i - 1].to <= threshold
  }

  /** Merges gaps at most `threshold` apart, covering what lies between them. */
  method MergeSlivers(gaps: seq<Range>, threshold: Time) returns (out: seq<Range>)
    requires Separated(gaps, 0) && threshold >= 0
    ensures Separated(out, threshold)
    ensures forall p :: InRanges(out, p) <==> InRanges(gaps, p) || Bridged(gaps, threshold, p)
  {
    if |gaps| == 0 {
      return [];
    }
    out := [gaps[0]];
    assert gaps[..1] == [gaps[0]];
    for i := 1 to |gaps|
      invariant MergedPrefix(gaps[..i], threshold, out)
    {
      var g := gaps[i];
      MergeStep(gaps, threshold, out, i);
      var n := |out| - 1;
      if g.from - out[n].to <= threshold {
        out := out[n := out[n].(to := g.to)];
        continue;
      }
      out := out + [g];
    }
    assert gaps[..|gaps|] == gaps;
  }

  ghost predicate MergedPrefix(gaps: seq<Range>, threshold: Time, out: seq<Range>) {
    && out != [] && gaps != []
    && Separated(out, threshold)
    && out[|out| - 1].to == gaps[|gaps| - 1].to
    && forall p :: InRanges(out, p) <==> InRanges(gaps, p) || Bridged(gaps, threshold, p)
  }

  ghost function MergeGap(out: seq<Range>, threshold: Time, g: Range): seq<Range>
    requires out != []
  {
    var n := |out| - 1;
    if g.from - out[n].to <= threshold then out[n := out[n].(to := g.to)] else out + [g]
  }

  lemma MergeStep(gaps: seq<Range>, threshold: Time, out: seq<Range>, i: nat)
    requires Separated(gaps, 0) && threshold >= 0
    requires 0 < i < |gaps| && MergedPrefix(gaps[..i], threshold, out)
    ensures MergedPrefix(gaps[..i + 1], threshold, MergeGap(out, threshold, gaps[i]))
  {
    var g, n := gaps[i], |out| - 1;
    var seen, next, r := gaps[..i], gaps[..i + 1], MergeGap(out, threshold, gaps[i]);
    assert next == seen + [g];
    assert gaps[i].from - gaps[i - 1].to > 0;
    var merged := g.from - out[n].to <= threshold;
    forall p ensures InRanges(r, p) <==> InRanges(next, p) || Bridged(next, threshold, p) {
      AppendRange(seen, g, p);
      BridgedAppend(seen, g, threshold, p);
      if merged {
        ExtendRange(out, g.to, p);
      } else {
        AppendRange(out, g, p);
      }
    }
  }

  lemma BridgedAppend(gaps: seq<Range>, g: Range, threshold: Time, p: Time)
    requires gaps != []
    ensures var last := gaps[|gaps| - 1];
      Bridged(gaps + [g], threshold, p) <==>
        Bridged(gaps, threshold, p) || (last.to <= p < g.from && g.from - last.to <= threshold)
  {
    var all := gaps + [g];
    var last := gaps[|gaps| - 1];
    if Bridged(gaps, threshold, p) {
      var i :| 0 < i < |gaps| && gaps[i - 1].to <= p < gaps[i].from && gaps[i].from - gaps[i - 1].to <= threshold;
      assert all[i - 1].to <= p < all[i].from;
    }
    if last.to <= p < g.from && g.from - last.to <= threshold {
      assert all[|gaps| - 1] == last && all[|gaps|] == g;
      assert all[|gaps| - 1].to <= p < all[|gaps|].from;
    }
  }

  // ---- from gaps to the plan ----

  lemma KeptInRun(need: iset<Time>, w: Window, gaps: seq<Range>, a: Time, p: Time)
    requires Separated(gaps, 0)
    requires forall q :: InRanges(gaps, q) <==> w.start <= q < w.end && q in need
    requires TailStart(need, w, a) && a <= p < w.end
    ensures gaps != [] && gaps[|gaps| - 1] == Range(a, w.end)
  {
    assert InRanges(gaps, a);
    var i :| 0 <= i < |gaps| && gaps[i].from <= a < gaps[i].to;
    assert gaps[i].from <= a - 1 ==> InRanges(gaps, a - 1);
    ConsecutiveInOneRange(gaps, i, a, w.end - 1);
    assert InRanges(gaps, gaps[i].to - 1);
    assert gaps[|gaps| - 1].from < gaps[|gaps| - 1].to;
    assert InRanges(gaps, gaps[|gaps| - 1].from);
    assert i == |gaps| - 1;
  }

  predicate Forgivable(gaps: seq<Range>, w: Window) {
    gaps != [] && var last := gaps[|gaps| - 1]; last.to == w.end && last.from > w.start && last.from > w.FreshAfter()
  }

  /** The forgiven instants are those of a last gap that qualifies. */
  lemma ForgivenIsLastGap(need: iset<Time>, w: Window, gaps: seq<Range>, p: Time)
    requires InWindow(need, w) && Separated(gaps, 0)
    requires forall q :: InRanges(gaps, q) <==> w.start <= q < w.end && q in need
    ensures Forgiven(need, w, p) <==> Forgivable(gaps, w) && gaps[|gaps| - 1].from <= p < w.end
  {
    if Forgiven(need, w, p) {
      var b :| b <= p < w.end && TailStart(need, w, b);
      KeptInRun(need, w, gaps, b, p);
    }
    if Forgivable(gaps, w) {
      var n := |gaps| - 1;
      var a := gaps[n].from;
      BoundsOutside(gaps, n);
      assert gaps[n].from < gaps[n].to;
      forall q | a <= q < w.end ensures q in need {
        assert gaps[n].from <= q < gaps[n].to;
        assert InRanges(gaps, q);
      }
      assert TailStart(need, w, a);
    }
  }

  /** Dropping the forgivable gap leaves exactly the kept instants. */
  lemma ForgiveKeeps(need: iset<Time>, w: Window, gaps: seq<Range>)
    requires InWindow(need, w)
    requires gaps == RunsOf(need, w.start, w.end)
    ensures var kept := ForgiveTrailingGap(gaps, w.start, w.end, w.FreshAfter());
      && Separated(kept, 0)
      && forall p :: InRanges(kept, p) <==> Kept(need, w, p)
  {
    RunsOfExact(need, w.start, w.end);
    var kept := ForgiveTrailingGap(gaps, w.start, w.end, w.FreshAfter());
    forall p ensures InRanges(kept, p) <==> Kept(need, w, p) {
      ForgivenIsLastGap(need, w, gaps, p);
      if Forgivable(gaps, w) {
        WithoutLast(gaps, p);
      }
    }
  }

  /** Bridges between kept gaps are the slivers. */
  lemma BridgesAreSlivers(need: iset<Time>, w: Window, kept: seq<Range>, p: Time)
    requires Separated(kept, 0)
    requires forall q :: InRanges(kept, q) <==> Kept(need, w, q)
    ensures Bridged(kept, SLIVER_THRESHOLD, p) <==> Sliver(need, w, p)
  {
    if Bridged(kept, SLIVER_THRESHOLD, p) {
      BridgeHasSliver(need, w, kept, p);
    }
    if Sliver(need, w, p) {
      SliverIsBridge(need, w, kept, p);
    }
  }

  lemma BridgeHasSliver(need: iset<Time>, w: Window, kept: seq<Range>, p: Time)
    requires Separated(kept, 0)
    requires forall q :: InRanges(kept, q) <==> Kept(need, w, q)
    requires Bridged(kept, SLIVER_THRESHOLD, p)
    ensures Sliver(need, w, p)
  {
    var i :| 0 < i < |kept| && kept[i - 1].to <= p < kept[i].from && kept[i].from - kept[i - 1].to <= SLIVER_THRESHOLD;
    BridgeIsSliver(need, w, kept, i);
  }

  lemma SliverIsBridge(need: iset<Time>, w: Window, kept: seq<Range>, p: Time)
    requires Separated(kept, 0)
    requires forall q :: InRanges(kept, q) <==> Kept(need, w, q)
    requires Sliver(need, w, p)
    ensures Bridged(kept, SLIVER_THRESHOLD, p)
  {
    var lo, hi :| lo <= p < hi && SliverRun(need, w, lo, hi);
    assert InRanges(kept, lo - 1) && InRanges(kept, hi) && !InRanges(kept, lo);
    var j :| 0 <= j < |kept| && kept[j].from <= lo - 1 < kept[j].to;
    assert kept[j].from <= lo < kept[j].to ==> InRanges(kept, lo);
    NextRange(kept, j, hi);
    assert kept[j + 1 - 1].to <= p < kept[j + 1].from;
  }

  lemma BridgeIsSliver(need: iset<Time>, w: Window, kept: seq<Range>, i: nat)
    requires Separated(kept, 0)
    requires forall q :: InRanges(kept, q) <==> Kept(need, w, q)
    requires 0 < i < |kept| && kept[i].from - kept[i - 1].to <= SLIVER_THRESHOLD
    ensures SliverRun(need, w, kept[i - 1].to, kept[i].from)
  {
    var lo, hi := kept[i - 1].to, kept[i].from;
    assert kept[i - 1].from <= lo - 1 < kept[i - 1].to;
    assert InRanges(kept, lo - 1);
    assert kept[i].from <= hi < kept[i].to;
    assert InRanges(kept, hi);
    assert kept[i].from - kept[i - 1].to > 0;
    forall q | lo <= q < hi ensures !InRanges(kept, q) {
      forall j | 0 <= j < |kept| ensures !(kept[j].from <= q < kept[j].to) {
        assert j <= i - 1 ==> kept[j].to <= lo;
        assert j >= i ==> kept[j].from >= hi;
      }
    }
  }

  lemma WantedInWindow(need: iset<Time>, w: Window, p: Time)
    requires InWindow(need, w)
    requires Wanted(need, w, p)
    ensures w.start <= p < w.end
  {
    if Sliver(need, w, p) {
      var lo, hi :| lo <= p < hi && SliverRun(need, w, lo, hi);
      assert lo - 1 in need && hi in need;
    }
  }

  /** The last two stages of Plan produce the maximal wanted runs. */
  lemma MergedIsPlan(need: iset<Time>, w: Window, kept: seq<Range>, out: seq<Range>)
    requires InWindow(need, w)
    requires Separated(kept, 0) && forall p :: InRanges(kept, p) <==> Kept(need, w, p)
    requires Separated(out, SLIVER_THRESHOLD)
    requires forall p :: InRanges(out, p) <==> InRanges(kept, p) || Bridged(kept, SLIVER_THRESHOLD, p)
    ensures out == PlanOf(need, w)
  {
    forall p ensures InRanges(out, p) <==> w.start <= p < w.end && p in WantedSet(need, w) {
      BridgesAreSlivers(need, w, kept, p);
      if Wanted(need, w, p) {
        WantedInWindow(need, w, p);
      }
    }
    SeparatedIsRunsOf(out, WantedSet(need, w), w.start, w.end);
  }

  // ---- Plan ----

  /** The clipped, held part of the first few intervals. */
  ghost predicate ClippedHeld(covered: seq<Interval>, ivs: seq<Interval>, w: Window) {
    && NonEmptyIntervals(covered)
    && forall p :: Covered(covered, p) <==> w.start <= p < w.end && Held(ivs, w, p)
  }

  lemma ClipStep(covered: seq<Interval>, ivs: seq<Interval>, iv: Interval, parts: seq<Interval>, w: Window)
    requires ClippedHeld(covered, ivs, w) && NonEmptyIntervals(parts)
    requires forall p :: Covered(parts, p) <==>
      w.start <= p < w.end && Covers(iv, p) && (p < w.LiveStart() || iv.fetchedAt >= w.FreshAfter())
    ensures ClippedHeld(covered + parts, ivs + [iv], w)
  {
    forall p ensures Covered(covered + parts, p) <==> w.start <= p < w.end && Held(ivs + [iv], w, p) {
      CoveredConcat(covered, parts, p);
      if Held(ivs, w, p) {
        var x :| x in ivs && Covers(x, p) && (p < w.LiveStart() || x.fetchedAt >= w.FreshAfter());
        assert x in ivs + [iv];
      }
      if Covers(iv, p) && (p < w.LiveStart() || iv.fetchedAt >= w.FreshAfter()) {
        assert iv in ivs + [iv];
      }
    }
  }

  lemma CoalescedStaysClipped(out: seq<Interval>, start: Time, end: Time)
    requires Separated(RangesOf(out), 0)
    requires forall p :: Covered(out, p) ==> start <= p < end
    ensures forall i :: 0 <= i < |out| ==> start <= out[i].from && out[i].to <= end
  {
    forall i | 0 <= i < |out| ensures start <= out[i].from && out[i].to <= end {
      assert RangesOf(out)[i].from < RangesOf(out)[i].to;
      assert out[i] in out;
      assert Covered(out, out[i].from) && Covered(out, out[i].to - 1);
    }
  }

  /** The sub-ranges of [start, end] to fetch: exactly the maximal runs of wanted instants. */
  method Plan(intervals: seq<Interval>, w: Window) returns (plan: seq<Range>)
    ensures plan == PlanSpec(intervals, w)
  {
    if w.start >= w.end {
      return [];
    }
    var liveStart, freshAfter := w.LiveStart(), w.FreshAfter();
    var covered: seq<Interval> := [];
    for i := 0 to |intervals|
      invariant ClippedHeld(covered, intervals[..i], w)
    {
      var iv := intervals[i];
      assert intervals[..i + 1] == intervals[..i] + [iv];
      var f, t := MaxTime(iv.from, w.start), MinTime(iv.to, w.end);
      if f >= t {
        ClipStep(covered, intervals[..i], iv, [], w);
        assert covered + [] == covered;
        continue;
      }
      var parts := ClippedParts(iv, w, f, t);
      ClipStep(covered, intervals[..i], iv, parts, w);
      covered := covered + parts;
    }
    assert intervals[..|intervals|] == intervals;
    var merged := Coalesce(covered);
    CoalescedStaysClipped(merged, w.start, w.end);
    var gaps := Subtract(w.start, w.end, merged);
    ghost var need := NeedOf(intervals, w);
    RunsOfSame(Uncovered(merged), need, w.start, w.end);
    ForgiveKeeps(need, w, gaps);
    var kept := ForgiveTrailingGap(gaps, w.start, w.end, freshAfter);
    plan := MergeSlivers(kept, SLIVER_THRESHOLD);
    MergedIsPlan(need, w, kept, plan);
  }

  /** The held parts of one interval clipped to [f, t): history always, the live part if fresh. */
  method ClippedParts(iv: Interval, w: Window, f: Time, t: Time) returns (parts: seq<Interval>)
    requires f < t
    ensures NonEmptyIntervals(parts)
    ensures forall p :: Covered(parts, p) <==> f <= p < t && (p < w.LiveStart() || iv.fetchedAt >= w.FreshAfter())
  {
    var history, live: seq<Interval> := [], [];
    var hEnd := MinTime(t, w.LiveStart());
    if f < hEnd {
      history := [Interval(f, hEnd, ZERO_TIME)];
    }
    var lStart := MaxTime(f, w.LiveStart());
    if lStart < t && iv.fetchedAt >= w.FreshAfter() {
      live := [Interval(lStart, t, ZERO_TIME)];
    }
    parts := history + live;
    forall p ensures Covered(parts, p) <==> f <= p < t && (p < w.LiveStart() || iv.fetchedAt >= w.FreshAfter()) {
      CoveredConcat(history, live, p);
      CoveredSingle(Interval(f, hEnd, ZERO_TIME), p);
      CoveredSingle(Interval(lStart, t, ZERO_TIME), p);
    }
  }

  lemma {:induction false} RunsOfSame(a: iset<Time>, b: iset<Time>, lo: Time, hi: Time)
    requires forall p :: lo <= p < hi ==> (p in a <==> p in b)
    ensures RunsOf(a, lo, hi) == RunsOf(b, lo, hi)
    decreases hi - lo
  {
    if lo < hi {
      RunsOfSame(a, b, lo, hi - 1);
    }
  }
}
