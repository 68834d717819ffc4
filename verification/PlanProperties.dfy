/** What the planner promises: exactness, bounds on over-fetching and on the number of calls,
    independence of how coverage is presented, and exact resumption after partial credit. */
module PlanProperties {
  import opened Timeline
  import opened Sorting
  import opened Planner

  lemma NeedInWindow(ivs: seq<Interval>, w: Window)
    ensures InWindow(NeedOf(ivs, w), w)
  {
  }

  lemma PlanOfExact(need: iset<Time>, w: Window)
    requires InWindow(need, w)
    ensures Separated(PlanOf(need, w), 0)
    ensures forall p :: InRanges(PlanOf(need, w), p) <==> Wanted(need, w, p)
  {
    RunsOfExact(WantedSet(need, w), w.start, w.end);
    forall p ensures InRanges(PlanOf(need, w), p) <==> Wanted(need, w, p) {
      if Wanted(need, w, p) {
        WantedInWindow(need, w, p);
      }
    }
  }

  /** Plan is exact: a range holds an instant if and only if the instant is in the window, not
      held and not forgiven, or lies in a short run between two kept instants. */
  lemma PlanExact(ivs: seq<Interval>, w: Window, p: Time)
    ensures var need := NeedOf(ivs, w);
      InRanges(PlanSpec(ivs, w), p) <==>
        || (w.start <= p < w.end && !Held(ivs, w, p) && !Forgiven(need, w, p))
        || Sliver(need, w, p)
  {
    NeedInWindow(ivs, w);
    PlanOfExact(NeedOf(ivs, w), w);
  }

  /** Forgiveness narrows no guarantee: a forgiven instant is newer than now - ttl, and so is
      live whenever the ttl does not exceed the live horizon. */
  lemma ForgivenIsRecent(ivs: seq<Interval>, w: Window, p: Time)
    requires Forgiven(NeedOf(ivs, w), w, p)
    ensures w.start < p < w.end && p > w.now - w.ttl && !Held(ivs, w, p)
    ensures w.ttl <= w.live ==> p >= w.LiveStart()
  {
    var a :| a <= p < w.end && TailStart(NeedOf(ivs, w), w, a);
    assert p in NeedOf(ivs, w);
  }

  // ---- shape of a plan ----

  lemma RunEndsWanted(need: iset<Time>, w: Window, i: nat)
    requires InWindow(need, w) && i < |PlanOf(need, w)|
    ensures var r := PlanOf(need, w)[i];
      && Wanted(need, w, r.from) && Wanted(need, w, r.to - 1)
      && !Wanted(need, w, r.from - 1) && !Wanted(need, w, r.to)
  {
    PlanOfExact(need, w);
    var plan := PlanOf(need, w);
    BoundsOutside(plan, i);
    assert plan[i].from < plan[i].to;
    assert InRanges(plan, plan[i].from) && InRanges(plan, plan[i].to - 1);
  }

  lemma SliverAllWanted(need: iset<Time>, w: Window, lo: Time, hi: Time)
    requires SliverRun(need, w, lo, hi)
    ensures forall q :: lo - 1 <= q <= hi ==> Wanted(need, w, q)
  {
    forall q | lo - 1 <= q <= hi ensures Wanted(need, w, q) {
      if lo <= q < hi {
        assert Sliver(need, w, q);
      }
    }
  }

  /** Every range begins and ends at a kept instant. */
  lemma RunEndsKept(need: iset<Time>, w: Window, i: nat)
    requires InWindow(need, w) && i < |PlanOf(need, w)|
    ensures Kept(need, w, PlanOf(need, w)[i].from) && Kept(need, w, PlanOf(need, w)[i].to - 1)
  {
    RunEndsWanted(need, w, i);
    var r := PlanOf(need, w)[i];
    if Sliver(need, w, r.from) {
      var lo, hi :| lo <= r.from < hi && SliverRun(need, w, lo, hi);
      SliverAllWanted(need, w, lo, hi);
    }
  }

  lemma NeighboursApart(need: iset<Time>, w: Window, i: nat)
    requires InWindow(need, w) && i + 1 < |PlanOf(need, w)|
    ensures PlanOf(need, w)[i + 1].from - PlanOf(need, w)[i].to > SLIVER_THRESHOLD
  {
    PlanOfExact(need, w);
    var plan := PlanOf(need, w);
    var lo, hi := plan[i].to, plan[i + 1].from;
    assert plan[i + 1].from - plan[i].to > 0;
    RunEndsKept(need, w, i);
    RunEndsKept(need, w, i + 1);
    RunEndsWanted(need, w, i);
    forall q | lo <= q < hi ensures !Wanted(need, w, q) && !Kept(need, w, q) {
      assert !InRanges(plan, q) by {
        forall j | 0 <= j < |plan| ensures !(plan[j].from <= q < plan[j].to) {
          assert j <= i ==> plan[j].to <= lo;
          assert j > i ==> plan[j].from >= hi;
        }
      }
    }
    assert hi <= lo + SLIVER_THRESHOLD ==> SliverRun(need, w, lo, hi);
    assert hi <= lo + SLIVER_THRESHOLD ==> Sliver(need, w, lo);
  }

  /** Ranges are more than a minute apart. */
  lemma PlanSeparated(need: iset<Time>, w: Window)
    requires InWindow(need, w)
    ensures Separated(PlanOf(need, w), SLIVER_THRESHOLD)
  {
    PlanOfExact(need, w);
    var plan := PlanOf(need, w);
    forall i, j | 0 <= i < j < |plan| ensures plan[j].from - plan[i].to > SLIVER_THRESHOLD {
      NeighboursApart(need, w, i);
      assert j > i + 1 ==> plan[j].from - plan[i + 1].to > 0;
      assert plan[i + 1].from < plan[i + 1].to;
    }
  }

  ghost predicate InOneRange(rs: seq<Range>, p: Time, q: Time) {
    exists i :: 0 <= i < |rs| && rs[i].from <= p && q < rs[i].to
  }

  /** Neighbours among the kept instants: nothing between them has to be fetched. */
  ghost predicate NextKept(need: iset<Time>, w: Window, p: Time, q: Time) {
    p < q && Kept(need, w, p) && Kept(need, w, q) && forall x :: p < x < q ==> !Kept(need, w, x)
  }

  /** The minute, in nanoseconds: two neighbours among the instants that have to be fetched are
      fetched in one range if and only if at most a minute lies between them. */
  lemma MinuteRule(ivs: seq<Interval>, w: Window, p: Time, q: Time)
    requires NextKept(NeedOf(ivs, w), w, p, q)
    ensures InOneRange(PlanSpec(ivs, w), p, q) <==> q - (p + 1) <= 60_000_000_000
  {
    var plan, need := PlanSpec(ivs, w), NeedOf(ivs, w);
    NeedInWindow(ivs, w);
    PlanOfExact(need, w);
    if q - (p + 1) <= 60_000_000_000 {
      OneRange(need, w, p, q);
    } else {
      assert !Wanted(need, w, p + 1);
      assert !InRanges(plan, p + 1);
    }
  }

  lemma OneRange(need: iset<Time>, w: Window, p: Time, q: Time)
    requires InWindow(need, w) && NextKept(need, w, p, q) && q - (p + 1) <= SLIVER_THRESHOLD
    ensures InOneRange(PlanOf(need, w), p, q)
  {
    var plan := PlanOf(need, w);
    PlanOfExact(need, w);
    forall x | p <= x <= q ensures InRanges(plan, x) {
      if p < x < q {
        assert SliverRun(need, w, p + 1, q);
        assert Sliver(need, w, x);
      }
      assert Wanted(need, w, x);
    }
    assert InRanges(plan, p);
    var i :| 0 <= i < |plan| && plan[i].from <= p < plan[i].to;
    ConsecutiveInOneRange(plan, i, p, q);
  }

  /** One held interval inside a window of history: its two sides are fetched apart, unless it is
      at most a minute long. */
  lemma OneHole(iv: Interval, w: Window)
    requires w.start < iv.from < iv.to < w.end <= w.LiveStart() && iv.to <= w.FreshAfter()
    ensures PlanSpec([iv], w) ==
      if iv.to - iv.from <= 60_000_000_000 then [Range(w.start, w.end)]
      else [Range(w.start, iv.from), Range(iv.to, w.end)]
  {
    var need := NeedOf([iv], w);
    var plan := if iv.to - iv.from <= 60_000_000_000 then [Range(w.start, w.end)]
      else [Range(w.start, iv.from), Range(iv.to, w.end)];
    NeedInWindow([iv], w);
    forall p ensures InRanges(plan, p) <==> w.start <= p < w.end && p in WantedSet(need, w) {
      OneHoleWanted(iv, w, p);
      if w.start <= p < iv.from {
        assert plan[0].from <= p < plan[0].to;
      }
      if |plan| == 2 && iv.to <= p < w.end {
        assert plan[1].from <= p < plan[1].to;
      }
      if |plan| == 1 && w.start <= p < w.end {
        assert plan[0].from <= p < plan[0].to;
      }
    }
    SeparatedIsRunsOf(plan, WantedSet(need, w), w.start, w.end);
  }

  lemma OneHoleKept(iv: Interval, w: Window, p: Time)
    requires w.start < iv.from < iv.to < w.end <= w.LiveStart() && iv.to <= w.FreshAfter()
    ensures Kept(NeedOf([iv], w), w, p) <==> w.start <= p < w.end && !Covers(iv, p)
  {
    var need := NeedOf([iv], w);
    assert iv in [iv];
    assert forall q :: w.start <= q < w.end ==> (Held([iv], w, q) <==> Covers(iv, q));
    forall a ensures !TailStart(need, w, a) {
      if w.start < a < w.end && a - 1 !in need {
        assert Covers(iv, a - 1);
      }
    }
  }

  lemma OneHoleWanted(iv: Interval, w: Window, p: Time)
    requires w.start < iv.from < iv.to < w.end <= w.LiveStart() && iv.to <= w.FreshAfter()
    ensures Wanted(NeedOf([iv], w), w, p) <==>
      w.start <= p < w.end && (Covers(iv, p) ==> iv.to - iv.from <= 60_000_000_000)
  {
    var need := NeedOf([iv], w);
    forall q ensures Kept(need, w, q) <==> w.start <= q < w.end && !Covers(iv, q) {
      OneHoleKept(iv, w, q);
    }
    if Covers(iv, p) && iv.to - iv.from <= 60_000_000_000 {
      assert SliverRun(need, w, iv.from, iv.to);
    }
  }

  lemma {:induction false} ManyRangesAreLong(rs: seq<Range>, gap: Time, k: nat)
    requires Separated(rs, gap) && gap >= 0 && 0 < k <= |rs|
    ensures (k - 1) * gap < rs[k - 1].to - rs[0].from
  {
    if k > 1 {
      ManyRangesAreLong(rs, gap, k - 1);
      assert rs[k - 1].from - rs[k - 2].to > gap;
      assert (k - 1) * gap == (k - 2) * gap + gap;
    }
  }

  /** Over-fetch and call-count bounds: the ranges lie in the window, are more than a minute
      apart and begin and end at instants that had to be fetched; a run of instants inside a
      range that did not have to be fetched is at most a minute long; and k ranges need a
      window longer than k - 1 minutes. */
  lemma PlanBounds(ivs: seq<Interval>, w: Window)
    ensures var plan, need := PlanSpec(ivs, w), NeedOf(ivs, w);
      && Separated(plan, SLIVER_THRESHOLD)
      && (forall i :: 0 <= i < |plan| ==>
            && w.start <= plan[i].from && plan[i].to <= w.end
            && Kept(need, w, plan[i].from) && Kept(need, w, plan[i].to - 1))
      && (|plan| > 0 ==> (|plan| - 1) * SLIVER_THRESHOLD < w.end - w.start)
  {
    var plan, need := PlanSpec(ivs, w), NeedOf(ivs, w);
    NeedInWindow(ivs, w);
    PlanSeparated(need, w);
    forall i | 0 <= i < |plan|
      ensures w.start <= plan[i].from && plan[i].to <= w.end
      ensures Kept(need, w, plan[i].from) && Kept(need, w, plan[i].to - 1)
    {
      RunEndsKept(need, w, i);
      assert plan[i].from in need && plan[i].to - 1 in need;
    }
    if |plan| > 0 {
      ManyRangesAreLong(plan, SLIVER_THRESHOLD, |plan|);
    }
  }

  lemma RefetchOnlySlivers(ivs: seq<Interval>, w: Window, i: nat, lo: Time, hi: Time)
    requires i < |PlanSpec(ivs, w)|
    requires PlanSpec(ivs, w)[i].from <= lo < hi <= PlanSpec(ivs, w)[i].to
    requires forall q :: lo <= q < hi ==> Held(ivs, w, q)
    ensures hi - lo <= SLIVER_THRESHOLD
  {
    var plan, need := PlanSpec(ivs, w), NeedOf(ivs, w);
    NeedInWindow(ivs, w);
    PlanOfExact(need, w);
    assert InRanges(plan, lo);
    assert Held(ivs, w, lo) && lo !in need;
    var a, b :| a <= lo < b && SliverRun(need, w, a, b);
    assert Kept(need, w, b) && b in need && !Held(ivs, w, b);
  }

  // ---- coalesce and subtract ----

  /** A coalesced set clipped to the window and the gaps left by subtracting it are the maximal
      covered and the maximal uncovered runs: every instant of the window lies in exactly one,
      and each gap is bounded by the window or by covered instants. */
  lemma CoveredAndGapsPartition(covered: seq<Interval>, gaps: seq<Range>, start: Time, end: Time)
    requires Separated(RangesOf(covered), 0) && gaps == RunsOf(Uncovered(covered), start, end)
    requires forall i :: 0 <= i < |covered| ==> start <= covered[i].from && covered[i].to <= end
    ensures RangesOf(covered) == RunsOf(Coverage(covered), start, end)
    ensures forall p :: start <= p < end ==> (InRanges(gaps, p) <==> !InRanges(RangesOf(covered), p))
    ensures forall i :: 0 <= i < |gaps| ==>
      && (gaps[i].from == start || Covered(covered, gaps[i].from - 1))
      && (gaps[i].to == end || Covered(covered, gaps[i].to))
  {
    RunsOfExact(Uncovered(covered), start, end);
    forall p ensures InRanges(RangesOf(covered), p) <==> start <= p < end && p in Coverage(covered) {
      CoveredInRanges(covered, p);
    }
    SeparatedIsRunsOf(RangesOf(covered), Coverage(covered), start, end);
    forall i | 0 <= i < |gaps|
      ensures gaps[i].from == start || Covered(covered, gaps[i].from - 1)
      ensures gaps[i].to == end || Covered(covered, gaps[i].to)
    {
      BoundsOutside(gaps, i);
      assert gaps[i].from < gaps[i].to;
      assert InRanges(gaps, gaps[i].from) && InRanges(gaps, gaps[i].to - 1);
    }
  }

  lemma CoveredInRanges(covered: seq<Interval>, p: Time)
    ensures Covered(covered, p) <==> InRanges(RangesOf(covered), p)
  {
    if Covered(covered, p) {
      var i :| 0 <= i < |covered| && Covers(covered[i], p);
      assert RangesOf(covered)[i].from <= p < RangesOf(covered)[i].to;
    }
    if InRanges(RangesOf(covered), p) {
      var i :| 0 <= i < |covered| && RangesOf(covered)[i].from <= p < RangesOf(covered)[i].to;
      assert covered[i] in covered && Covers(covered[i], p);
    }
  }

  /** What Coalesce promises determines its ranges, so the order of the input, and how the sort
      orders equal starts, cannot show. */
  lemma CoalesceDetermined(a: seq<Interval>, b: seq<Interval>, outA: seq<Interval>, outB: seq<Interval>)
    requires multiset(a) == multiset(b)
    requires CoalescedFrom(outA, a) && CoalescedFrom(outB, b)
    ensures RangesOf(outA) == RangesOf(outB)
  {
    PermutationMembers(a, b);
    forall p ensures InRanges(RangesOf(outA), p) <==> InRanges(RangesOf(outB), p) {
      CoveredInRanges(outA, p);
      CoveredInRanges(outB, p);
      assert Covered(a, p) <==> Covered(b, p);
    }
    SeparatedUnique(RangesOf(outA), RangesOf(outB));
  }

  // ---- a plan depends only on what is held ----

  lemma SameHeldSamePlan(a: seq<Interval>, b: seq<Interval>, w: Window)
    requires forall p :: w.start <= p < w.end ==> (Held(a, w, p) <==> Held(b, w, p))
    ensures NeedOf(a, w) == NeedOf(b, w)
    ensures PlanSpec(a, w) == PlanSpec(b, w)
  {
    assert forall p :: p in NeedOf(a, w) <==> p in NeedOf(b, w);
  }

  /** Plan gives the same ranges for every order of the stored rows. */
  lemma PlanOrderIndependent(a: seq<Interval>, b: seq<Interval>, w: Window)
    requires multiset(a) == multiset(b)
    ensures PlanSpec(a, w) == PlanSpec(b, w)
  {
    PermutationMembers(a, b);
    SameHeldSamePlan(a, b, w);
  }

  /** A plan is empty exactly when every needed instant is forgiven. */
  lemma PlanEmptyIff(ivs: seq<Interval>, w: Window)
    ensures PlanSpec(ivs, w) == [] <==> forall p :: p in NeedOf(ivs, w) ==> Forgiven(NeedOf(ivs, w), w, p)
  {
    var plan, need := PlanSpec(ivs, w), NeedOf(ivs, w);
    NeedInWindow(ivs, w);
    PlanOfExact(need, w);
    if plan == [] {
      forall p | p in need ensures Forgiven(need, w, p) {
        assert !InRanges(plan, p);
      }
    } else {
      RunEndsKept(need, w, 0);
    }
  }

  /** A cold cache always fetches the whole window. */
  lemma ColdPlan(w: Window)
    requires w.start < w.end
    ensures PlanSpec([], w) == [Range(w.start, w.end)]
  {
    var need, plan := NeedOf([], w), [Range(w.start, w.end)];
    assert forall p :: p in need <==> w.start <= p < w.end;
    NeedInWindow([], w);
    forall p ensures InRanges(plan, p) <==> w.start <= p < w.end && p in WantedSet(need, w) {
      assert InRanges(plan, p) <==> plan[0].from <= p < plan[0].to;
    }
    SeparatedIsRunsOf(plan, WantedSet(need, w), w.start, w.end);
  }

  // ---- exact resume ----

  /** What is still needed once the instants of some ranges have been credited. */
  ghost function Without(need: iset<Time>, rs: seq<Range>): iset<Time> {
    iset p: Time | p in need && !InRanges(rs, p)
  }

  lemma PrefixBelow(plan: seq<Range>, j: nat, p: Time)
    requires Separated(plan, 0) && 0 < j <= |plan|
    ensures InRanges(plan[..j], p) <==> InRanges(plan, p) && p < plan[j - 1].to
    ensures InRanges(plan[j..], p) <==> InRanges(plan, p) && p >= plan[j - 1].to
  {
    if InRanges(plan, p) {
      var i :| 0 <= i < |plan| && plan[i].from <= p < plan[i].to;
      if i < j {
        assert plan[..j][i].from <= p < plan[..j][i].to;
        assert i < j - 1 ==> plan[j - 1].from - plan[i].to > 0;
        assert plan[j - 1].from < plan[j - 1].to;
      } else {
        assert plan[j..][i - j].from <= p < plan[j..][i - j].to;
        assert plan[i].from - plan[j - 1].to > 0;
      }
    }
    if InRanges(plan[..j], p) {
      var i :| 0 <= i < j && plan[..j][i].from <= p < plan[..j][i].to;
      assert plan[i].from <= p < plan[i].to;
      assert i < j - 1 ==> plan[j - 1].from - plan[i].to > 0;
      assert plan[j - 1].from < plan[j - 1].to;
    }
    if InRanges(plan[j..], p) {
      var i :| 0 <= i < |plan| - j && plan[j..][i].from <= p < plan[j..][i].to;
      assert plan[i + j].from <= p < plan[i + j].to;
      assert plan[i + j].from - plan[j - 1].to > 0;
    }
  }

  lemma TailUnchanged(need: iset<Time>, w: Window, j: nat, a: Time)
    requires InWindow(need, w) && 0 < j <= |PlanOf(need, w)|
    ensures TailStart(Without(need, PlanOf(need, w)[..j]), w, a) <==> TailStart(need, w, a)
  {
    PlanOfExact(need, w);
    var plan := PlanOf(need, w);
    var c, rest := plan[j - 1].to, Without(need, plan[..j]);
    forall p ensures p in rest <==> p in need && !(Wanted(need, w, p) && p < c) {
      PrefixBelow(plan, j, p);
    }
    if TailStart(need, w, a) {
      forall q | a <= q < w.end ensures q in rest {
        assert Forgiven(need, w, q);
      }
    }
    if TailStart(rest, w, a) && a - 1 in need {
      // a - 1 was kept and credited, so a range ended at a; but a is needed and uncredited.
      assert Wanted(need, w, a - 1) && a - 1 < c;
      assert a in rest && a in need;
      RunEndsWanted(need, w, j - 1);
    }
  }

  lemma ForgivenUnchanged(need: iset<Time>, w: Window, j: nat, p: Time)
    requires InWindow(need, w) && 0 < j <= |PlanOf(need, w)|
    ensures Forgiven(Without(need, PlanOf(need, w)[..j]), w, p) <==> Forgiven(need, w, p)
  {
    var rest := Without(need, PlanOf(need, w)[..j]);
    if Forgiven(need, w, p) {
      var a :| a <= p < w.end && TailStart(need, w, a);
      TailUnchanged(need, w, j, a);
    }
    if Forgiven(rest, w, p) {
      var a :| a <= p < w.end && TailStart(rest, w, a);
      TailUnchanged(need, w, j, a);
    }
  }

  lemma KeptAfterCredit(need: iset<Time>, w: Window, j: nat, p: Time)
    requires InWindow(need, w) && 0 < j <= |PlanOf(need, w)|
    ensures Kept(Without(need, PlanOf(need, w)[..j]), w, p) <==> Kept(need, w, p) && p >= PlanOf(need, w)[j - 1].to
  {
    PlanOfExact(need, w);
    ForgivenUnchanged(need, w, j, p);
    PrefixBelow(PlanOf(need, w), j, p);
  }

  lemma WantedAfterCredit(need: iset<Time>, w: Window, j: nat, p: Time)
    requires InWindow(need, w) && 0 < j <= |PlanOf(need, w)|
    ensures Wanted(Without(need, PlanOf(need, w)[..j]), w, p) <==> Wanted(need, w, p) && p >= PlanOf(need, w)[j - 1].to
  {
    var c, rest := PlanOf(need, w)[j - 1].to, Without(need, PlanOf(need, w)[..j]);
    forall q ensures Kept(rest, w, q) <==> Kept(need, w, q) && q >= c {
      KeptAfterCredit(need, w, j, q);
    }
    if Sliver(rest, w, p) {
      var lo, hi :| lo <= p < hi && SliverRun(rest, w, lo, hi);
      assert SliverRun(need, w, lo, hi);
    }
    if Sliver(need, w, p) && p >= c {
      var lo, hi :| lo <= p < hi && SliverRun(need, w, lo, hi);
      RunEndsWanted(need, w, j - 1);
      SliverAllWanted(need, w, lo, hi);
      assert SliverRun(rest, w, lo, hi);
    }
  }

  /** Once the first j ranges of a plan are held, planning again returns exactly the others. */
  lemma ResumeExact(need: iset<Time>, w: Window, j: nat)
    requires InWindow(need, w) && j <= |PlanOf(need, w)|
    ensures PlanOf(Without(need, PlanOf(need, w)[..j]), w) == PlanOf(need, w)[j..]
  {
    var plan := PlanOf(need, w);
    var rest := Without(need, plan[..j]);
    PlanOfExact(need, w);
    if j == 0 {
      assert rest == need;
    } else {
      forall p ensures InRanges(plan[j..], p) <==> w.start <= p < w.end && p in WantedSet(rest, w) {
        PrefixBelow(plan, j, p);
        WantedAfterCredit(need, w, j, p);
        if Wanted(need, w, p) {
          WantedInWindow(need, w, p);
        }
      }
      SeparatedIsRunsOf(plan[j..], WantedSet(rest, w), w.start, w.end);
    }
  }
}
