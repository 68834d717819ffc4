/** What one Get promises whatever the world does: exact resumption after a partial failure,
    invisible degradation, and what a failed final read costs. */
module GetProperties {
  import opened Timeline
  import opened Bars
  import opened Planner
  import opened PlanProperties
  import opened Normalizer
  import opened NormalizerProperties
  import opened Journal

  // ---- exact resume ----

  lemma StampedWithCredits(st: KeyState, w: Window, n: nat)
    requires Stamped(st.intervals) && w.now >= ZERO_TIME && n <= |PlanSpec(st.intervals, w)|
    ensures Stamped(st.intervals + Credits(PlanSpec(st.intervals, w), w.now, n))
  {
  }

  lemma CreditsCover(plan: seq<Range>, now: Time, n: nat, p: Time)
    requires n <= |plan|
    ensures Covered(Credits(plan, now, n), p) <==> InRanges(plan[..n], p)
  {
    var ivs := Credits(plan, now, n);
    if Covered(ivs, p) {
      var i :| 0 <= i < n && Covers(ivs[i], p);
      assert plan[..n][i].from <= p < plan[..n][i].to;
    }
    if InRanges(plan[..n], p) {
      var i :| 0 <= i < n && plan[..n][i].from <= p < plan[..n][i].to;
      assert ivs[i] in ivs && Covers(ivs[i], p);
    }
  }

  lemma OneCredit(plan: seq<Range>, now: Time, n: nat)
    requires |plan| == 1 && n == 1
    ensures Credits(plan, now, n) == [Interval(plan[0].from, plan[0].to, now)]
  {
  }

  /** Crediting ranges fetched now adds exactly their instants to what is held. */
  lemma CreditHolds(ivs: seq<Interval>, plan: seq<Range>, w: Window, n: nat, p: Time)
    requires n <= |plan| && w.ttl >= 0
    ensures Held(ivs + Credits(plan, w.now, n), w, p) <==> Held(ivs, w, p) || InRanges(plan[..n], p)
  {
    var credits := Credits(plan, w.now, n);
    var all := ivs + credits;
    CreditsCover(plan, w.now, n, p);
    if Held(ivs, w, p) {
      var iv :| iv in ivs && Covers(iv, p) && (p < w.LiveStart() || iv.fetchedAt >= w.FreshAfter());
      assert iv in all;
    }
    if Covered(credits, p) {
      var iv :| iv in credits && Covers(iv, p);
      assert iv in all && iv.fetchedAt == w.now;
    }
    if Held(all, w, p) {
      var iv :| iv in all && Covers(iv, p) && (p < w.LiveStart() || iv.fetchedAt >= w.FreshAfter());
      assert iv in ivs || (iv in credits && Covered(credits, p));
    }
  }

  /** If the first n ranges of a plan were fetched and credited, planning the same request at
      the same instant again returns exactly the remaining ranges: nothing finished is redone
      and nothing unfinished is lost. */
  lemma ResumeAfterCredit(st: KeyState, w: Window, n: nat)
    requires Stamped(st.intervals) && w.now >= ZERO_TIME && w.ttl >= 0
    requires n <= |PlanSpec(st.intervals, w)|
    ensures PlanSpec(CreditedSet(st, w, n), w) == PlanSpec(st.intervals, w)[n..]
  {
    var plan, need := PlanSpec(st.intervals, w), NeedOf(st.intervals, w);
    var ivs := st.intervals + Credits(plan, w.now, n);
    StampedWithCredits(st, w, n);
    forall p ensures p in NeedOf(CreditedSet(st, w, n), w) <==> p in Without(need, plan[..n]) {
      HeldNormalized(ivs, w.LiveStart(), w, p);
      CreditHolds(st.intervals, plan, w, n, p);
    }
    assert NeedOf(CreditedSet(st, w, n), w) == Without(need, plan[..n]);
    NeedInWindow(st.intervals, w);
    ResumeExact(need, w, n);
  }

  lemma FetchWritesKeepIntervals(st: KeyState, ws: seq<Write>)
    requires forall i :: 0 <= i < |ws| ==> !ws[i].Credited?
    ensures ApplyAll(st, ws).intervals == st.intervals
  {
    if ws != [] {
      FetchWritesKeepIntervals(st, ws[..|ws| - 1]);
    }
  }

  /** The coverage a Get leaves behind. */
  lemma IntervalsAfter(st: KeyState, w: Window, env: Env)
    ensures ApplyAll(st, GetWrites(st, w, env)).intervals ==
      if env.intervalsOk && CoverageCredited(st, w, env) then CreditedSet(st, w, Fetches(st, w, env)) else st.intervals
  {
    if env.intervalsOk {
      var plan, n := PlanSpec(st.intervals, w), Fetches(st, w, env);
      var ws := FetchWrites(plan, w.now, env.outcomes, n);
      FetchWritesKeepIntervals(st, ws);
      if CoverageCredited(st, w, env) {
        var last := [Credited(CreditedSet(st, w, n))];
        ApplyAllConcat(st, ws, last);
        assert ApplyAll(ApplyAll(st, ws), last) == Apply(ApplyAll(st, ws), last[0]) by {
          assert last[..0] == [];
        }
      } else {
        assert ws + [] == ws;
      }
    }
  }

  /** A retry never redoes finished work: after a Get that credited its n fetched ranges, the
      same request at the same instant plans exactly the ranges that were not fetched. */
  lemma RetryPlansTheRest(st: KeyState, w: Window, env: Env)
    requires Stamped(st.intervals) && w.now >= ZERO_TIME && w.ttl >= 0
    requires env.intervalsOk && (CoverageCredited(st, w, env) || Fetches(st, w, env) == 0)
    ensures PlanSpec(ApplyAll(st, GetWrites(st, w, env)).intervals, w)
         == PlanSpec(st.intervals, w)[Fetches(st, w, env)..]
  {
    IntervalsAfter(st, w, env);
    ResumeAfterCredit(st, w, Fetches(st, w, env));
  }

  // ---- degraded serving ----

  /** The bars a Get leaves in the repository, overlaid with everything it fetched, are the
      bars it found overlaid with everything it fetched: lost writes make no difference. */
  lemma {:induction false} OverlayHidesLosses(st: KeyState, plan: seq<Range>, now: Time, outcomes: seq<RangeOutcome>,
                                              n: nat)
    requires AllFetched(plan, outcomes, n)
    ensures LossesHidden(st.bars, ApplyAll(st, FetchWrites(plan, now, outcomes, n)).bars,
      ToMap(FreshBars(outcomes, n)), AllStored(outcomes, n))
  {
    if n == 0 {
      OverlayNothing(st.bars);
    } else {
      OverlayHidesLosses(st, plan, now, outcomes, n - 1);
      ToMapConcat(FreshBars(outcomes, n - 1), outcomes[n - 1].bars);
      LastWriteApplied(st, plan, now, outcomes, n);
      OverlayStep(st.bars, ApplyAll(st, FetchWrites(plan, now, outcomes, n - 1)).bars,
        ApplyAll(st, FetchWrites(plan, now, outcomes, n)).bars,
        ToMap(FreshBars(outcomes, n - 1)), ToMap(outcomes[n - 1].bars),
        AllStored(outcomes, n - 1), outcomes[n - 1].stored);
    }
  }

  lemma OverlayNothing(m: BarMap)
    ensures m + map[] == m
  {
  }

  lemma LastWriteApplied(st: KeyState, plan: seq<Range>, now: Time, outcomes: seq<RangeOutcome>, n: nat)
    requires AllFetched(plan, outcomes, n) && n > 0
    ensures var before := ApplyAll(st, FetchWrites(plan, now, outcomes, n - 1)).bars;
      ApplyAll(st, FetchWrites(plan, now, outcomes, n)).bars
        == if outcomes[n - 1].stored then before + ToMap(outcomes[n - 1].bars) else before
  {
    assert FetchWrites(plan, now, outcomes, n)[..n - 1] == FetchWrites(plan, now, outcomes, n - 1);
  }

  /** What is stored after fetching `got` onto m differs from m + got only under `got`, and not
      at all once every write succeeded. */
  ghost predicate LossesHidden(m: BarMap, end: BarMap, got: BarMap, complete: bool) {
    && end + got == m + got
    && (complete ==> end == m + got)
    && m.Keys <= end.Keys <= m.Keys + got.Keys
  }

  lemma OverlayStep(m: BarMap, before: BarMap, after: BarMap, got: BarMap, last: BarMap, complete: bool, stored: bool)
    requires LossesHidden(m, before, got, complete)
    requires after == if stored then before + last else before
    ensures LossesHidden(m, after, got + last, complete && stored)
  {
    forall t | t in after + (got + last)
      ensures t in m + (got + last) && (after + (got + last))[t] == (m + (got + last))[t]
    {
      if t !in last && t !in got {
        assert t in before + got;
        assert (before + got)[t] == before[t] && (m + got)[t] == m[t];
      }
    }
    forall t | t in m + (got + last) ensures t in after + (got + last) {
      if t !in last && t !in got {
        assert t in m + got;
      }
    }
  }

  lemma BarsAfter(st: KeyState, w: Window, env: Env)
    requires env.intervalsOk
    ensures var n := Fetches(st, w, env);
      ApplyAll(st, GetWrites(st, w, env)).bars
      == ApplyAll(st, FetchWrites(PlanSpec(st.intervals, w), w.now, env.outcomes, n)).bars
  {
    var plan, n := PlanSpec(st.intervals, w), Fetches(st, w, env);
    var ws := FetchWrites(plan, w.now, env.outcomes, n);
    if CoverageCredited(st, w, env) {
      var last := [Credited(CreditedSet(st, w, n))];
      ApplyAllConcat(st, ws, last);
      assert last[..0] == [];
      assert ApplyAll(ApplyAll(st, ws), last) == Apply(ApplyAll(st, ws), last[0]);
    } else {
      assert ws + [] == ws;
    }
  }

  lemma SliceOverlay(a: BarMap, b: BarMap, start: Time, end: Time)
    ensures Slice(Slice(a, start, end) + b, start, end) == Slice(a + b, start, end)
  {
  }

  /** Everything the call could see: the bars it found, if it could read them, and the bars it
      fetched. */
  ghost function Complete(st: KeyState, w: Window, env: Env): BarMap {
    (if env.readOk then st.bars else map[]) + ToMap(FreshBars(env.outcomes, Fetches(st, w, env)))
  }

  /** A successful Get serves exactly the requested slice of everything it could see. */
  lemma ServesComplete(st: KeyState, w: Window, env: Env)
    requires GetResult(st, w, env).Ok?
    ensures GetResult(st, w, env) == Ok(Listing(Slice(Complete(st, w, env), w.start, w.end)))
  {
    var plan, n := PlanSpec(st.intervals, w), Fetches(st, w, env);
    var got := ToMap(FreshBars(env.outcomes, n));
    if env.readOk {
      var end := ApplyAll(st, GetWrites(st, w, env));
      BarsAfter(st, w, env);
      OverlayHidesLosses(st, plan, w.now, env.outcomes, n);
      SliceOverlay(end.bars, got, w.start, w.end);
      ClippedListing(Slice(end.bars, w.start, w.end) + got, w.start, w.end);
      if plan == [] {
        assert got == map[] && st.bars + got == st.bars;
      }
    } else {
      ClippedListing(map[] + got, w.start, w.end);
    }
  }

  /** The same world with every bar write and the coverage write succeeding. */
  ghost function AllWritesSucceed(env: Env): Env {
    Env(env.intervalsOk,
        seq(|env.outcomes|, i requires 0 <= i < |env.outcomes| =>
          if env.outcomes[i].Fetched? then env.outcomes[i].(stored := true) else env.outcomes[i]),
        true, env.readOk)
  }

  lemma {:induction false} SameFetches(outcomes: seq<RangeOutcome>, other: seq<RangeOutcome>, k: nat)
    requires |outcomes| == |other|
    requires forall i :: 0 <= i < |other| ==>
      (outcomes[i].Fetched? <==> other[i].Fetched?) && (other[i].Fetched? ==> outcomes[i].bars == other[i].bars)
    ensures FetchedCount(outcomes, k) == FetchedCount(other, k)
    ensures FreshBars(outcomes, FetchedCount(outcomes, k)) == FreshBars(other, FetchedCount(other, k))
  {
    if k > 0 {
      SameFetches(outcomes, other, k - 1);
    }
  }

  /** Degraded serving is invisible: whichever writes fail, if every fetch and the final read
      succeed then Get returns the list it would have returned had every write succeeded. */
  lemma DegradedIsInvisible(st: KeyState, w: Window, env: Env)
    requires env.intervalsOk && env.readOk && Fetches(st, w, env) == |PlanSpec(st.intervals, w)|
    ensures GetResult(st, w, env) == GetResult(st, w, AllWritesSucceed(env))
    ensures GetResult(st, w, env).Ok?
  {
    var best := AllWritesSucceed(env);
    SameFetches(env.outcomes, best.outcomes, |PlanSpec(st.intervals, w)|);
    ServesComplete(st, w, env);
    ServesComplete(st, w, best);
  }

  // ---- a degraded call whose final read fails ----

  lemma ListingInjective(a: BarMap, b: BarMap)
    requires Listing(a) == Listing(b)
    ensures a == b
  {
    ListingExact(a);
    ListingExact(b);
    RepresentsSame(Listing(a), a, b);
  }

  /** A degraded call whose final read fails serves the fetched bars alone; had the read
      succeeded it would have served them over the bars the repository held. */
  lemma UnreadableResult(st: KeyState, w: Window, env: Env)
    requires !env.readOk && GetResult(st, w, env).Ok?
    ensures var got := ToMap(FreshBars(env.outcomes, Fetches(st, w, env)));
      && GetResult(st, w, env) == Ok(Listing(Slice(got, w.start, w.end)))
      && GetResult(st, w, env.(readOk := true)) == Ok(Listing(Slice(st.bars + got, w.start, w.end)))
  {
    var got := ToMap(FreshBars(env.outcomes, Fetches(st, w, env)));
    ServesComplete(st, w, env);
    ServesComplete(st, w, env.(readOk := true));
    assert map[] + got == got;
  }

  lemma SlicesAgreeIff(bars: BarMap, got: BarMap, start: Time, end: Time)
    ensures Slice(got, start, end) == Slice(bars + got, start, end) <==>
      forall t :: t in bars && start <= t <= end ==> t in got
  {
    var partial, whole := Slice(got, start, end), Slice(bars + got, start, end);
    if partial == whole {
      forall t | t in bars && start <= t <= end ensures t in got {
        assert t in whole;
      }
    }
    if forall t :: t in bars && start <= t <= end ==> t in got {
      assert partial == whole;
    }
  }

  lemma UnreadableMisses(st: KeyState, w: Window, env: Env)
    requires !env.readOk && GetResult(st, w, env).Ok?
    ensures GetResult(st, w, env) == GetResult(st, w, env.(readOk := true)) <==>
      forall t :: t in st.bars && w.start <= t <= w.end ==> t in ToMap(FreshBars(env.outcomes, Fetches(st, w, env)))
  {
    var got := ToMap(FreshBars(env.outcomes, Fetches(st, w, env)));
    UnreadableResult(st, w, env);
    SlicesAgreeIff(st.bars, got, w.start, w.end);
    var partial, whole := Slice(got, w.start, w.end), Slice(st.bars + got, w.start, w.end);
    if Listing(partial) == Listing(whole) {
      ListingInjective(partial, whole);
    }
  }

  /** Some range, inclusive of both ends as upstream reads it, asks for the time. */
  ghost predicate Asked(plan: seq<Range>, n: nat, t: Time)
    requires n <= |plan|
  {
    exists i :: 0 <= i < n && plan[i].from <= t <= plan[i].to
  }

  /** The first n ranges were answered with exactly upstream's bars in them, and upstream still
      had every bar the repository holds. */
  ghost predicate AnsweredFrom(market: seq<BarMap>, plan: seq<Range>, outcomes: seq<RangeOutcome>, n: nat,
                               stored: BarMap)
  {
    && AllFetched(plan, outcomes, n) && n <= |market|
    && forall i :: 0 <= i < n ==>
         && ToMap(outcomes[i].bars) == Slice(market[i], plan[i].from, plan[i].to)
         && stored.Keys <= market[i].Keys
  }

  /** A stored bar comes back exactly if some range asks for its time. */
  lemma {:induction false} StoredComesBackIff(market: seq<BarMap>, plan: seq<Range>, outcomes: seq<RangeOutcome>,
                                              n: nat,
                                              stored: BarMap, t: Time)
    requires AnsweredFrom(market, plan, outcomes, n, stored) && t in stored
    ensures t in ToMap(FreshBars(outcomes, n)) <==> Asked(plan, n, t)
  {
    if n > 0 {
      StoredComesBackIff(market, plan, outcomes, n - 1, stored, t);
      ToMapConcat(FreshBars(outcomes, n - 1), outcomes[n - 1].bars);
      assert t in market[n - 1];
      assert t in ToMap(outcomes[n - 1].bars) <==> plan[n - 1].from <= t <= plan[n - 1].to;
    }
  }

  /** When writes failed and the final read fails too, Get still reports success, from the
      fetched bars alone.  With an upstream that answers exactly and retracts nothing, the list
      is complete if and only if the plan asks for every bar that the repository holds in the
      window: a condition on the state found and the request alone. */
  lemma UnreadableCompleteIff(st: KeyState, w: Window, env: Env, market: seq<BarMap>)
    requires !env.readOk && GetResult(st, w, env).Ok?
    requires var plan := PlanSpec(st.intervals, w); AnsweredFrom(market, plan, env.outcomes, |plan|, st.bars)
    ensures var plan := PlanSpec(st.intervals, w);
      GetResult(st, w, env) == GetResult(st, w, env.(readOk := true)) <==>
        forall t :: t in st.bars && w.start <= t <= w.end ==> Asked(plan, |plan|, t)
  {
    var plan := PlanSpec(st.intervals, w);
    UnreadableMisses(st, w, env);
    forall t | t in st.bars
      ensures t in ToMap(FreshBars(env.outcomes, |plan|)) <==> Asked(plan, |plan|, t)
    {
      StoredComesBackIff(market, plan, env.outcomes, |plan|, st.bars, t);
    }
    assert Fetches(st, w, env) == |plan|;
  }

  /** Whether some degraded call whose final read fails reports success and yet misses a bar, with
      an upstream that answers exactly and retracts nothing. */
  ghost predicate CanLose(st: KeyState, w: Window) {
    exists env, market :: LosingWorld(st, w, env, market)
  }

  ghost predicate LosingWorld(st: KeyState, w: Window, env: Env, market: seq<BarMap>) {
    var plan := PlanSpec(st.intervals, w);
    && !env.readOk && AnsweredFrom(market, plan, env.outcomes, |plan|, st.bars)
    && GetResult(st, w, env).Ok? && GetResult(st, w, env) != GetResult(st, w, env.(readOk := true))
  }

  /** Upstream answers each range with exactly what the repository holds there; only the coverage
      write and the final read fail. */
  ghost function StandstillOutcomes(plan: seq<Range>, stored: BarMap): seq<RangeOutcome> {
    seq(|plan|, i requires 0 <= i < |plan| => Fetched(Listing(Slice(stored, plan[i].from, plan[i].to)), true))
  }

  ghost function StandstillMarket(plan: seq<Range>, stored: BarMap): seq<BarMap> {
    seq(|plan|, i requires 0 <= i < |plan| => stored)
  }

  lemma StandstillAnswers(plan: seq<Range>, stored: BarMap)
    ensures AnsweredFrom(StandstillMarket(plan, stored), plan, StandstillOutcomes(plan, stored), |plan|, stored)
  {
    forall i | 0 <= i < |plan|
      ensures ToMap(StandstillOutcomes(plan, stored)[i].bars) == Slice(stored, plan[i].from, plan[i].to)
    {
      var m := Slice(stored, plan[i].from, plan[i].to);
      ListingExact(m);
      RepresentsToMap(Listing(m), m);
    }
  }

  lemma StandstillSucceeds(st: KeyState, w: Window)
    requires PlanSpec(st.intervals, w) != []
    ensures var env := Env(true, StandstillOutcomes(PlanSpec(st.intervals, w), st.bars), false, false);
      GetResult(st, w, env).Ok?
  {
    var outcomes := StandstillOutcomes(PlanSpec(st.intervals, w), st.bars);
    MissWrites(st, w, outcomes, false, false);
  }

  /** Such a call can lose a bar if and only if there is something to fetch and the repository
      holds a bar in the window that no planned range asks for. */
  lemma UnreadableLosesIff(st: KeyState, w: Window)
    ensures var plan := PlanSpec(st.intervals, w);
      CanLose(st, w) <==>
        plan != [] && exists t :: t in st.bars && w.start <= t <= w.end && !Asked(plan, |plan|, t)
  {
    var plan := PlanSpec(st.intervals, w);
    if env, market :| LosingWorld(st, w, env, market) {
      UnreadableCompleteIff(st, w, env, market);
    }
    if plan != [] && exists t :: t in st.bars && w.start <= t <= w.end && !Asked(plan, |plan|, t) {
      var env, market := Env(true, StandstillOutcomes(plan, st.bars), false, false), StandstillMarket(plan, st.bars);
      StandstillAnswers(plan, st.bars);
      StandstillSucceeds(st, w);
      UnreadableCompleteIff(st, w, env, market);
      assert LosingWorld(st, w, env, market);
    }
  }

  /** A loss: [0, 5) is stored history with a bar at 2, upstream answers [5, 10] with a bar at 7
      whose write fails, and so does the final read. */
  lemma UnreadableLosesBars(x: Payload, y: Payload)
    ensures var st, w := KeyState(map[2 := x], [Interval(0, 5, 6)]), Window(0, 10, 10, 1, 1);
      LosingWorld(st, w, Env(true, [Fetched([Bar(7, y)], false)], false, false), [map[2 := x, 7 := y]])
  {
    var st, w := KeyState(map[2 := x], [Interval(0, 5, 6)]), Window(0, 10, 10, 1, 1);
    var env, market := Env(true, [Fetched([Bar(7, y)], false)], false, false), [map[2 := x, 7 := y]];
    HalfWindowPlan(st.intervals, w);
    MissWrites(st, w, env.outcomes, false, false);
    OneBarAnswer(x, y);
    UnreadableCompleteIff(st, w, env, market);
    assert !Asked([Range(5, 10)], 1, 2);
  }

  lemma HalfWindowPlan(ivs: seq<Interval>, w: Window)
    requires ivs == [Interval(0, 5, 6)] && w == Window(0, 10, 10, 1, 1)
    ensures PlanSpec(ivs, w) == [Range(5, 10)]
  {
    var need, plan := NeedOf(ivs, w), [Range(5, 10)];
    forall p ensures p in need <==> 5 <= p < 10 {
      assert ivs[0] in ivs;
    }
    forall p ensures InRanges(plan, p) <==> w.start <= p < w.end && p in WantedSet(need, w) {
      assert InRanges(plan, p) <==> plan[0].from <= p < plan[0].to;
    }
    SeparatedIsRunsOf(plan, WantedSet(need, w), w.start, w.end);
  }

  lemma OneBarAnswer(x: Payload, y: Payload)
    ensures ToMap([Bar(7, y)]) == Slice(map[2 := x, 7 := y], 5, 10)
  {
  }
}
