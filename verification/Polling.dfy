/** Callers that keep asking for a window ending at the present: the ttl is reachable, and the
    stored frontier cannot creep. */
module Polling {
  import opened Timeline
  import opened Planner
  import opened PlanProperties
  import opened Normalizer
  import opened NormalizerProperties
  import opened Journal
  import opened GetProperties
  import opened Runs
  import opened Staleness

  // ---- the ttl is reachable ----

  /** What a later plan holds after a cold Get of [s0, n0] at n0 was credited. */
  lemma HeldAfterCold(s0: Time, n0: Time, cfg: Config, w: Window, p: Time)
    requires n0 >= ZERO_TIME && n0 - cfg.live <= w.LiveStart()
    ensures Held(Normalized([Interval(s0, n0, n0)], n0 - cfg.live), w, p) <==>
      s0 <= p < n0 && (p < w.LiveStart() || n0 >= w.FreshAfter())
  {
    var one := [Interval(s0, n0, n0)];
    HeldNormalized(one, n0 - cfg.live, w, p);
    assert one[0] in one;
  }

  /** After a cold Get of [s0, n0] at n0 was credited, a Get of [s1, n1] at n1 fetches nothing
      if and only if the clock has not moved or the ttl has not passed. */
  lemma TtlReachableIff(cfg: Config, s0: Time, n0: Time, s1: Time, n1: Time)
    requires n0 >= ZERO_TIME && cfg.ttl >= 0 && s0 <= s1 < n0 <= n1
    ensures PlanSpec(OneFetch(cfg, s0, n0, n0), Window(s1, n1, n1, cfg.ttl, cfg.live)) == [] <==>
      n1 == n0 || n1 < n0 + cfg.ttl
  {
    var ivs, w := OneFetch(cfg, s0, n0, n0), Window(s1, n1, n1, cfg.ttl, cfg.live);
    var need := NeedOf(ivs, w);
    forall p ensures p in need <==> s1 <= p < n1 && !(p < n0 && (p < w.LiveStart() || n0 >= w.FreshAfter())) {
      HeldAfterCold(s0, n0, cfg, w, p);
    }
    PlanEmptyIff(ivs, w);
    if n1 == n0 || n1 < n0 + cfg.ttl {
      forall p | p in need ensures Forgiven(need, w, p) {
        assert TailStart(need, w, n0);
      }
    } else {
      assert n1 - 1 in need;
    }
  }

  /** A cold Get whose fetch and writes all succeed credits exactly its window. */
  lemma ColdGetCredits(cfg: Config, steps: seq<Step>, s: Step)
    requires StateOf(cfg, steps).intervals == [] && s.start < s.end
    requires s.env.intervalsOk && CoverageCredited(StateOf(cfg, steps), WindowOf(cfg, s), s.env)
    ensures StateOf(cfg, steps + [s]).intervals == OneFetch(cfg, s.start, s.end, s.now)
  {
    RunAppend(cfg, steps, s);
    ColdCredit(cfg, StateOf(cfg, steps), s);
  }

  lemma ColdCredit(cfg: Config, st: KeyState, s: Step)
    requires st.intervals == [] && s.start < s.end && s.env.intervalsOk && CoverageCredited(st, WindowOf(cfg, s), s.env)
    ensures ApplyAll(st, GetWrites(st, WindowOf(cfg, s), s.env)).intervals
         == OneFetch(cfg, s.start, s.end, s.now)
  {
    var w := WindowOf(cfg, s);
    IntervalsAfter(st, w, s.env);
    ColdSet(cfg, st, s, w, Fetches(st, w, s.env));
  }

  lemma ColdSet(cfg: Config, st: KeyState, s: Step, w: Window, n: nat)
    requires st.intervals == [] && s.start < s.end && w == WindowOf(cfg, s) && 0 < n <= |PlanSpec(st.intervals, w)|
    ensures CreditedSet(st, w, n) == OneFetch(cfg, s.start, s.end, s.now)
  {
    ColdPlan(w);
    OneCredit(PlanSpec(st.intervals, w), w.now, n);
    assert st.intervals + [Interval(w.start, w.end, w.now)] == [Interval(w.start, w.end, w.now)];
  }

  /** A Get of a window inside [s0, ...) that ends at its own clock, less than a ttl after n0. */
  ghost predicate WithinTtl(cfg: Config, s0: Time, n0: Time, s: Step) {
    s.end == s.now && s0 <= s.start < n0 <= s.now < n0 + cfg.ttl
  }

  ghost predicate PollsWithinTtl(cfg: Config, s0: Time, n0: Time, polls: seq<Step>) {
    forall i :: 0 <= i < |polls| ==> WithinTtl(cfg, s0, n0, polls[i])
  }

  ghost predicate FetchesNothing(cfg: Config, steps: seq<Step>, s: Step) {
    PlanSpec(StateOf(cfg, steps).intervals, WindowOf(cfg, s)) == []
  }

  /** Every poll after the base run finds nothing to fetch. */
  ghost predicate NeverFetch(cfg: Config, base: seq<Step>, polls: seq<Step>) {
    forall i :: 0 <= i < |polls| ==> FetchesNothing(cfg, base + polls[..i], polls[i])
  }

  /** The ttl is reachable: after a cold Get of [start, now] that succeeded and persisted, every
      Get of a window ending at its own clock less than a ttl later fetches nothing, however
      many such Gets happen and whatever else fails. */
  lemma TtlIsReachable(cfg: Config, steps: seq<Step>, s: Step, polls: seq<Step>)
    requires StateOf(cfg, steps).intervals == [] && s.start < s.end == s.now
    requires s.env.intervalsOk && CoverageCredited(StateOf(cfg, steps), WindowOf(cfg, s), s.env)
    requires s.now >= ZERO_TIME && cfg.ttl >= 0 && PollsWithinTtl(cfg, s.start, s.now, polls)
    ensures Run(cfg, steps + [s] + polls) == Run(cfg, steps + [s])
    ensures NeverFetch(cfg, steps + [s], polls)
  {
    ColdGetCredits(cfg, steps, s);
    QuietAfter(cfg, steps + [s], s.start, s.now, polls);
  }

  lemma QuietAfter(cfg: Config, base: seq<Step>, s0: Time, n0: Time, polls: seq<Step>)
    requires StateOf(cfg, base).intervals == OneFetch(cfg, s0, n0, n0)
    requires n0 >= ZERO_TIME && cfg.ttl >= 0 && PollsWithinTtl(cfg, s0, n0, polls)
    ensures Run(cfg, base + polls) == Run(cfg, base)
    ensures NeverFetch(cfg, base, polls)
  {
    var ivs := PollsPlanNothing(cfg, s0, n0, polls);
    PollsStayQuiet(cfg, base, ivs, polls);
  }

  lemma PollsPlanNothing(cfg: Config, s0: Time, n0: Time, polls: seq<Step>) returns (ivs: seq<Interval>)
    requires n0 >= ZERO_TIME && cfg.ttl >= 0 && PollsWithinTtl(cfg, s0, n0, polls)
    ensures ivs == OneFetch(cfg, s0, n0, n0)
    ensures forall i :: 0 <= i < |polls| ==> PlanSpec(ivs, WindowOf(cfg, polls[i])) == []
  {
    ivs := OneFetch(cfg, s0, n0, n0);
    forall i | 0 <= i < |polls| ensures PlanSpec(ivs, WindowOf(cfg, polls[i])) == [] {
      assert WithinTtl(cfg, s0, n0, polls[i]);
      TtlReachableIff(cfg, s0, n0, polls[i].start, polls[i].now);
    }
  }

  /** Gets whose plan against the stored coverage is empty leave it alone, however many. */
  lemma PollsStayQuiet(cfg: Config, base: seq<Step>, ivs: seq<Interval>, polls: seq<Step>)
    requires StateOf(cfg, base).intervals == ivs
    requires forall i :: 0 <= i < |polls| ==> PlanSpec(ivs, WindowOf(cfg, polls[i])) == []
    ensures Run(cfg, base + polls) == Run(cfg, base)
    ensures NeverFetch(cfg, base, polls)
  {
    StaysQuiet(cfg, base, ivs, polls, |polls|);
    assert polls[..|polls|] == polls;
    forall i | 0 <= i < |polls| ensures FetchesNothing(cfg, base + polls[..i], polls[i]) {
      StaysQuiet(cfg, base, ivs, polls, i);
    }
  }

  lemma {:induction false} StaysQuiet(cfg: Config, base: seq<Step>, ivs: seq<Interval>, polls: seq<Step>, n: nat)
    requires n <= |polls| && StateOf(cfg, base).intervals == ivs
    requires forall i :: 0 <= i < |polls| ==> PlanSpec(ivs, WindowOf(cfg, polls[i])) == []
    ensures Run(cfg, base + polls[..n]) == Run(cfg, base)
  {
    if n == 0 {
      assert base + polls[..0] == base;
    } else {
      StaysQuiet(cfg, base, ivs, polls, n - 1);
      EmptyPlanWritesNothing(cfg, base + polls[..n - 1], polls[n - 1]);
      StepsSlice(base, polls, n);
    }
  }

  lemma EmptyPlanWritesNothing(cfg: Config, steps: seq<Step>, s: Step)
    requires FetchesNothing(cfg, steps, s)
    ensures Run(cfg, steps + [s]) == Run(cfg, steps)
  {
    RunAppend(cfg, steps, s);
    assert GetWrites(StateOf(cfg, steps), WindowOf(cfg, s), s.env) == [];
  }

  lemma StepsSlice(base: seq<Step>, polls: seq<Step>, n: nat)
    requires 0 < n <= |polls|
    ensures base + polls[..n] == base + polls[..n - 1] + [polls[n - 1]]
  {
  }

  lemma StepsSnoc(base: seq<Step>, prev: seq<Step>, last: Step)
    ensures base + (prev + [last]) == base + prev + [last]
  {
  }

  // ---- the frontier ----

  ghost predicate IsFrontier(ivs: seq<Interval>, f: Time) {
    (exists iv :: iv in ivs && iv.to == f) && forall iv :: iv in ivs ==> iv.to <= f
  }

  /** No coverage reaches past the clock, and the coverage just before the frontier was fetched
      no earlier than the frontier. */
  ghost predicate FrontierFresh(ivs: seq<Interval>, clock: Time) {
    && NonEmptyIntervals(ivs)
    && (forall iv :: iv in ivs ==> iv.to <= clock)
    && (forall f :: IsFrontier(ivs, f) ==> exists iv :: iv in ivs && iv.to == f && iv.fetchedAt >= f)
  }

  lemma FrontierPointwise(ivs: seq<Interval>, f: Time)
    requires NonEmptyIntervals(ivs)
    ensures IsFrontier(ivs, f) <==> Covered(ivs, f - 1) && forall p :: p >= f ==> !Covered(ivs, p)
  {
    if IsFrontier(ivs, f) {
      var iv :| iv in ivs && iv.to == f;
      assert Covers(iv, f - 1);
    }
    if Covered(ivs, f - 1) && forall p :: p >= f ==> !Covered(ivs, p) {
      forall iv | iv in ivs ensures iv.to <= f {
        assert Covers(iv, iv.to - 1);
        assert Covered(ivs, iv.to - 1);
      }
      var iv :| iv in ivs && Covers(iv, f - 1);
      assert iv.to == f;
    }
  }

  /** A range that reaches past the frontier is the trailing one, and then the frontier is at
      least a ttl behind the clock. */
  lemma RangeBeyondFrontier(ivs: seq<Interval>, w: Window, i: nat, f: Time, iv: Interval)
    requires NonEmptyIntervals(ivs) && IsFrontier(ivs, f)
    requires iv in ivs && iv.to == f && iv.fetchedAt >= f
    requires w.end <= w.now && w.start <= w.now - w.ttl && i < |PlanSpec(ivs, w)|
    requires PlanSpec(ivs, w)[i].to > f
    ensures PlanSpec(ivs, w)[i].to == w.end && f <= w.now - w.ttl
  {
    var need, r := NeedOf(ivs, w), PlanSpec(ivs, w)[i];
    NeedInWindow(ivs, w);
    RunEndsKept(need, w, i);
    RunEndsWanted(need, w, i);
    FrontierPointwise(ivs, f);
    forall q | f <= q && w.start <= q < w.end ensures q in need {
      assert !Covered(ivs, q);
    }
    assert r.to - 1 in need;
    HeldAtFrontier(ivs, w, f, iv);
    assert f > w.now - w.ttl && f < w.end ==> TailStart(need, w, f);
  }

  lemma HeldAtFrontier(ivs: seq<Interval>, w: Window, f: Time, iv: Interval)
    requires NonEmptyIntervals(ivs) && iv in ivs && iv.to == f && iv.fetchedAt >= f
    ensures f > w.FreshAfter() ==> Held(ivs, w, f - 1)
  {
    assert Covers(iv, f - 1);
  }

  lemma CreditedFrontier(st: KeyState, w: Window, n: nat, clock: Time, f: Time)
    requires FrontierFresh(st.intervals, clock) && Stamped(st.intervals) && clock <= w.now
    requires w.end <= w.now && w.now >= ZERO_TIME && w.start <= w.now - w.ttl
    requires n <= |PlanSpec(st.intervals, w)| && IsFrontier(CreditedSet(st, w, n), f)
    ensures exists iv :: iv in CreditedSet(st, w, n) && iv.to == f && iv.fetchedAt >= f
    ensures f <= w.now
    ensures forall f0 :: IsFrontier(st.intervals, f0) ==> f == f0 || f >= f0 + w.ttl - (w.now - w.end)
  {
    var plan := PlanSpec(st.intervals, w);
    var ins, out := st.intervals + Credits(plan, w.now, n), CreditedSet(st, w, n);
    StampedWithCredits(st, w, n);
    NormalizedExact(ins, w.LiveStart());
    PlanBounds(st.intervals, w);
    var x := FrontierSource(st, w, n, clock, f);
    EndStamp(ins, w.LiveStart(), f, x);
  }

  /** The segment at the frontier is stamped no earlier than any input that reaches it. */
  lemma EndStamp(ins: seq<Interval>, hb: Time, f: Time, x: Interval)
    requires Stamped(ins) && IsFrontier(Normalized(ins, hb), f) && x in ins && Covers(x, f - 1)
    ensures exists iv :: iv in Normalized(ins, hb) && iv.to == f && iv.fetchedAt >= x.fetchedAt
  {
    var out := Normalized(ins, hb);
    NormalizedExact(ins, hb);
    assert Covered(out, f - 1);
    var o :| o in out && Covers(o, f - 1);
    assert o.to == f;
    FreshAtAttained(ins, f - 1);
    assert StampExact(o, ins, hb);
  }

  /** The input interval that ends at the new frontier. */
  lemma FrontierSource(st: KeyState, w: Window, n: nat, clock: Time, f: Time) returns (x: Interval)
    requires FrontierFresh(st.intervals, clock) && clock <= w.now
    requires w.end <= w.now && w.start <= w.now - w.ttl
    requires n <= |PlanSpec(st.intervals, w)| && IsFrontier(CreditedSet(st, w, n), f)
    requires NonEmptyIntervals(CreditedSet(st, w, n))
    ensures x in st.intervals || x in Credits(PlanSpec(st.intervals, w), w.now, n)
    ensures Covers(x, f - 1) && x.fetchedAt >= f && f <= w.now
    ensures forall f0 :: IsFrontier(st.intervals, f0) ==> f == f0 || f >= f0 + w.ttl - (w.now - w.end)
  {
    var plan, out := PlanSpec(st.intervals, w), CreditedSet(st, w, n);
    FrontierPointwise(out, f);
    forall p ensures Covered(out, p) <==> Covered(st.intervals, p) || InRanges(plan[..n], p) {
      CreditedCoverage(st, w, n, p);
    }
    forall f0 | IsFrontier(st.intervals, f0) ensures f0 <= f {
      FrontierPointwise(st.intervals, f0);
      assert Covered(out, f0 - 1);
    }
    if Covered(st.intervals, f - 1) {
      assert forall p :: p >= f ==> !Covered(out, p);
      FrontierPointwise(st.intervals, f);
      x :| x in st.intervals && x.to == f && x.fetchedAt >= f;
      assert x.from < x.to;
    } else {
      var i :| 0 <= i < n && plan[..n][i].from <= f - 1 < plan[..n][i].to;
      PlanBounds(st.intervals, w);
      RangeEndsAt(plan, n, i, f);
      x := Credits(plan, w.now, n)[i];
      forall f0 | IsFrontier(st.intervals, f0) ensures f == f0 || f >= f0 + w.ttl - (w.now - w.end) {
        FrontierPointwise(st.intervals, f0);
        if f > f0 {
          var iv :| iv in st.intervals && iv.to == f0 && iv.fetchedAt >= f0;
          RangeBeyondFrontier(st.intervals, w, i, f0, iv);
        }
      }
    }
  }

  lemma RangeEndsAt(plan: seq<Range>, n: nat, i: nat, f: Time)
    requires n <= |plan| && i < n && plan[i].from <= f - 1 < plan[i].to
    requires forall p :: p >= f ==> !InRanges(plan[..n], p)
    ensures plan[i].to == f
  {
    assert plan[..n][i].from <= plan[i].to - 1 < plan[..n][i].to;
    assert InRanges(plan[..n], plan[i].to - 1);
  }

  /** A Get of a window that ended at most `lag` before the clock it read, with a lookback of at
      least the ttl. */
  ghost predicate IsPoll(cfg: Config, lag: Time, s: Step) {
    s.end <= s.now <= s.end + lag && s.start <= s.now - cfg.ttl && s.now >= ZERO_TIME
  }

  /** One poll, whatever fails in it. */
  lemma PollStep(cfg: Config, lag: Time, steps: seq<Step>, s: Step, clock: Time)
    requires cfg.ttl >= 0 && IsPoll(cfg, lag, s) && clock <= s.now
    requires FrontierFresh(StateOf(cfg, steps).intervals, clock)
    ensures FrontierFresh(StateOf(cfg, steps + [s]).intervals, s.now)
    ensures forall f0, f ::
      IsFrontier(StateOf(cfg, steps).intervals, f0) && IsFrontier(StateOf(cfg, steps + [s]).intervals, f) ==>
        f == f0 || f >= f0 + cfg.ttl - lag
  {
    var st, w := StateOf(cfg, steps), WindowOf(cfg, s);
    RunAppend(cfg, steps, s);
    RunStamped(cfg, steps);
    IntervalsAfter(st, w, s.env);
    if s.env.intervalsOk && CoverageCredited(st, w, s.env) {
      var n := Fetches(st, w, s.env);
      var out := CreditedSet(st, w, n);
      NormalizedExact(st.intervals + Credits(PlanSpec(st.intervals, w), w.now, n), w.LiveStart());
      forall f | IsFrontier(out, f)
        ensures exists iv :: iv in out && iv.to == f && iv.fetchedAt >= f
        ensures f <= s.now
        ensures forall f0 :: IsFrontier(st.intervals, f0) ==> f == f0 || f >= f0 + cfg.ttl - lag
      {
        CreditedFrontier(st, w, n, clock, f);
      }
      forall iv | iv in out ensures iv.to <= s.now {
        var f := MaxTo(out);
        MaxToIsFrontier(out);
      }
    } else {
      forall f0, f | IsFrontier(st.intervals, f0) && IsFrontier(st.intervals, f) ensures f == f0 {
      }
    }
  }

  ghost function MaxTo(ivs: seq<Interval>): Time
    requires ivs != []
  {
    var n := |ivs| - 1;
    if n == 0 then ivs[0].to else MaxTime(MaxTo(ivs[..n]), ivs[n].to)
  }

  lemma {:induction false} MaxToIsFrontier(ivs: seq<Interval>)
    requires ivs != []
    ensures IsFrontier(ivs, MaxTo(ivs))
  {
    var n := |ivs| - 1;
    assert ivs == ivs[..n] + [ivs[n]] && ivs[n] in ivs;
    if n > 0 {
      MaxToIsFrontier(ivs[..n]);
    }
  }

  lemma {:induction false} PollsFresh(cfg: Config, lag: Time, polls: seq<Step>)
    requires cfg.ttl >= 0 && AllPolls(cfg, lag, polls)
    ensures FrontierFresh(StateOf(cfg, polls).intervals, if polls == [] then ZERO_TIME else polls[|polls| - 1].now)
  {
    if polls != [] {
      var n := |polls| - 1;
      PollsFresh(cfg, lag, polls[..n]);
      assert polls == polls[..n] + [polls[n]];
      PollStep(cfg, lag, polls[..n], polls[n], if n == 0 then ZERO_TIME else polls[n - 1].now);
    }
  }

  /** Frontier spacing: when every window ends at most `lag` before the clock of its Get and looks
      back at least the ttl, each Get leaves the greatest stored end where it is or moves it on
      by at least ttl - lag, however fast the polls come and whatever fails. */
  lemma FrontierSpacing(cfg: Config, lag: Time, polls: seq<Step>, s: Step)
    requires cfg.ttl >= 0 && AllPolls(cfg, lag, polls + [s])
    requires StateOf(cfg, polls).intervals != []
    ensures StateOf(cfg, polls + [s]).intervals != []
    ensures var before, after := MaxTo(StateOf(cfg, polls).intervals), MaxTo(StateOf(cfg, polls + [s]).intervals);
      after == before || after >= before + cfg.ttl - lag
  {
    var all := polls + [s];
    assert all[|polls|] == s && forall i :: 0 <= i < |polls| ==> all[i] == polls[i];
    PollsFresh(cfg, lag, polls);
    PollStep(cfg, lag, polls, s, if polls == [] then ZERO_TIME else polls[|polls| - 1].now);
    MaxToIsFrontier(StateOf(cfg, polls).intervals);
    StillCovered(cfg, polls, s);
    MaxToIsFrontier(StateOf(cfg, all).intervals);
  }

  lemma StillCovered(cfg: Config, polls: seq<Step>, s: Step)
    requires NonEmptyIntervals(StateOf(cfg, polls).intervals) && StateOf(cfg, polls).intervals != []
    ensures StateOf(cfg, polls + [s]).intervals != []
  {
    var st, w := StateOf(cfg, polls), WindowOf(cfg, s);
    var iv := st.intervals[0];
    assert iv in st.intervals && Covers(iv, iv.from);
    RunAppend(cfg, polls, s);
    IntervalsAfter(st, w, s.env);
    if s.env.intervalsOk && CoverageCredited(st, w, s.env) {
      CreditedCoverage(st, w, Fetches(st, w, s.env), iv.from);
    }
  }

  ghost predicate AllPolls(cfg: Config, lag: Time, polls: seq<Step>) {
    Clocked(polls) && forall i :: 0 <= i < |polls| ==> IsPoll(cfg, lag, polls[i])
  }

  lemma PollsPrefix(cfg: Config, lag: Time, polls: seq<Step>, more: seq<Step>)
    requires AllPolls(cfg, lag, polls + more)
    ensures AllPolls(cfg, lag, polls)
  {
    assert forall i :: 0 <= i < |polls| ==> (polls + more)[i] == polls[i];
  }

  lemma {:induction false} StillCoveredAfter(cfg: Config, lag: Time, base: seq<Step>, polls: seq<Step>)
    requires cfg.ttl >= 0 && AllPolls(cfg, lag, base + polls) && StateOf(cfg, base).intervals != []
    ensures StateOf(cfg, base + polls).intervals != []
  {
    if polls == [] {
      assert base + polls == base;
    } else {
      var prev, s := polls[..|polls| - 1], polls[|polls| - 1];
      StepsSnoc(base, prev, s);
      assert polls == prev + [s];
      PollsPrefix(cfg, lag, base + prev, [s]);
      StillCoveredAfter(cfg, lag, base, prev);
      FrontierSpacing(cfg, lag, base + prev, s);
    }
  }

  /** How often consecutive entries differ. */
  function Changes(fs: seq<Time>): nat {
    if |fs| <= 1 then 0 else Changes(fs[..|fs| - 1]) + if fs[|fs| - 2] != fs[|fs| - 1] then 1 else 0
  }

  lemma {:induction false} SpacedChanges(fs: seq<Time>, gap: Time)
    requires fs != [] && gap >= 0
    requires forall i :: 0 <= i < |fs| - 1 ==> fs[i + 1] == fs[i] || fs[i + 1] >= fs[i] + gap
    ensures Changes(fs) * gap <= fs[|fs| - 1] - fs[0]
  {
    if |fs| > 1 {
      var prev := fs[..|fs| - 1];
      SpacedChanges(prev, gap);
      assert (Changes(prev) + 1) * gap == Changes(prev) * gap + gap;
    }
  }

  ghost function FrontierOf(ivs: seq<Interval>): Time {
    if ivs == [] then ZERO_TIME else MaxTo(ivs)
  }

  /** The frontier after the base run and after each of the polls that follow. */
  ghost function Frontiers(cfg: Config, base: seq<Step>, polls: seq<Step>): (fs: seq<Time>)
    ensures |fs| == |polls| + 1
  {
    seq(|polls| + 1, i requires 0 <= i <= |polls| => FrontierOf(StateOf(cfg, base + polls[..i]).intervals))
  }

  lemma FrontiersSpaced(cfg: Config, lag: Time, base: seq<Step>, polls: seq<Step>, i: nat)
    requires cfg.ttl >= 0 && AllPolls(cfg, lag, base + polls) && StateOf(cfg, base).intervals != []
    requires i < |polls|
    ensures var fs := Frontiers(cfg, base, polls); fs[i + 1] == fs[i] || fs[i + 1] >= fs[i] + cfg.ttl - lag
  {
    var prev, s := base + polls[..i], polls[i];
    assert polls[..i + 1] == polls[..i] + [s];
    StepsSnoc(base, polls[..i], s);
    assert base + polls == prev + [s] + polls[i + 1..];
    PollsPrefix(cfg, lag, prev + [s], polls[i + 1..]);
    PollsPrefix(cfg, lag, prev, [s]);
    StillCoveredAfter(cfg, lag, base, polls[..i]);
    FrontierSpacing(cfg, lag, prev, s);
  }

  /** So the number of times the frontier moves is bounded by the time it covers, not by the
      number of polls: windows that lag behind their clock by at most ttl - gap move it by at
      least the gap each time. */
  lemma FrontierMovesRarely(cfg: Config, gap: Time, base: seq<Step>, polls: seq<Step>)
    requires 0 <= gap <= cfg.ttl && AllPolls(cfg, cfg.ttl - gap, base + polls) && StateOf(cfg, base).intervals != []
    ensures var fs := Frontiers(cfg, base, polls); Changes(fs) * gap <= fs[|polls|] - fs[0]
  {
    AllFrontiersSpaced(cfg, cfg.ttl - gap, base, polls, gap);
    SpacedChanges(Frontiers(cfg, base, polls), gap);
  }

  lemma AllFrontiersSpaced(cfg: Config, lag: Time, base: seq<Step>, polls: seq<Step>, gap: Time)
    requires cfg.ttl >= 0 && gap == cfg.ttl - lag
    requires AllPolls(cfg, lag, base + polls) && StateOf(cfg, base).intervals != []
    ensures var fs := Frontiers(cfg, base, polls);
      forall i :: 0 <= i < |fs| - 1 ==> fs[i + 1] == fs[i] || fs[i + 1] >= fs[i] + gap
  {
    var fs := Frontiers(cfg, base, polls);
    forall i | 0 <= i < |fs| - 1 ensures fs[i + 1] == fs[i] || fs[i + 1] >= fs[i] + gap {
      FrontiersSpaced(cfg, lag, base, polls, i);
    }
  }
}
