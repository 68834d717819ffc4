/** How old the fetch behind each served live instant may be, over every run. */
module Staleness {
  import opened Wrappers
  import opened Timeline
  import opened Bars
  import opened Planner
  import opened PlanProperties
  import opened Normalizer
  import opened NormalizerProperties
  import opened Journal
  import opened GetProperties
  import opened Runs
  import opened Answers

  /** No clock reads before the zero time. */
  ghost predicate RealClocks(steps: seq<Step>) {
    forall i :: 0 <= i < |steps| ==> steps[i].now >= ZERO_TIME
  }

  /** No Get of the run took the instants from the horizon on for history. */
  ghost predicate LiveThroughout(cfg: Config, steps: seq<Step>, horizon: Time) {
    forall i :: 0 <= i < |steps| ==> steps[i].now - cfg.live <= horizon
  }

  /** Clocks are read in lock order and never run backwards. */
  ghost predicate Clocked(steps: seq<Step>) {
    RealClocks(steps) && forall i, j :: 0 <= i < j < |steps| ==> steps[i].now <= steps[j].now
  }

  lemma {:induction false} RunStamped(cfg: Config, steps: seq<Step>)
    ensures Stamped(StateOf(cfg, steps).intervals)
  {
    if steps != [] {
      var n := |steps| - 1;
      RunStamped(cfg, steps[..n]);
      assert steps == steps[..n] + [steps[n]];
      RunAppend(cfg, steps[..n], steps[n]);
      var st, w, env := StateOf(cfg, steps[..n]), WindowOf(cfg, steps[n]), steps[n].env;
      IntervalsAfter(st, w, env);
      if env.intervalsOk && CoverageCredited(st, w, env) {
        var k := Fetches(st, w, env);
        NormalizedStamped(st.intervals + Credits(PlanSpec(st.intervals, w), w.now, k), w.LiveStart());
      }
    }
  }

  // ---- every live stamp is the stamp of a written fetch ----

  ghost predicate Witnessed(journal: seq<Write>, p: Time, stamp: Time) {
    exists i :: 0 <= i < |journal| && journal[i].StoredBars?
      && InRange(journal[i].event.range, p) && journal[i].event.stamp == stamp
  }

  /** From the horizon on, a stored stamp is that of a written fetch holding the instant. */
  ghost predicate StampsWitnessed(journal: seq<Write>, horizon: Time) {
    forall iv, p :: iv in After(journal).intervals && Covers(iv, p) && p >= horizon ==>
      Witnessed(journal, p, iv.fetchedAt)
  }

  lemma WitnessPersists(journal: seq<Write>, more: seq<Write>, p: Time, stamp: Time)
    requires Witnessed(journal, p, stamp)
    ensures Witnessed(journal + more, p, stamp)
  {
    var i :| 0 <= i < |journal| && journal[i].StoredBars?
      && InRange(journal[i].event.range, p) && journal[i].event.stamp == stamp;
    assert (journal + more)[i] == journal[i];
  }

  lemma CreditedWitness(journal: seq<Write>, w: Window, env: Env, x: Interval, p: Time)
    requires env.intervalsOk && CoverageCredited(After(journal), w, env)
    requires var st := After(journal);
      x in Credits(PlanSpec(st.intervals, w), w.now, Fetches(st, w, env)) && Covers(x, p)
    ensures Witnessed(journal + GetWrites(After(journal), w, env), p, x.fetchedAt)
  {
    var st := After(journal);
    var plan, n, ws := PlanSpec(st.intervals, w), Fetches(st, w, env), GetWrites(st, w, env);
    var i :| 0 <= i < n && Credits(plan, w.now, n)[i] == x;
    assert ws[i] == StoredBars(EventOf(plan[i], w.now, env.outcomes[i]));
    assert (journal + ws)[|journal| + i] == ws[i];
    assert InRange(ws[i].event.range, p);
  }

  lemma GetKeepsWitnessed(journal: seq<Write>, horizon: Time, w: Window, env: Env)
    requires StampsWitnessed(journal, horizon) && Stamped(After(journal).intervals)
    requires w.now >= ZERO_TIME && w.LiveStart() <= horizon
    ensures StampsWitnessed(journal + GetWrites(After(journal), w, env), horizon)
  {
    var st, ws := After(journal), GetWrites(After(journal), w, env);
    ApplyAllConcat(EMPTY_STATE, journal, ws);
    IntervalsAfter(st, w, env);
    forall iv, p | iv in After(journal + ws).intervals && Covers(iv, p) && p >= horizon
      ensures Witnessed(journal + ws, p, iv.fetchedAt)
    {
      if env.intervalsOk && CoverageCredited(st, w, env) {
        var n := Fetches(st, w, env);
        StampedWithCredits(st, w, n);
        var x := LiveStampSource(st, w, n, iv, p);
        if x in st.intervals {
          WitnessPersists(journal, ws, p, x.fetchedAt);
        } else {
          CreditedWitness(journal, w, env, x, p);
        }
      } else {
        WitnessPersists(journal, ws, p, iv.fetchedAt);
      }
    }
  }

  /** The stamp of a credited segment at a live instant comes from one of its inputs. */
  lemma LiveStampSource(st: KeyState, w: Window, n: nat, iv: Interval, p: Time) returns (x: Interval)
    requires n <= |PlanSpec(st.intervals, w)|
    requires Stamped(st.intervals + Credits(PlanSpec(st.intervals, w), w.now, n))
    requires iv in CreditedSet(st, w, n) && Covers(iv, p) && p >= w.LiveStart()
    ensures x in st.intervals || x in Credits(PlanSpec(st.intervals, w), w.now, n)
    ensures Covers(x, p) && x.fetchedAt == iv.fetchedAt
  {
    var ins := st.intervals + Credits(PlanSpec(st.intervals, w), w.now, n);
    NormalizedExact(ins, w.LiveStart());
    assert StampExact(iv, ins, w.LiveStart());
    assert Covered(CreditedSet(st, w, n), p);
    FreshAtAttained(ins, p);
    x :| x in ins && Covers(x, p) && x.fetchedAt == FreshAt(ins, p);
  }

  lemma {:induction false} RunWitnessed(cfg: Config, steps: seq<Step>, horizon: Time)
    requires RealClocks(steps) && LiveThroughout(cfg, steps, horizon)
    ensures StampsWitnessed(Run(cfg, steps), horizon)
  {
    if steps != [] {
      var n := |steps| - 1;
      RunWitnessed(cfg, steps[..n], horizon);
      RunStamped(cfg, steps[..n]);
      GetKeepsWitnessed(Run(cfg, steps[..n]), horizon, WindowOf(cfg, steps[n]), steps[n].env);
    }
  }

  // ---- stamps follow the order of the clocks ----

  ghost predicate AscendingStamps(events: seq<FetchEvent>) {
    forall i, j :: 0 <= i < j < |events| ==> events[i].stamp <= events[j].stamp
  }

  lemma {:induction false} StoredEventsConcat(a: seq<Write>, b: seq<Write>)
    ensures StoredEvents(a + b) == StoredEvents(a) + StoredEvents(b)
  {
    if b == [] {
      assert a + b == a;
    } else {
      var n := |b| - 1;
      StoredEventsConcat(a, b[..n]);
      assert (a + b)[..|a + b| - 1] == a + b[..n];
    }
  }

  lemma StoredStamps(st: KeyState, w: Window, env: Env)
    ensures forall e :: e in StoredEvents(GetWrites(st, w, env)) ==> e.stamp == w.now
  {
    forall e | e in StoredEvents(GetWrites(st, w, env)) ensures e.stamp == w.now {
      var i := StoredEventFrom(GetWrites(st, w, env), e);
      GetEvent(st, w, env, i);
    }
  }

  lemma FetchedStamps(st: KeyState, w: Window, env: Env)
    ensures forall e :: e in FetchedEvents(GetWrites(st, w, env)) ==> e.stamp == w.now
  {
    forall e | e in FetchedEvents(GetWrites(st, w, env)) ensures e.stamp == w.now {
      var i := FetchedEventFrom(GetWrites(st, w, env), e);
      GetEvent(st, w, env, i);
    }
  }

  ghost predicate StampsUpTo(events: seq<FetchEvent>, bound: Time) {
    AscendingStamps(events) && forall e :: e in events ==> e.stamp <= bound
  }

  lemma StampsConcat(a: seq<FetchEvent>, b: seq<FetchEvent>, early: Time, late: Time)
    requires StampsUpTo(a, early) && early <= late && forall e :: e in b ==> e.stamp == late
    ensures StampsUpTo(a + b, late)
  {
    var all := a + b;
    forall i, j | 0 <= i < j < |all| ensures all[i].stamp <= all[j].stamp {
      assert j < |a| ==> a[i].stamp <= a[j].stamp;
      assert i < |a| ==> a[i] in a;
      assert i >= |a| ==> all[i] in b;
      assert j >= |a| ==> all[j] in b;
    }
  }

  lemma {:induction false} RunStampsAscend(cfg: Config, steps: seq<Step>, bound: Time)
    requires Clocked(steps) && forall i :: 0 <= i < |steps| ==> steps[i].now <= bound
    ensures StampsUpTo(StoredEvents(Run(cfg, steps)), bound)
  {
    if steps != [] {
      var n := |steps| - 1;
      var journal, w := Run(cfg, steps[..n]), WindowOf(cfg, steps[n]);
      RunStampsAscend(cfg, steps[..n], w.now);
      StoredStamps(After(journal), w, steps[n].env);
      StoredEventsConcat(journal, GetWrites(After(journal), w, steps[n].env));
      StampsConcat(StoredEvents(journal), StoredEvents(GetWrites(After(journal), w, steps[n].env)), w.now, w.now);
    }
  }

  lemma VisibleStampsAscend(cfg: Config, steps: seq<Step>, s: Step)
    requires Clocked(steps + [s])
    ensures AscendingStamps(Visible(cfg, steps, s))
  {
    var all := steps + [s];
    assert all[|steps|] == s && forall i :: 0 <= i < |steps| ==> all[i] == steps[i];
    var found := if s.env.readOk then StoredEvents(Run(cfg, steps)) else [];
    RunStampsAscend(cfg, steps, s.now);
    FetchedStamps(StateOf(cfg, steps), WindowOf(cfg, s), s.env);
    StampsConcat(found, FetchedEvents(GetWrites(StateOf(cfg, steps), WindowOf(cfg, s), s.env)), s.now, s.now);
  }

  // ---- bounded staleness ----

  /** The instant is in the forgiven tail, and so itself newer than now - ttl. */
  ghost predicate ForgivenRecently(cfg: Config, steps: seq<Step>, s: Step, t: Time) {
    Forgiven(NeedOf(StateOf(cfg, steps).intervals, WindowOf(cfg, s)), WindowOf(cfg, s), t) && t > s.now - cfg.ttl
  }

  /** The call could not read the repository and did not ask for the time, so it serves nothing
      there. */
  ghost predicate Unread(cfg: Config, steps: seq<Step>, s: Step, t: Time) {
    var plan := PlanSpec(StateOf(cfg, steps).intervals, WindowOf(cfg, s));
    !s.env.readOk && !Asked(plan, |plan|, t) && ServedAt(cfg, steps, s, t) == None
  }

  /** Visible fetch k asks for the time and is fresh. */
  ghost predicate FreshFetch(cfg: Config, steps: seq<Step>, s: Step, t: Time, k: nat) {
    var events := Visible(cfg, steps, s);
    k < |events| && Asks(events[k], t) && events[k].stamp >= s.now - cfg.ttl
  }

  /** The call serves for the time what upstream answered visible fetch i, the last to ask. */
  ghost predicate ServedFrom(cfg: Config, steps: seq<Step>, s: Step, market: seq<BarMap>, t: Time, i: nat) {
    var events := Visible(cfg, steps, s);
    |events| == |market| && LastAsking(events, t, i) && ServedAt(cfg, steps, s, t) == At(market[i], t)
  }

  /** The answer served for the time is that of a fetch no earlier in the run than a fresh one,
      unless the time is forgiven, or the call could not read it and did not ask. */
  ghost predicate ServedFreshly(cfg: Config, steps: seq<Step>, s: Step, market: seq<BarMap>, t: Time) {
    || (exists k: nat, i: nat ::
          k <= i && FreshFetch(cfg, steps, s, t, k) && ServedFrom(cfg, steps, s, market, t, i))
    || ForgivenRecently(cfg, steps, s, t)
    || Unread(cfg, steps, s, t)
  }

  /** The same, and the very fetch whose answer is served is fresh. */
  ghost predicate ServedFromFresh(cfg: Config, steps: seq<Step>, s: Step, market: seq<BarMap>, t: Time) {
    || (exists i: nat :: FreshFetch(cfg, steps, s, t, i) && ServedFrom(cfg, steps, s, market, t, i))
    || ForgivenRecently(cfg, steps, s, t)
    || Unread(cfg, steps, s, t)
  }

  lemma OwnFetch(cfg: Config, steps: seq<Step>, s: Step, t: Time, i: nat) returns (k: nat)
    requires cfg.ttl >= 0 && GetResult(StateOf(cfg, steps), WindowOf(cfg, s), s.env).Ok?
    requires i < |PlanSpec(StateOf(cfg, steps).intervals, WindowOf(cfg, s))|
    requires var r := PlanSpec(StateOf(cfg, steps).intervals, WindowOf(cfg, s))[i]; r.from <= t <= r.to
    ensures FreshFetch(cfg, steps, s, t, k)
  {
    var st, w := StateOf(cfg, steps), WindowOf(cfg, s);
    var ws := GetWrites(st, w, s.env);
    assert ws[i] == WriteOf(PlanSpec(st.intervals, w)[i], w.now, s.env.outcomes[i]);
    FetchedEventIn(ws, i);
    assert ws[i].event in Visible(cfg, steps, s);
    k :| 0 <= k < |Visible(cfg, steps, s)| && Visible(cfg, steps, s)[k] == ws[i].event;
  }

  lemma StoredFetch(cfg: Config, steps: seq<Step>, s: Step, t: Time) returns (k: nat)
    requires RealClocks(steps) && LiveThroughout(cfg, steps, t) && t >= s.now - cfg.live && s.env.readOk
    requires Held(StateOf(cfg, steps).intervals, WindowOf(cfg, s), t)
    ensures FreshFetch(cfg, steps, s, t, k)
  {
    var journal, w := Run(cfg, steps), WindowOf(cfg, s);
    var iv :| iv in StateOf(cfg, steps).intervals && Covers(iv, t)
      && (t < w.LiveStart() || iv.fetchedAt >= w.FreshAfter());
    RunWitnessed(cfg, steps, t);
    assert Witnessed(journal, t, iv.fetchedAt);
    var i :| 0 <= i < |journal| && journal[i].StoredBars?
      && InRange(journal[i].event.range, t) && journal[i].event.stamp == iv.fetchedAt;
    StoredEventIn(journal, i);
    assert journal[i].event in Visible(cfg, steps, s);
    k :| 0 <= k < |Visible(cfg, steps, s)| && Visible(cfg, steps, s)[k] == journal[i].event;
  }

  lemma NothingUnread(cfg: Config, steps: seq<Step>, s: Step, market: seq<BarMap>, t: Time)
    requires GetResult(StateOf(cfg, steps), WindowOf(cfg, s), s.env).Ok? && !s.env.readOk
    requires Honest(Visible(cfg, steps, s), market) && s.start <= t <= s.end
    requires var plan := PlanSpec(StateOf(cfg, steps).intervals, WindowOf(cfg, s)); !Asked(plan, |plan|, t)
    ensures Unread(cfg, steps, s, t)
  {
    var st, w, events := StateOf(cfg, steps), WindowOf(cfg, s), Visible(cfg, steps, s);
    forall i | 0 <= i < |events| ensures !Asks(events[i], t) {
      var j := FetchedEventFrom(GetWrites(st, w, s.env), events[i]);
      GetEvent(st, w, s.env, j);
    }
    ServesLatestAnswers(cfg, steps, s, market);
    NoAnswer(events, market, t);
  }

  /** Bounded staleness over every run, whatever fails and in whatever order the clocks were
      read.  At every instant of its window that neither it nor any earlier Get took for
      history, a successful Get serves upstream's answer to the last visible fetch i that asks
      for the instant, which is no earlier in the run than some fetch k stamped at or after
      now - ttl; unless the instant is forgiven and so itself newer than now - ttl, or the call
      could not read the repository and did not ask for it. */
  lemma BoundedStaleness(cfg: Config, steps: seq<Step>, s: Step, market: seq<BarMap>, t: Time)
    requires cfg.ttl >= 0 && RealClocks(steps)
    requires LiveThroughout(cfg, steps, t) && s.start <= t < s.end && t >= s.now - cfg.live
    requires GetResult(StateOf(cfg, steps), WindowOf(cfg, s), s.env).Ok?
    requires Honest(Visible(cfg, steps, s), market)
    ensures ServedFreshly(cfg, steps, s, market, t)
  {
    if s.env.readOk && Held(StateOf(cfg, steps).intervals, WindowOf(cfg, s), t) {
      var k := StoredFetch(cfg, steps, s, t);
    }
    HeldFreshSuffices(cfg, steps, s, market, t);
  }

  /** A result is as fresh as its hits: nothing else can be stale. */
  lemma HeldFreshSuffices(cfg: Config, steps: seq<Step>, s: Step, market: seq<BarMap>, t: Time)
    requires cfg.ttl >= 0 && s.start <= t < s.end
    requires GetResult(StateOf(cfg, steps), WindowOf(cfg, s), s.env).Ok?
    requires Honest(Visible(cfg, steps, s), market)
    requires s.env.readOk && Held(StateOf(cfg, steps).intervals, WindowOf(cfg, s), t) ==>
      exists k: nat :: FreshFetch(cfg, steps, s, t, k)
    ensures ServedFreshly(cfg, steps, s, market, t)
  {
    var st, w := StateOf(cfg, steps), WindowOf(cfg, s);
    var plan := PlanSpec(st.intervals, w);
    PlanExact(st.intervals, w, t);
    if Asked(plan, |plan|, t) {
      var j :| 0 <= j < |plan| && plan[j].from <= t <= plan[j].to;
      var k := OwnFetch(cfg, steps, s, t, j);
      var i := ServedSince(cfg, steps, s, market, t, k);
    } else if Forgiven(NeedOf(st.intervals, w), w, t) {
      ForgivenIsRecent(st.intervals, w, t);
    } else if s.env.readOk {
      NotAskedNotInRange(plan, t);
      var k: nat :| FreshFetch(cfg, steps, s, t, k);
      var i := ServedSince(cfg, steps, s, market, t, k);
    } else {
      NothingUnread(cfg, steps, s, market, t);
    }
  }

  lemma NotAskedNotInRange(plan: seq<Range>, t: Time)
    requires !Asked(plan, |plan|, t)
    ensures !InRanges(plan, t)
  {
  }

  lemma ServedSince(cfg: Config, steps: seq<Step>, s: Step, market: seq<BarMap>, t: Time, k: nat) returns (i: nat)
    requires GetResult(StateOf(cfg, steps), WindowOf(cfg, s), s.env).Ok?
    requires Honest(Visible(cfg, steps, s), market) && s.start <= t <= s.end && FreshFetch(cfg, steps, s, t, k)
    ensures k <= i && ServedFrom(cfg, steps, s, market, t, i)
  {
    ServesLatestAnswers(cfg, steps, s, market);
    i := LastAnswers(Visible(cfg, steps, s), market, t, k);
  }

  /** With clocks read in lock order the bound holds at every live instant and of the very fetch
      whose answer is served: it is the last to ask for the instant and its stamp is at or after
      now - ttl. */
  lemma BoundedStalenessInLockOrder(cfg: Config, steps: seq<Step>, s: Step, market: seq<BarMap>, t: Time)
    requires cfg.ttl >= 0 && Clocked(steps + [s])
    requires s.start <= t < s.end && t >= s.now - cfg.live
    requires GetResult(StateOf(cfg, steps), WindowOf(cfg, s), s.env).Ok?
    requires Honest(Visible(cfg, steps, s), market)
    ensures ServedFromFresh(cfg, steps, s, market, t)
  {
    NobodyAhead(cfg, steps, s, t);
    BoundedStaleness(cfg, steps, s, market, t);
    if k: nat, i: nat :| k <= i && FreshFetch(cfg, steps, s, t, k) && ServedFrom(cfg, steps, s, market, t, i) {
      LaterIsFresher(cfg, steps, s, market, t, k, i);
    }
  }

  lemma NobodyAhead(cfg: Config, steps: seq<Step>, s: Step, t: Time)
    requires Clocked(steps + [s]) && t >= s.now - cfg.live
    ensures RealClocks(steps) && LiveThroughout(cfg, steps, t)
  {
    var all := steps + [s];
    assert all[|steps|] == s;
    forall i | 0 <= i < |steps| ensures steps[i].now >= ZERO_TIME && steps[i].now - cfg.live <= t {
      assert all[i] == steps[i] && all[i].now <= all[|steps|].now;
    }
  }

  lemma LaterIsFresher(cfg: Config, steps: seq<Step>, s: Step, market: seq<BarMap>, t: Time, k: nat, i: nat)
    requires Clocked(steps + [s]) && k <= i
    requires FreshFetch(cfg, steps, s, t, k) && ServedFrom(cfg, steps, s, market, t, i)
    ensures FreshFetch(cfg, steps, s, t, i)
  {
    VisibleStampsAscend(cfg, steps, s);
    assert k < i ==> Visible(cfg, steps, s)[k].stamp <= Visible(cfg, steps, s)[i].stamp;
  }
}
