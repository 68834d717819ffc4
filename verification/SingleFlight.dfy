/** Concurrent Gets for one key that share a window and a clock, when nothing fails: they fetch
    no more than one of them would alone.  Gets of other keys run beside them as they please. */
module SingleFlight {
  import opened Wrappers
  import opened Timeline
  import opened Bars
  import opened Planner
  import opened Normalizer
  import opened Journal
  import opened GetProperties
  import opened Runs
  import opened Answers
  import opened Interleaving

  ghost predicate Premises(s0: KeyState, w: Window) {
    Stamped(s0.intervals) && w.now >= ZERO_TIME && w.ttl >= 0
  }

  /** Every call for the key is for the window, and no repository call or fetch made for the key
      fails; nothing is asked of the Gets of other keys. */
  ghost predicate QuietActions(world: World, k: string, w: Window, actions: seq<Action>) {
    actions == []
    || var n := |actions| - 1;
       && QuietActions(world, k, w, actions[..n])
       && QuietAction(Execute(world, actions[..n]), world, k, w, actions[n])
  }

  ghost predicate QuietAction(m: Machine, world: World, k: string, w: Window, a: Action) {
    && (a.Begin? && a.call.key == k ==> WindowFor(world, a.call) == w)
    && (a.Work? && a.t in m.calls && m.calls[a.t].key == k ==>
          a.choice.ok && a.choice.outcome.Fetched? && a.choice.outcome.stored)
  }

  /** The world of one Get that fetched these answers with every write succeeding. */
  ghost function Quiet(outcomes: seq<RangeOutcome>): Env {
    Env(true, outcomes, true, true)
  }

  // ---- what a quiet execution leaves ----

  ghost predicate QuietBody(b: Body) {
    && (b.Fetching? ==> AllStored(b.outcomes, |b.outcomes|))
    && (b.Reading? ==> AllStored(b.outcomes, |b.outcomes|) && b.creditOk)
  }

  /** The i-th Get of the order fetched its whole plan and nothing failed. */
  ghost predicate QuietTurn(world: World, k: string, w: Window, done: seq<Step>, i: nat)
    requires i < |done|
  {
    && Runs.WindowOf(world.cfg(k), done[i]) == w
    && done[i].env == Quiet(done[i].env.outcomes)
    && AllStored(done[i].env.outcomes, |done[i].env.outcomes|)
    && |done[i].env.outcomes| == |PlanSpec(Settled(world, k, done[..i]).intervals, w)|
  }

  ghost predicate QuietTurns(world: World, k: string, w: Window, done: seq<Step>) {
    forall i :: 0 <= i < |done| ==> QuietTurn(world, k, w, done, i)
  }

  ghost predicate QuietMachine(m: Machine, world: World, k: string, w: Window) {
    && (forall t :: t in m.calls && t in m.bodies && m.calls[t].key == k ==>
          WindowFor(world, m.calls[t]) == w && QuietBody(m.bodies[t]))
    && QuietTurns(world, k, w, Lookup(m.history, k))
  }

  lemma OneMoreTurn(world: World, k: string, w: Window, done: seq<Step>, s: Step)
    requires QuietTurns(world, k, w, done)
    requires QuietTurn(world, k, w, done + [s], |done|)
    ensures QuietTurns(world, k, w, done + [s])
  {
    var more := done + [s];
    forall i | 0 <= i < |more| ensures QuietTurn(world, k, w, more, i) {
      if i < |done| {
        assert QuietTurn(world, k, w, done, i);
        assert more[..i] == done[..i] && more[i] == done[i];
      }
    }
  }

  /** A body that returns has read the whole answer to its plan. */
  lemma ReadTurn(world: World, k: string, w: Window, call: Call, done: seq<Step>, b: Body, journal: seq<Write>)
    requires call.key == k && WindowFor(world, call) == w && b.Reading? && GoodBody(b) && QuietBody(b)
    requires exists ws :: Mixed(world, call, done, b, journal, ws)
    requires QuietTurns(world, k, w, done)
    ensures QuietTurns(world, k, w, done + [StepOf(call, Env(true, b.outcomes, b.creditOk, true))])
  {
    var ws :| Mixed(world, call, done, b, journal, ws);
    var s := StepOf(call, Env(true, b.outcomes, b.creditOk, true));
    assert (done + [s])[..|done|] == done;
    OneMoreTurn(world, k, w, done, s);
  }

  /** What one quiet body step does to its thread and to the order of its key. */
  lemma QuietShape(m: Machine, world: World, t: Locks.Tid, c: Choice)
    requires t in m.calls && t in m.bodies && GoodBody(m.bodies[t])
    requires c.ok && c.outcome.Fetched? && c.outcome.stored && QuietBody(m.bodies[t])
    ensures var m', b, done := WorkOn(m, world, t, c), m.bodies[t], Lookup(m.history, m.calls[t].key);
      && t in m'.bodies && QuietBody(m'.bodies[t])
      && Lookup(m'.history, m.calls[t].key)
         == if b.Reading? then done + [StepOf(m.calls[t], Env(true, b.outcomes, b.creditOk, true))] else done
  {
  }

  lemma QuietOwnKey(m: Machine, world: World, k: string, w: Window, t: Locks.Tid, c: Choice)
    requires Interleaving.Invariant(m, world) && QuietMachine(m, world, k, w) && IsInside(m, t)
    requires QuietAction(m, world, k, w, Work(t, c)) && m.calls[t].key == k && GoodBody(m.bodies[t])
    ensures QuietTurns(world, k, w, Lookup(WorkOn(m, world, t, c).history, k))
    ensures t in WorkOn(m, world, t, c).bodies && QuietBody(WorkOn(m, world, t, c).bodies[t])
  {
    QuietShape(m, world, t, c);
    if m.bodies[t].Reading? {
      assert JournalSerial(m, world, k) && Uses(m, t, k);
      ReadTurn(world, k, w, m.calls[t], Lookup(m.history, k), m.bodies[t], Lookup(m.journals, k));
    }
  }

  lemma QuietTouched(m: Machine, m': Machine, world: World, k: string, w: Window, t: Locks.Tid)
    requires QuietMachine(m, world, k, w) && t in m.calls && t in m.bodies && OnlyTouches(m, m', t)
    requires m.calls[t].key == k ==> QuietTurns(world, k, w, Lookup(m'.history, k)) && QuietBody(m'.bodies[t])
    ensures QuietMachine(m', world, k, w)
  {
  }

  lemma QuietWork(m: Machine, world: World, k: string, w: Window, t: Locks.Tid, c: Choice)
    requires Interleaving.Invariant(m, world) && QuietMachine(m, world, k, w) && IsInside(m, t)
    requires QuietAction(m, world, k, w, Work(t, c))
    ensures QuietMachine(WorkOn(m, world, t, c), world, k, w)
  {
    assert AlignedThread(m.lock.threads[t], m.calls[t], m.bodies[t]);
    WorkTouches(m, world, t, c);
    if m.calls[t].key == k {
      QuietOwnKey(m, world, k, w, t, c);
    }
    QuietTouched(m, WorkOn(m, world, t, c), world, k, w, t);
  }

  lemma QuietPerform(m: Machine, world: World, k: string, w: Window, a: Action)
    requires Interleaving.Invariant(m, world) && QuietMachine(m, world, k, w) && QuietAction(m, world, k, w, a)
    ensures QuietMachine(Perform(m, world, a), world, k, w)
  {
    if a.Work? && IsInside(m, a.t) {
      QuietWork(m, world, k, w, a.t, a.choice);
    }
  }

  lemma {:induction false} QuietExecution(world: World, k: string, w: Window, actions: seq<Action>)
    requires QuietActions(world, k, w, actions)
    ensures QuietMachine(Execute(world, actions), world, k, w)
  {
    if actions != [] {
      var n := |actions| - 1;
      QuietExecution(world, k, w, actions[..n]);
      Interleaving.EveryInterleaving(world, actions[..n]);
      QuietPerform(Execute(world, actions[..n]), world, k, w, actions[n]);
    }
  }

  // ---- only the first Get of the order fetches ----

  /** Once one quiet Get is done there is nothing left to fetch. */
  lemma DonePlansNothing(s0: KeyState, w: Window, outcomes: seq<RangeOutcome>)
    requires Premises(s0, w)
    requires |outcomes| == |PlanSpec(s0.intervals, w)| && AllStored(outcomes, |outcomes|)
    ensures PlanSpec(ApplyAll(s0, GetWrites(s0, w, Quiet(outcomes))).intervals, w) == []
  {
    MissWrites(s0, w, outcomes, true, true);
    RetryPlansTheRest(s0, w, Quiet(outcomes));
  }

  lemma EarlierTurns(world: World, k: string, w: Window, done: seq<Step>, turn: nat)
    requires QuietTurns(world, k, w, done) && turn <= |done|
    ensures QuietTurns(world, k, w, done[..turn])
  {
    var prev := done[..turn];
    forall i | 0 <= i < |prev| ensures QuietTurn(world, k, w, prev, i) {
      assert QuietTurn(world, k, w, done, i);
      assert prev[..i] == done[..i] && prev[i] == done[i];
    }
  }

  lemma {:induction false} FirstTurnWrites(world: World, k: string, w: Window, done: seq<Step>)
    requires Premises(world.disk(k), w) && QuietTurns(world, k, w, done) && done != []
    ensures SettledJournal(world, k, done) == GetWrites(world.disk(k), w, done[0].env)
    ensures PlanSpec(Settled(world, k, done).intervals, w) == []
  {
    var n, s0 := |done| - 1, world.disk(k);
    assert QuietTurn(world, k, w, done, 0) && QuietTurn(world, k, w, done, n);
    assert done[..n] + [done[n]] == done;
    SerialAppend(world.cfg(k), s0, done[..n], done[n]);
    if n == 0 {
      FirstTurn(world, k, w, done);
    } else {
      EarlierTurns(world, k, w, done, n);
      FirstTurnWrites(world, k, w, done[..n]);
      HitResult(Settled(world, k, done[..n]), w, done[n].env);
      assert SettledJournal(world, k, done[..n]) + [] == SettledJournal(world, k, done[..n]);
    }
  }

  lemma FirstTurn(world: World, k: string, w: Window, done: seq<Step>)
    requires |done| == 1 && Premises(world.disk(k), w) && QuietTurn(world, k, w, done, 0)
    ensures SettledJournal(world, k, done) == GetWrites(world.disk(k), w, done[0].env)
    ensures PlanSpec(Settled(world, k, done).intervals, w) == []
  {
    assert done[..0] == [] && done == [] + [done[0]];
    SerialAppend(world.cfg(k), world.disk(k), [], done[0]);
    DonePlansNothing(world.disk(k), w, done[0].env.outcomes);
  }

  lemma {:induction false} FetchWritesFetch(plan: seq<Range>, now: Time, outcomes: seq<RangeOutcome>, n: nat)
    requires AllFetched(plan, outcomes, n)
    ensures |FetchedEvents(FetchWrites(plan, now, outcomes, n))| == n
  {
    if n > 0 {
      FetchWritesFetch(plan, now, outcomes, n - 1);
      LastFetched(plan, now, outcomes, n);
    }
  }

  lemma GetFetches(st: KeyState, w: Window, env: Env)
    requires env.intervalsOk
    ensures |FetchedEvents(GetWrites(st, w, env))| == Fetches(st, w, env)
  {
    FetchedEventsOfGet(st, w, env);
    FetchWritesFetch(PlanSpec(st.intervals, w), w.now, env.outcomes, Fetches(st, w, env));
  }

  /** The writes of a Get in flight after others are done, and the fetches of one in flight
      before any is. */
  lemma FlightFetches(world: World, call: Call, w: Window, done: seq<Step>, b: Body, journal: seq<Write>)
    requires WindowFor(world, call) == w && InFlight(b) && GoodBody(b)
    requires exists ws :: Mixed(world, call, done, b, journal, ws)
    ensures PlanSpec(Settled(world, call.key, done).intervals, w) == [] ==>
      journal == SettledJournal(world, call.key, done)
    ensures done == [] ==> |FetchedEvents(journal)| <= |PlanSpec(world.disk(call.key).intervals, w)|
  {
    var ws :| Mixed(world, call, done, b, journal, ws);
    var st := Settled(world, call.key, done);
    if PlanSpec(st.intervals, w) == [] {
      HitResult(st, w, Env(true, b.outcomes, b.creditOk, false));
    }
    if done == [] {
      assert journal == ws;
      if b.Fetching? {
        FetchWritesFetch(b.plan, w.now, b.outcomes, |b.outcomes|);
      } else {
        GetFetches(st, w, Env(true, b.outcomes, b.creditOk, false));
      }
    }
  }

  lemma SettledResult(s0: KeyState, w: Window, outcomes: seq<RangeOutcome>)
    requires |outcomes| == |PlanSpec(s0.intervals, w)| && AllStored(outcomes, |outcomes|)
    ensures GetResult(s0, w, Quiet(outcomes))
         == Ok(Listing(Slice(ApplyAll(s0, GetWrites(s0, w, Quiet(outcomes))).bars, w.start, w.end)))
  {
    MissWrites(s0, w, outcomes, true, true);
  }

  /** Every turn returns what the first one does. */
  lemma SameResult(world: World, k: string, w: Window, done: seq<Step>, turn: nat)
    requires Premises(world.disk(k), w) && QuietTurns(world, k, w, done) && turn < |done|
    ensures GetResult(Settled(world, k, done[..turn]), w, done[turn].env) == GetResult(world.disk(k), w, done[0].env)
    ensures GetResult(world.disk(k), w, done[0].env).Ok?
  {
    assert QuietTurn(world, k, w, done, 0) && QuietTurn(world, k, w, done, turn);
    assert done[..0] == [];
    SettledResult(world.disk(k), w, done[0].env.outcomes);
    if turn > 0 {
      EarlierTurns(world, k, w, done, turn);
      FirstTurnWrites(world, k, w, done[..turn]);
      HitResult(Settled(world, k, done[..turn]), w, done[turn].env);
    }
  }

  ghost function FetchCount(m: Machine, k: string): nat {
    |FetchedEvents(Lookup(m.journals, k))|
  }

  /** Single flight: any number of concurrent Gets for the same key, window and clock, in any
      interleaving with each other and with the Gets of other keys, never fetch more than the
      first plan has ranges; and once any of them has returned they have fetched exactly that
      many, and every result is that of one Get run alone against the same answers. */
  lemma SingleFlight(world: World, k: string, w: Window, actions: seq<Action>)
    requires Premises(world.disk(k), w) && QuietActions(world, k, w, actions)
    ensures var m, plan := Execute(world, actions), PlanSpec(world.disk(k).intervals, w);
      && FetchCount(m, k) <= |plan|
      && forall t :: t in m.bodies && m.calls[t].key == k && m.bodies[t].Returned? ==>
           && FetchCount(m, k) == |plan|
           && Lookup(m.history, k) != [] && m.bodies[t].res.Ok?
           && m.bodies[t].res == GetResult(world.disk(k), w, Lookup(m.history, k)[0].env)
  {
    var m, plan := Execute(world, actions), PlanSpec(world.disk(k).intervals, w);
    var done := Lookup(m.history, k);
    Interleaving.EveryInterleaving(world, actions);
    QuietExecution(world, k, w, actions);
    CountFetches(m, world, k, w);
    forall t | t in m.bodies && m.calls[t].key == k && m.bodies[t].Returned?
      ensures done != [] && m.bodies[t].res.Ok? && m.bodies[t].res == GetResult(world.disk(k), w, done[0].env)
    {
      assert ResultSerial(m, world, t);
      SameResult(world, k, w, done, m.bodies[t].turn);
    }
  }

  lemma CountFetches(m: Machine, world: World, k: string, w: Window)
    requires Interleaving.Invariant(m, world) && QuietMachine(m, world, k, w) && Premises(world.disk(k), w)
    ensures FetchCount(m, k) <= |PlanSpec(world.disk(k).intervals, w)|
    ensures Lookup(m.history, k) != [] ==> FetchCount(m, k) == |PlanSpec(world.disk(k).intervals, w)|
  {
    var done, journal := Lookup(m.history, k), Lookup(m.journals, k);
    assert JournalSerial(m, world, k);
    if done != [] {
      FirstTurnWrites(world, k, w, done);
      assert QuietTurn(world, k, w, done, 0) && done[..0] == [];
      GetFetches(world.disk(k), w, done[0].env);
    }
    if t :| Uses(m, t, k) {
      assert PartWay(m, world, t);
      FlightFetches(world, m.calls[t], w, done, m.bodies[t], journal);
    } else {
      assert Quiescent(m, k);
    }
  }

  /** In particular, any two of the Gets that are done have returned the same bars. */
  lemma AllReturnTheSame(world: World, k: string, w: Window, actions: seq<Action>)
    requires Premises(world.disk(k), w) && QuietActions(world, k, w, actions)
    ensures var m := Execute(world, actions);
      forall t, u :: Left(m, t, k) && Left(m, u, k) ==>
        && m.bodies[t].Returned? && m.bodies[u].Returned? && m.bodies[t].res.Ok?
        && m.bodies[t].res == m.bodies[u].res && FetchCount(m, k) == |PlanSpec(world.disk(k).intervals, w)|
  {
    var m := Execute(world, actions);
    forall t | Left(m, t, k) ensures m.bodies[t].Returned? {
      assert AlignedThread(m.lock.threads[t], m.calls[t], m.bodies[t]);
    }
    SingleFlight(world, k, w, actions);
  }

  /** The thread called Get for the key and has released its lock. */
  ghost predicate Left(m: Machine, t: Locks.Tid, k: string) {
    && t in m.bodies && t in m.calls && m.calls[t].key == k
    && t in m.lock.threads && m.lock.threads[t].pc.Finished?
  }
}
