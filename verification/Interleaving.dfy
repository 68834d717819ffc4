/** Any number of concurrent Gets, for any keys, requests and clocks and with any failures: each
    thread runs lockKey, the body of Get in small steps, and unlock, interleaved in any way.
    Every interleaving is a run of whole Gets, one after the other, in real-time order. */
module Interleaving {
  import opened Wrappers
  import opened Timeline
  import opened Bars
  import opened Planner
  import opened Normalizer
  import opened Journal
  import opened Runs
  import Locks

  /** A call of Get, with the clock it read before it asked for the lock. */
  datatype Call = Call(key: string, start: Time, end: Time, now: Time)

  /** Where a thread is in the body of Get. */
  datatype Body =
    | NotStarted
    | Fetching(plan: seq<Range>, stored: seq<Interval>, outcomes: seq<RangeOutcome>) // of the ranges fetched so far
    | Reading(outcomes: seq<RangeOutcome>, creditOk: bool, degraded: bool)           // about to read the bars
    | Returned(res: Result, turn: nat)                                               // its place in its key's order

  /** What the world does at one step: whether a repository call succeeds, and what becomes of
      a fetch and the write of its bars. */
  datatype Choice = Choice(ok: bool, outcome: RangeOutcome)

  /** The threads at the locks and in the body, the writes made under each key since the start,
      and the Gets of each key that have left the body, in that order. */
  datatype Machine = Machine(
    lock: Locks.State,
    calls: map<Locks.Tid, Call>,
    bodies: map<Locks.Tid, Body>,
    journals: map<string, seq<Write>>,
    history: map<string, seq<Step>>)

  /** A thread calls Get; a thread takes a step of the lock protocol, whose inside it leaves only
      once its body has returned; or a thread inside takes a step of its body. */
  datatype Action = Begin(t: Locks.Tid, call: Call) | Lock(t: Locks.Tid) | Work(t: Locks.Tid, choice: Choice)

  /** The durations of each key and what the repository holds under it at the start. */
  datatype World = World(cfg: string -> Config, disk: string -> KeyState)

  const START := Machine(Locks.INITIAL, map[], map[], map[], map[])

  ghost function WindowFor(world: World, call: Call): Window {
    var cfg := world.cfg(call.key);
    Window(call.start, call.end, call.now, cfg.ttl, cfg.live)
  }

  ghost function DiskOf(m: Machine, world: World, k: string): KeyState {
    ApplyAll(world.disk(k), Lookup(m.journals, k))
  }

  function SetBody(m: Machine, t: Locks.Tid, body: Body): Machine {
    m.(bodies := m.bodies[t := body])
  }

  function AddWrite(m: Machine, k: string, write: Write): Machine {
    m.(journals := m.journals[k := Lookup(m.journals, k) + [write]])
  }

  function StepOf(call: Call, env: Env): Step {
    Step(call.start, call.end, call.now, env)
  }

  /** The thread's body returns, next in the order of its key. */
  function Finish(m: Machine, t: Locks.Tid, env: Env, res: Result): Machine
    requires t in m.calls
  {
    var k := m.calls[t].key;
    var done := Lookup(m.history, k);
    SetBody(m, t, Returned(res, |done|)).(history := m.history[k := done + [StepOf(m.calls[t], env)]])
  }

  predicate AllGot(outcomes: seq<RangeOutcome>) {
    forall i :: 0 <= i < |outcomes| ==> outcomes[i].Fetched?
  }

  predicate GoodBody(b: Body) {
    && (b.Fetching? ==> |b.outcomes| <= |b.plan| && AllGot(b.outcomes))
    && (b.Reading? ==> AllGot(b.outcomes))
  }

  ghost function StartBody(m: Machine, world: World, t: Locks.Tid, c: Choice): Machine
    requires t in m.calls
  {
    var stored := DiskOf(m, world, m.calls[t].key).intervals;
    var plan := PlanSpec(stored, WindowFor(world, m.calls[t]));
    if !c.ok then
      Finish(m, t, Env(false, [], false, false), Failed)
    else if plan == [] then
      SetBody(m, t, Reading([], true, false))
    else
      SetBody(m, t, Fetching(plan, stored, []))
  }

  /** The next fetch and its write; or, after the last or a failed one, the coverage write. */
  ghost function FetchOrCredit(m: Machine, world: World, t: Locks.Tid, c: Choice): Machine
    requires t in m.calls && t in m.bodies && m.bodies[t].Fetching? && GoodBody(m.bodies[t])
  {
    var k, w, b := m.calls[t].key, WindowFor(world, m.calls[t]), m.bodies[t];
    var n := |b.outcomes|;
    if n < |b.plan| && c.outcome.Fetched? then
      var m' := AddWrite(m, k, WriteOf(b.plan[n], w.now, c.outcome));
      SetBody(m', t, Fetching(b.plan, b.stored, b.outcomes + [c.outcome]))
    else
      var credited := n > 0 && AllStored(b.outcomes, n) && c.ok;
      var m' := if credited
        then AddWrite(m, k, Credited(Normalized(b.stored + Credits(b.plan, w.now, n), w.LiveStart())))
        else m;
      if n < |b.plan| then
        Finish(m', t, Env(true, b.outcomes, c.ok, false), Failed)
      else
        SetBody(m', t, Reading(b.outcomes, c.ok, !credited))
  }

  ghost function ReadBars(m: Machine, world: World, t: Locks.Tid, c: Choice): Machine
    requires t in m.calls && t in m.bodies && m.bodies[t].Reading? && GoodBody(m.bodies[t])
  {
    var w, b := WindowFor(world, m.calls[t]), m.bodies[t];
    var repoBars := if c.ok then Slice(DiskOf(m, world, m.calls[t].key).bars, w.start, w.end) else map[];
    var res :=
      if b.degraded then
        Ok(Clipped(Listing(repoBars + ToMap(FreshBars(b.outcomes, |b.outcomes|))), w.start, w.end))
      else if c.ok then
        Ok(Listing(repoBars))
      else
        Failed;
    Finish(m, t, Env(true, b.outcomes, b.creditOk, c.ok), res)
  }

  ghost function WorkOn(m: Machine, world: World, t: Locks.Tid, c: Choice): Machine
    requires t in m.calls && t in m.bodies && GoodBody(m.bodies[t])
  {
    match m.bodies[t]
    case NotStarted => StartBody(m, world, t, c)
    case Fetching(_, _, _) => FetchOrCredit(m, world, t, c)
    case Reading(_, _, _) => ReadBars(m, world, t, c)
    case Returned(_, _) => m
  }

  // ---- threads, bodies and locks stay in step ----

  predicate IsInside(m: Machine, t: Locks.Tid) {
    t in m.lock.threads && m.lock.threads[t].pc.Inside?
  }

  predicate AlignedThread(thread: Locks.Thread, call: Call, body: Body) {
    && thread.key == call.key
    && GoodBody(body)
    && (Locks.Arriving(thread.pc) ==> body.NotStarted?)
    && (!Locks.Arriving(thread.pc) && !thread.pc.Inside? ==> body.Returned?)
  }

  /** A body starts inside and returns before the thread leaves. */
  ghost predicate Aligned(m: Machine) {
    && Locks.Invariant(m.lock)
    && m.bodies.Keys == m.lock.threads.Keys && m.calls.Keys == m.lock.threads.Keys
    && forall t :: t in m.bodies ==> AlignedThread(m.lock.threads[t], m.calls[t], m.bodies[t])
  }

  ghost function Perform(m: Machine, world: World, a: Action): Machine
    requires Aligned(m)
  {
    match a
    case Begin(t, call) =>
      if t in m.bodies then m
      else m.(lock := Locks.Perform(m.lock, Locks.Call(t, call.key)),
              calls := m.calls[t := call], bodies := m.bodies[t := NotStarted])
    case Lock(t) =>
      if t !in m.bodies || (IsInside(m, t) && !m.bodies[t].Returned?) then m
      else m.(lock := Locks.Perform(m.lock, Locks.Go(t)))
    case Work(t, c) => if IsInside(m, t) then WorkOn(m, world, t, c) else m
  }

  lemma BeginAligned(m: Machine, world: World, t: Locks.Tid, call: Call)
    requires Aligned(m) && t !in m.bodies
    ensures Aligned(Perform(m, world, Begin(t, call)))
  {
    Locks.PerformKeeps(m.lock, Locks.Call(t, call.key));
  }

  lemma LockAligned(m: Machine, world: World, t: Locks.Tid)
    requires Aligned(m) && t in m.bodies && (IsInside(m, t) ==> m.bodies[t].Returned?)
    ensures Aligned(Perform(m, world, Lock(t)))
  {
    Locks.PerformKeeps(m.lock, Locks.Go(t));
    Locks.GoThreads(m.lock, t);
    LockStepOrder(m.lock, t);
    var m' := m.(lock := Locks.Advance(m.lock, t));
    assert Perform(m, world, Lock(t)) == m';
    forall u | u in m'.bodies ensures AlignedThread(m'.lock.threads[u], m'.calls[u], m'.bodies[u]) {
      assert AlignedThread(m.lock.threads[u], m.calls[u], m.bodies[u]);
      assert u != t ==> m'.lock.threads[u] == m.lock.threads[u];
    }
  }

  lemma LockStepOrder(s: Locks.State, t: Locks.Tid)
    requires Locks.WellFormed(s) && t in s.threads
    ensures var pc, pc' := s.threads[t].pc, Locks.Advance(s, t).threads[t].pc;
      && (Locks.Arriving(pc') ==> Locks.Arriving(pc))
      && (!Locks.Arriving(pc') && !pc'.Inside? ==> !Locks.Arriving(pc))
  {
  }

  /** A body step touches its own thread, and the writes and the order of its own key. */
  ghost predicate OnlyTouches(m: Machine, m': Machine, t: Locks.Tid)
    requires t in m.calls
  {
    && m'.lock == m.lock && m'.calls == m.calls
    && t in m'.bodies && GoodBody(m'.bodies[t])
    && (forall u :: u in m'.bodies && u != t ==> u in m.bodies && m'.bodies[u] == m.bodies[u])
    && (forall u :: u in m.bodies ==> u in m'.bodies)
    && (forall k :: k != m.calls[t].key ==>
          Lookup(m'.journals, k) == Lookup(m.journals, k) && Lookup(m'.history, k) == Lookup(m.history, k))
  }

  lemma StartTouches(m: Machine, world: World, t: Locks.Tid, c: Choice)
    requires t in m.calls && t in m.bodies
    ensures OnlyTouches(m, StartBody(m, world, t, c), t)
  {
  }

  lemma FetchTouches(m: Machine, world: World, t: Locks.Tid, c: Choice)
    requires t in m.calls && t in m.bodies && m.bodies[t].Fetching? && GoodBody(m.bodies[t])
    ensures OnlyTouches(m, FetchOrCredit(m, world, t, c), t)
  {
    if |m.bodies[t].outcomes| < |m.bodies[t].plan| && c.outcome.Fetched? {
      NextFetchTouches(m, world, t, c);
    } else {
      CreditTouches(m, world, t, c);
    }
  }

  lemma NextFetchTouches(m: Machine, world: World, t: Locks.Tid, c: Choice)
    requires t in m.calls && t in m.bodies && m.bodies[t].Fetching? && GoodBody(m.bodies[t])
    requires |m.bodies[t].outcomes| < |m.bodies[t].plan| && c.outcome.Fetched?
    ensures OnlyTouches(m, FetchOrCredit(m, world, t, c), t)
  {
  }

  lemma CreditTouches(m: Machine, world: World, t: Locks.Tid, c: Choice)
    requires t in m.calls && t in m.bodies && m.bodies[t].Fetching? && GoodBody(m.bodies[t])
    requires !(|m.bodies[t].outcomes| < |m.bodies[t].plan| && c.outcome.Fetched?)
    ensures OnlyTouches(m, FetchOrCredit(m, world, t, c), t)
  {
  }

  lemma ReadTouches(m: Machine, world: World, t: Locks.Tid, c: Choice)
    requires t in m.calls && t in m.bodies && m.bodies[t].Reading? && GoodBody(m.bodies[t])
    ensures OnlyTouches(m, ReadBars(m, world, t, c), t)
  {
  }

  lemma WorkTouches(m: Machine, world: World, t: Locks.Tid, c: Choice)
    requires t in m.calls && t in m.bodies && GoodBody(m.bodies[t])
    ensures OnlyTouches(m, WorkOn(m, world, t, c), t)
  {
    match m.bodies[t]
    case NotStarted => StartTouches(m, world, t, c);
    case Fetching(_, _, _) => FetchTouches(m, world, t, c);
    case Reading(_, _, _) => ReadTouches(m, world, t, c);
    case Returned(_, _) =>
  }

  lemma TouchesAligned(m: Machine, m': Machine, t: Locks.Tid)
    requires Aligned(m) && IsInside(m, t) && OnlyTouches(m, m', t)
    ensures Aligned(m')
  {
    assert m'.bodies.Keys == m.bodies.Keys;
    forall u | u in m'.bodies ensures AlignedThread(m'.lock.threads[u], m'.calls[u], m'.bodies[u]) {
      assert AlignedThread(m.lock.threads[u], m.calls[u], m.bodies[u]);
    }
  }

  lemma WorkAligned(m: Machine, world: World, t: Locks.Tid, c: Choice)
    requires Aligned(m) && IsInside(m, t)
    ensures Aligned(WorkOn(m, world, t, c))
  {
    WorkTouches(m, world, t, c);
    TouchesAligned(m, WorkOn(m, world, t, c), t);
  }

  lemma PerformAligned(m: Machine, world: World, a: Action)
    requires Aligned(m)
    ensures Aligned(Perform(m, world, a))
  {
    if a.Begin? && a.t !in m.bodies {
      BeginAligned(m, world, a.t, a.call);
    } else if a.Lock? && a.t in m.bodies && !(IsInside(m, a.t) && !m.bodies[a.t].Returned?) {
      LockAligned(m, world, a.t);
    } else if a.Work? && IsInside(m, a.t) {
      WorkAligned(m, world, a.t, a.choice);
    }
  }

  // ---- whole Gets, one after the other ----

  /** The writes of a run of whole Gets from a given state. */
  ghost function Serial(cfg: Config, s0: KeyState, steps: seq<Step>): seq<Write> {
    if steps == [] then
      []
    else
      var n := |steps| - 1;
      var before := Serial(cfg, s0, steps[..n]);
      before + GetWrites(ApplyAll(s0, before), Runs.WindowOf(cfg, steps[n]), steps[n].env)
  }

  ghost function SerialState(cfg: Config, s0: KeyState, steps: seq<Step>): KeyState {
    ApplyAll(s0, Serial(cfg, s0, steps))
  }

  lemma SerialAppend(cfg: Config, s0: KeyState, steps: seq<Step>, s: Step)
    ensures Serial(cfg, s0, steps + [s])
         == Serial(cfg, s0, steps) + GetWrites(SerialState(cfg, s0, steps), Runs.WindowOf(cfg, s), s.env)
  {
    assert (steps + [s])[..|steps|] == steps;
  }

  /** From an empty repository a serial run is the run all the theorems about runs speak of. */
  lemma {:induction false} SerialIsRun(cfg: Config, steps: seq<Step>)
    ensures Serial(cfg, EMPTY_STATE, steps) == Run(cfg, steps)
  {
    if steps != [] {
      SerialIsRun(cfg, steps[..|steps| - 1]);
    }
  }

  predicate InFlight(b: Body) {
    b.Fetching? || b.Reading?
  }

  /** The Get in the body has so far made exactly these writes. */
  ghost predicate WritesSoFar(st: KeyState, w: Window, b: Body, ws: seq<Write>)
    requires GoodBody(b)
  {
    var plan := PlanSpec(st.intervals, w);
    && (b.Fetching? ==>
          && b.plan == plan && plan != [] && b.stored == st.intervals
          && ws == FetchWrites(plan, w.now, b.outcomes, |b.outcomes|))
    && (b.Reading? ==>
          && |b.outcomes| == |plan|
          && (b.degraded <==> plan != [] && !(AllStored(b.outcomes, |plan|) && b.creditOk))
          && ws == GetWrites(st, w, Env(true, b.outcomes, b.creditOk, false)))
  }

  /** The state in which these Gets of a key leave the repository. */
  ghost function Settled(world: World, k: string, done: seq<Step>): KeyState {
    SerialState(world.cfg(k), world.disk(k), done)
  }

  ghost function SettledJournal(world: World, k: string, done: seq<Step>): seq<Write> {
    Serial(world.cfg(k), world.disk(k), done)
  }

  /** The journal is that of the finished Gets and what the body has written since. */
  ghost predicate Mixed(world: World, call: Call, done: seq<Step>, b: Body, journal: seq<Write>, ws: seq<Write>)
    requires GoodBody(b)
  {
    && WritesSoFar(Settled(world, call.key, done), WindowFor(world, call), b, ws)
    && journal == SettledJournal(world, call.key, done) + ws
  }

  /** The journal of the thread's key is the serial one and what the thread itself has written. */
  ghost predicate PartWay(m: Machine, world: World, t: Locks.Tid)
    requires t in m.calls && t in m.bodies && GoodBody(m.bodies[t])
  {
    var k := m.calls[t].key;
    exists ws :: Mixed(world, m.calls[t], Lookup(m.history, k), m.bodies[t], Lookup(m.journals, k), ws)
  }

  ghost predicate Uses(m: Machine, t: Locks.Tid, k: string) {
    t in m.bodies && t in m.calls && m.calls[t].key == k && InFlight(m.bodies[t])
  }

  ghost predicate Quiescent(m: Machine, k: string) {
    forall t :: !Uses(m, t, k)
  }

  ghost predicate JournalSerial(m: Machine, world: World, k: string)
    requires Aligned(m)
  {
    && (forall t :: Uses(m, t, k) ==> PartWay(m, world, t))
    && (Quiescent(m, k) ==> Lookup(m.journals, k) == SettledJournal(world, k, Lookup(m.history, k)))
  }

  /** The thread's result is that of its Get run after those before it in the order. */
  ghost predicate ResultSerial(m: Machine, world: World, t: Locks.Tid)
    requires t in m.calls && t in m.bodies && m.bodies[t].Returned?
  {
    InTurn(world, m.calls[t], m.bodies[t].res, m.bodies[t].turn, Lookup(m.history, m.calls[t].key))
  }

  /** The call is the Get at this place in the order, and its result is that Get's. */
  ghost predicate InTurn(world: World, call: Call, res: Result, turn: nat, done: seq<Step>) {
    && turn < |done|
    && done[turn] == StepOf(call, done[turn].env)
    && res == GetResult(Settled(world, call.key, done[..turn]), WindowFor(world, call), done[turn].env)
  }

  ghost predicate ResultsSerial(m: Machine, world: World)
    requires Aligned(m)
  {
    forall t :: t in m.bodies && m.bodies[t].Returned? ==> ResultSerial(m, world, t)
  }

  ghost predicate Invariant(m: Machine, world: World) {
    && Aligned(m)
    && (forall k :: JournalSerial(m, world, k))
    && ResultsSerial(m, world)
  }

  // ---- one step of one Get ----

  lemma StartWrites(st: KeyState, w: Window)
    ensures var plan := PlanSpec(st.intervals, w);
      if plan == [] then WritesSoFar(st, w, Reading([], true, false), [])
      else WritesSoFar(st, w, Fetching(plan, st.intervals, []), [])
  {
    if PlanSpec(st.intervals, w) == [] {
      HitResult(st, w, Env(true, [], true, false));
    }
  }

  lemma FetchWritesMore(st: KeyState, w: Window, b: Body, ws: seq<Write>, o: RangeOutcome)
    requires b.Fetching? && GoodBody(b) && WritesSoFar(st, w, b, ws) && |b.outcomes| < |b.plan| && o.Fetched?
    ensures WritesSoFar(st, w, Fetching(b.plan, b.stored, b.outcomes + [o]),
      ws + [WriteOf(b.plan[|b.outcomes|], w.now, o)])
  {
  }

  ghost function CreditWrite(b: Body, w: Window, ok: bool): seq<Write>
    requires b.Fetching? && GoodBody(b)
  {
    var n := |b.outcomes|;
    if n > 0 && AllStored(b.outcomes, n) && ok
    then [Credited(Normalized(b.stored + Credits(b.plan, w.now, n), w.LiveStart()))]
    else []
  }

  lemma CreditWrites(st: KeyState, w: Window, b: Body, ws: seq<Write>, ok: bool)
    requires b.Fetching? && GoodBody(b) && WritesSoFar(st, w, b, ws)
    ensures ws + CreditWrite(b, w, ok) == GetWrites(st, w, Env(true, b.outcomes, ok, false))
    ensures |b.outcomes| == |b.plan| ==>
      WritesSoFar(st, w, Reading(b.outcomes, ok, CreditWrite(b, w, ok) == []), ws + CreditWrite(b, w, ok))
    ensures |b.outcomes| < |b.plan| ==> GetResult(st, w, Env(true, b.outcomes, ok, false)) == Failed
  {
    MissWrites(st, w, b.outcomes, ok, false);
    if |b.outcomes| < |b.plan| {
      PartialResult(st, w, b.outcomes, ok, false);
    }
  }

  ghost function ReadResult(disk: KeyState, w: Window, b: Body, ok: bool): Result
    requires b.Reading? && GoodBody(b)
  {
    var repoBars := if ok then Slice(disk.bars, w.start, w.end) else map[];
    if b.degraded then
      Ok(Clipped(Listing(repoBars + ToMap(FreshBars(b.outcomes, |b.outcomes|))), w.start, w.end))
    else if ok then
      Ok(Listing(repoBars))
    else
      Failed
  }

  lemma ReadWrites(st: KeyState, w: Window, b: Body, ws: seq<Write>, ok: bool)
    requires b.Reading? && GoodBody(b) && WritesSoFar(st, w, b, ws)
    ensures ws == GetWrites(st, w, Env(true, b.outcomes, b.creditOk, ok))
    ensures ReadResult(ApplyAll(st, ws), w, b, ok) == GetResult(st, w, Env(true, b.outcomes, b.creditOk, ok))
  {
    if PlanSpec(st.intervals, w) == [] {
      HitResult(st, w, Env(true, b.outcomes, b.creditOk, ok));
      HitResult(st, w, Env(true, b.outcomes, b.creditOk, false));
    } else {
      MissResult(st, w, b.outcomes, b.creditOk, ok, ApplyAll(st, ws));
    }
  }

  // ---- every step keeps the invariant ----

  /** Mutual exclusion: no other thread of the key is in the body. */
  lemma OnlyInside(m: Machine, t: Locks.Tid, u: Locks.Tid)
    requires Aligned(m) && IsInside(m, t) && Uses(m, u, m.calls[t].key)
    ensures u == t
  {
    var s := m.lock;
    assert AlignedThread(s.threads[t], m.calls[t], m.bodies[t]);
    assert AlignedThread(s.threads[u], m.calls[u], m.bodies[u]);
    assert s.threads[u].pc.Inside?;
    assert s.threads[u].pc.l == s.locks[m.calls[t].key] == s.threads[t].pc.l;
  }

  lemma OtherKeyKept(m: Machine, m': Machine, world: World, t: Locks.Tid, k: string)
    requires Aligned(m) && Aligned(m') && t in m.calls && OnlyTouches(m, m', t)
    requires k != m.calls[t].key && JournalSerial(m, world, k)
    ensures JournalSerial(m', world, k)
  {
    forall u | Uses(m', u, k) ensures PartWay(m', world, u) {
      OtherThreadKept(m, m', world, u);
    }
    if Quiescent(m', k) {
      forall u ensures !Uses(m, u, k) {
        assert !Uses(m', u, k);
      }
    }
  }

  lemma OtherThreadKept(m: Machine, m': Machine, world: World, u: Locks.Tid)
    requires u in m.calls && u in m.bodies && u in m'.calls && u in m'.bodies
    requires m'.calls[u] == m.calls[u] && m'.bodies[u] == m.bodies[u] && GoodBody(m.bodies[u])
    requires Lookup(m'.journals, m.calls[u].key) == Lookup(m.journals, m.calls[u].key)
    requires Lookup(m'.history, m.calls[u].key) == Lookup(m.history, m.calls[u].key)
    requires PartWay(m, world, u)
    ensures PartWay(m', world, u)
  {
    var k := m.calls[u].key;
    var ws :| Mixed(world, m.calls[u], Lookup(m.history, k), m.bodies[u], Lookup(m.journals, k), ws);
    assert Mixed(world, m'.calls[u], Lookup(m'.history, k), m'.bodies[u], Lookup(m'.journals, k), ws);
  }

  /** Later Gets do not disturb the place of an earlier one. */
  lemma StaysInTurn(world: World, call: Call, res: Result, turn: nat, done: seq<Step>, more: seq<Step>)
    requires InTurn(world, call, res, turn, done) && done <= more
    ensures InTurn(world, call, res, turn, more)
  {
    assert more[..turn] == done[..turn] && more[turn] == done[turn];
  }

  /** What one body step leaves under its own key: the thread part of the way, or finished. */
  ghost predicate OwnKeyKept(world: World, call: Call, done: seq<Step>, b: Body, journal: seq<Write>) {
    && GoodBody(b)
    && (InFlight(b) ==> exists ws :: Mixed(world, call, done, b, journal, ws))
    && (!InFlight(b) ==>
          && b.Returned? && InTurn(world, call, b.res, b.turn, done)
          && journal == SettledJournal(world, call.key, done))
  }

  ghost predicate ThreadKept(m: Machine, world: World, t: Locks.Tid) {
    && t in m.calls && t in m.bodies
    && OwnKeyKept(world, m.calls[t], Lookup(m.history, m.calls[t].key), m.bodies[t], Lookup(m.journals, m.calls[t].key))
  }

  lemma FinishedInTurn(world: World, call: Call, done: seq<Step>, env: Env, res: Result, journal: seq<Write>)
    requires var st, w := Settled(world, call.key, done), WindowFor(world, call);
      && journal == SettledJournal(world, call.key, done) + GetWrites(st, w, env)
      && res == GetResult(st, w, env)
    ensures OwnKeyKept(world, call, done + [StepOf(call, env)], Returned(res, |done|), journal)
  {
    var s := StepOf(call, env);
    SerialAppend(world.cfg(call.key), world.disk(call.key), done, s);
    LastInTurn(world, call, done, env, res);
  }

  lemma LastInTurn(world: World, call: Call, done: seq<Step>, env: Env, res: Result)
    requires res == GetResult(Settled(world, call.key, done), WindowFor(world, call), env)
    ensures InTurn(world, call, res, |done|, done + [StepOf(call, env)])
  {
    var more := done + [StepOf(call, env)];
    assert more[..|done|] == done && more[|done|] == StepOf(call, env);
  }

  lemma StartKeeps(m: Machine, world: World, t: Locks.Tid, c: Choice)
    requires t in m.calls && t in m.bodies && m.bodies[t].NotStarted?
    requires Lookup(m.journals, m.calls[t].key)
          == SettledJournal(world, m.calls[t].key, Lookup(m.history, m.calls[t].key))
    ensures ThreadKept(StartBody(m, world, t, c), world, t)
  {
    var call := m.calls[t];
    var done, journal := Lookup(m.history, call.key), Lookup(m.journals, call.key);
    var st, w := Settled(world, call.key, done), WindowFor(world, call);
    assert journal == SettledJournal(world, call.key, done) + [];
    if c.ok {
      StartWrites(st, w);
      var plan := PlanSpec(st.intervals, w);
      var b := if plan == [] then Reading([], true, false) else Fetching(plan, st.intervals, []);
      assert Mixed(world, call, done, b, journal, []);
    } else {
      FinishedInTurn(world, call, done, Env(false, [], false, false), Failed, journal);
    }
  }

  lemma FetchKeeps(m: Machine, world: World, t: Locks.Tid, c: Choice)
    requires t in m.calls && t in m.bodies && m.bodies[t].Fetching? && GoodBody(m.bodies[t]) && PartWay(m, world, t)
    ensures ThreadKept(FetchOrCredit(m, world, t, c), world, t)
  {
    var call, b := m.calls[t], m.bodies[t];
    var done, journal := Lookup(m.history, call.key), Lookup(m.journals, call.key);
    var ws :| Mixed(world, call, done, b, journal, ws);
    if |b.outcomes| < |b.plan| && c.outcome.Fetched? {
      FetchMixed(world, call, done, b, journal, ws, c.outcome);
      FetchShape(m, world, t, c);
    } else {
      CreditMixed(world, call, done, b, journal, ws, c.ok);
      CreditShape(m, world, t, c);
    }
  }

  lemma FetchShape(m: Machine, world: World, t: Locks.Tid, c: Choice)
    requires t in m.calls && t in m.bodies && m.bodies[t].Fetching? && GoodBody(m.bodies[t])
    requires |m.bodies[t].outcomes| < |m.bodies[t].plan| && c.outcome.Fetched?
    ensures var m', call, b := FetchOrCredit(m, world, t, c), m.calls[t], m.bodies[t];
      && m'.calls == m.calls && Lookup(m'.history, call.key) == Lookup(m.history, call.key)
      && t in m'.bodies && m'.bodies[t] == Fetching(b.plan, b.stored, b.outcomes + [c.outcome])
      && Lookup(m'.journals, call.key)
         == Lookup(m.journals, call.key) + [WriteOf(b.plan[|b.outcomes|], call.now, c.outcome)]
  {
  }

  lemma CreditShape(m: Machine, world: World, t: Locks.Tid, c: Choice)
    requires t in m.calls && t in m.bodies && m.bodies[t].Fetching? && GoodBody(m.bodies[t])
    requires !(|m.bodies[t].outcomes| < |m.bodies[t].plan| && c.outcome.Fetched?)
    ensures var m', call, b := FetchOrCredit(m, world, t, c), m.calls[t], m.bodies[t];
      var write, done := CreditWrite(b, WindowFor(world, call), c.ok), Lookup(m.history, call.key);
      && m'.calls == m.calls && t in m'.bodies
      && Lookup(m'.journals, call.key) == Lookup(m.journals, call.key) + write
      && (if |b.outcomes| < |b.plan| then
            && m'.bodies[t] == Returned(Failed, |done|)
            && Lookup(m'.history, call.key) == done + [StepOf(call, Env(true, b.outcomes, c.ok, false))]
          else
            && m'.bodies[t] == Reading(b.outcomes, c.ok, write == [])
            && Lookup(m'.history, call.key) == done)
  {
  }

  lemma FetchMixed(world: World, call: Call, done: seq<Step>, b: Body, journal: seq<Write>, ws: seq<Write>,
                   o: RangeOutcome)
    requires b.Fetching? && GoodBody(b) && Mixed(world, call, done, b, journal, ws)
    requires |b.outcomes| < |b.plan| && o.Fetched?
    ensures OwnKeyKept(world, call, done, Fetching(b.plan, b.stored, b.outcomes + [o]),
      journal + [WriteOf(b.plan[|b.outcomes|], call.now, o)])
  {
    var write := WriteOf(b.plan[|b.outcomes|], call.now, o);
    FetchWritesMore(Settled(world, call.key, done), WindowFor(world, call), b, ws, o);
    Assoc(SettledJournal(world, call.key, done), ws, [write]);
    assert Mixed(world, call, done, Fetching(b.plan, b.stored, b.outcomes + [o]), journal + [write], ws + [write]);
  }

  lemma CreditMixed(world: World, call: Call, done: seq<Step>, b: Body, journal: seq<Write>, ws: seq<Write>, ok: bool)
    requires b.Fetching? && GoodBody(b) && Mixed(world, call, done, b, journal, ws)
    ensures var write, env := CreditWrite(b, WindowFor(world, call), ok), Env(true, b.outcomes, ok, false);
      if |b.outcomes| < |b.plan| then
        OwnKeyKept(world, call, done + [StepOf(call, env)], Returned(Failed, |done|), journal + write)
      else
        OwnKeyKept(world, call, done, Reading(b.outcomes, ok, write == []), journal + write)
  {
    var w := WindowFor(world, call);
    var write, env := CreditWrite(b, w, ok), Env(true, b.outcomes, ok, false);
    CreditWrites(Settled(world, call.key, done), w, b, ws, ok);
    Assoc(SettledJournal(world, call.key, done), ws, write);
    if |b.outcomes| < |b.plan| {
      FinishedInTurn(world, call, done, env, Failed, journal + write);
    } else {
      assert Mixed(world, call, done, Reading(b.outcomes, ok, write == []), journal + write, ws + write);
    }
  }

  lemma Assoc(a: seq<Write>, b: seq<Write>, c: seq<Write>)
    ensures a + b + c == a + (b + c)
  {
  }

  lemma ReadKeeps(m: Machine, world: World, t: Locks.Tid, c: Choice)
    requires t in m.calls && t in m.bodies && m.bodies[t].Reading? && GoodBody(m.bodies[t]) && PartWay(m, world, t)
    ensures ThreadKept(ReadBars(m, world, t, c), world, t)
  {
    var call, b := m.calls[t], m.bodies[t];
    var done, journal := Lookup(m.history, call.key), Lookup(m.journals, call.key);
    var ws :| Mixed(world, call, done, b, journal, ws);
    ReadMixed(world, call, done, b, journal, ws, c.ok);
  }

  lemma ReadMixed(world: World, call: Call, done: seq<Step>, b: Body, journal: seq<Write>, ws: seq<Write>, ok: bool)
    requires b.Reading? && GoodBody(b) && Mixed(world, call, done, b, journal, ws)
    ensures OwnKeyKept(world, call, done + [StepOf(call, Env(true, b.outcomes, b.creditOk, ok))],
      Returned(ReadResult(ApplyAll(world.disk(call.key), journal), WindowFor(world, call), b, ok), |done|), journal)
  {
    var w, env := WindowFor(world, call), Env(true, b.outcomes, b.creditOk, ok);
    ApplyAllConcat(world.disk(call.key), SettledJournal(world, call.key, done), ws);
    ReadWrites(Settled(world, call.key, done), w, b, ws, ok);
    FinishedInTurn(world, call, done, env, ReadResult(ApplyAll(world.disk(call.key), journal), w, b, ok), journal);
  }

  /** A thread that gets inside finds nobody in the body. */
  lemma FoundQuiescent(m: Machine, t: Locks.Tid)
    requires Aligned(m) && IsInside(m, t) && m.bodies[t].NotStarted?
    ensures Quiescent(m, m.calls[t].key)
  {
    forall u ensures !Uses(m, u, m.calls[t].key) {
      if Uses(m, u, m.calls[t].key) {
        OnlyInside(m, t, u);
      }
    }
  }

  lemma WorkKeepsThread(m: Machine, world: World, t: Locks.Tid, c: Choice)
    requires Aligned(m) && IsInside(m, t) && !m.bodies[t].Returned? && JournalSerial(m, world, m.calls[t].key)
    requires GoodBody(m.bodies[t])
    ensures ThreadKept(WorkOn(m, world, t, c), world, t)
  {
    if m.bodies[t].NotStarted? {
      FoundQuiescent(m, t);
      StartKeeps(m, world, t, c);
    } else {
      assert Uses(m, t, m.calls[t].key);
      if m.bodies[t].Fetching? {
        FetchKeeps(m, world, t, c);
      } else {
        ReadKeeps(m, world, t, c);
      }
    }
  }

  /** Only the stepping thread of its key can be in flight after its step. */
  lemma OwnJournalKept(m: Machine, m': Machine, world: World, t: Locks.Tid)
    requires Aligned(m) && Aligned(m') && IsInside(m, t) && OnlyTouches(m, m', t) && ThreadKept(m', world, t)
    ensures JournalSerial(m', world, m.calls[t].key)
  {
    var k := m.calls[t].key;
    forall u | Uses(m', u, k) ensures PartWay(m', world, u) {
      if u != t {
        OnlyInside(m, t, u);
      }
    }
    if Quiescent(m', k) {
      assert !Uses(m', t, k);
    }
  }

  lemma WorkKeepsResults(m: Machine, m': Machine, world: World, t: Locks.Tid)
    requires Aligned(m) && Aligned(m') && ResultsSerial(m, world)
    requires t in m.calls && OnlyTouches(m, m', t) && ThreadKept(m', world, t)
    requires Lookup(m.history, m.calls[t].key) <= Lookup(m'.history, m.calls[t].key)
    ensures ResultsSerial(m', world)
  {
    forall u | u in m'.bodies && m'.bodies[u].Returned? ensures ResultSerial(m', world, u) {
      if u != t {
        assert ResultSerial(m, world, u);
        var k := m.calls[u].key;
        StaysInTurn(world, m.calls[u], m.bodies[u].res, m.bodies[u].turn, Lookup(m.history, k), Lookup(m'.history, k));
      }
    }
  }

  lemma WorkGrowsHistory(m: Machine, world: World, t: Locks.Tid, c: Choice, k: string)
    requires t in m.calls && t in m.bodies && GoodBody(m.bodies[t])
    ensures Lookup(m.history, k) <= Lookup(WorkOn(m, world, t, c).history, k)
  {
  }

  lemma WorkKeeps(m: Machine, world: World, t: Locks.Tid, c: Choice)
    requires Invariant(m, world) && IsInside(m, t)
    ensures Invariant(WorkOn(m, world, t, c), world)
  {
    var m' := WorkOn(m, world, t, c);
    assert AlignedThread(m.lock.threads[t], m.calls[t], m.bodies[t]);
    WorkAligned(m, world, t, c);
    WorkTouches(m, world, t, c);
    if !m.bodies[t].Returned? {
      assert JournalSerial(m, world, m.calls[t].key);
      WorkKeepsThread(m, world, t, c);
      WorkGrowsHistory(m, world, t, c, m.calls[t].key);
      WorkKeepsResults(m, m', world, t);
      forall k ensures JournalSerial(m', world, k) {
        assert JournalSerial(m, world, k);
        if k == m.calls[t].key {
          OwnJournalKept(m, m', world, t);
        } else {
          OtherKeyKept(m, m', world, t, k);
        }
      }
    }
  }

  /** Calls and lock steps touch neither writes nor order nor any started body. */
  ghost predicate LeavesBodies(m: Machine, m': Machine) {
    && m'.journals == m.journals && m'.history == m.history
    && (forall t :: t in m.bodies && t in m.calls ==>
          t in m'.bodies && t in m'.calls && m'.bodies[t] == m.bodies[t] && m'.calls[t] == m.calls[t])
    && (forall t :: t in m'.bodies && t !in m.bodies ==> m'.bodies[t].NotStarted?)
  }

  lemma BeginLeaves(m: Machine, world: World, t: Locks.Tid, call: Call)
    requires Aligned(m)
    ensures LeavesBodies(m, Perform(m, world, Begin(t, call)))
  {
  }

  lemma LockLeaves(m: Machine, world: World, t: Locks.Tid)
    requires Aligned(m)
    ensures LeavesBodies(m, Perform(m, world, Lock(t)))
  {
  }

  lemma OtherActionsLeave(m: Machine, world: World, a: Action)
    requires Aligned(m) && !(a.Work? && IsInside(m, a.t))
    ensures LeavesBodies(m, Perform(m, world, a))
  {
    if a.Begin? {
      BeginLeaves(m, world, a.t, a.call);
    } else if a.Lock? {
      LockLeaves(m, world, a.t);
    }
  }

  lemma SameUsers(m: Machine, m': Machine, k: string)
    requires Aligned(m) && LeavesBodies(m, m')
    ensures forall u :: Uses(m', u, k) <==> Uses(m, u, k)
  {
  }

  lemma LeftJournalKept(m: Machine, m': Machine, world: World, k: string)
    requires Aligned(m) && Aligned(m') && LeavesBodies(m, m') && JournalSerial(m, world, k)
    ensures JournalSerial(m', world, k)
  {
    SameUsers(m, m', k);
    forall u | Uses(m', u, k) ensures PartWay(m', world, u) {
      OtherThreadKept(m, m', world, u);
    }
    assert Quiescent(m', k) ==> Quiescent(m, k);
  }

  lemma OtherActionsKeep(m: Machine, m': Machine, world: World)
    requires Invariant(m, world) && Aligned(m') && LeavesBodies(m, m')
    ensures Invariant(m', world)
  {
    forall k ensures JournalSerial(m', world, k) {
      assert JournalSerial(m, world, k);
      LeftJournalKept(m, m', world, k);
    }
    forall u | u in m'.bodies && m'.bodies[u].Returned? ensures ResultSerial(m', world, u) {
      assert ResultSerial(m, world, u);
    }
  }

  lemma PerformKeeps(m: Machine, world: World, a: Action)
    requires Invariant(m, world)
    ensures Invariant(Perform(m, world, a), world)
  {
    PerformAligned(m, world, a);
    if a.Work? && IsInside(m, a.t) {
      WorkKeeps(m, world, a.t, a.choice);
    } else {
      OtherActionsLeave(m, world, a);
      OtherActionsKeep(m, Perform(m, world, a), world);
    }
  }

  // ---- every interleaving ----

  /** The machine after any sequence of actions of any threads. */
  ghost function Execute(world: World, actions: seq<Action>): (m: Machine)
    ensures Aligned(m)
  {
    if actions == [] then
      START
    else
      var m := Execute(world, actions[..|actions| - 1]);
      PerformAligned(m, world, actions[|actions| - 1]);
      Perform(m, world, actions[|actions| - 1])
  }

  lemma {:induction false} EveryInterleaving(world: World, actions: seq<Action>)
    ensures Invariant(Execute(world, actions), world)
  {
    if actions == [] {
      forall k ensures JournalSerial(START, world, k) {
      }
    } else {
      EveryInterleaving(world, actions[..|actions| - 1]);
      PerformKeeps(Execute(world, actions[..|actions| - 1]), world, actions[|actions| - 1]);
    }
  }

  /** Serializability: at every moment of every interleaving, the writes under a key are those
      of the Gets of that key that have left the body, run whole, one after the other and in
      that order, followed at most by one more Get that got as far as it has; and once none is
      in its body they are exactly the former. */
  lemma Serializable(world: World, actions: seq<Action>, k: string) returns (steps: seq<Step>)
    ensures var m := Execute(world, actions);
      && Lookup(m.journals, k) == Serial(world.cfg(k), world.disk(k), steps)
      && Lookup(m.history, k) <= steps && |steps| <= |Lookup(m.history, k)| + 1
      && (Quiescent(m, k) ==> steps == Lookup(m.history, k))
  {
    var m := Execute(world, actions);
    EveryInterleaving(world, actions);
    assert JournalSerial(m, world, k);
    if t :| Uses(m, t, k) {
      steps := FlightSteps(m, world, t);
    } else {
      steps := Lookup(m.history, k);
    }
  }

  lemma FlightSteps(m: Machine, world: World, t: Locks.Tid) returns (steps: seq<Step>)
    requires t in m.calls && t in m.bodies && InFlight(m.bodies[t]) && GoodBody(m.bodies[t]) && PartWay(m, world, t)
    ensures var k := m.calls[t].key;
      && Lookup(m.journals, k) == SettledJournal(world, k, steps)
      && Lookup(m.history, k) <= steps && |steps| == |Lookup(m.history, k)| + 1
  {
    var call, b := m.calls[t], m.bodies[t];
    var done, journal := Lookup(m.history, call.key), Lookup(m.journals, call.key);
    var ws :| Mixed(world, call, done, b, journal, ws);
    var s := HalfDone(world, call, done, b, journal, ws);
    steps := done + [s];
  }

  /** A Get part of the way has written what a whole Get writes whose next steps all fail. */
  lemma HalfDone(world: World, call: Call, done: seq<Step>, b: Body, journal: seq<Write>, ws: seq<Write>)
    returns (s: Step)
    requires GoodBody(b) && InFlight(b) && Mixed(world, call, done, b, journal, ws)
    ensures journal == SettledJournal(world, call.key, done + [s])
  {
    var st, w := Settled(world, call.key, done), WindowFor(world, call);
    s := StepOf(call, Env(true, b.outcomes, if b.Reading? then b.creditOk else false, false));
    if b.Fetching? {
      MissWrites(st, w, b.outcomes, false, false);
    }
    SerialAppend(world.cfg(call.key), world.disk(call.key), done, s);
  }

  /** Every result is that of its Get run whole after the Gets before it in the order. */
  lemma ResultsAreSerial(world: World, actions: seq<Action>)
    ensures ResultsSerial(Execute(world, actions), world)
  {
    EveryInterleaving(world, actions);
  }

  /** The call is the Get at this place of a run, and its result is that Get's. */
  ghost predicate InRun(cfg: Config, call: Call, res: Result, turn: nat, done: seq<Step>) {
    && turn < |done|
    && done[turn] == StepOf(call, done[turn].env)
    && res == GetResult(StateOf(cfg, done[..turn]), Runs.WindowOf(cfg, done[turn]), done[turn].env)
  }

  ghost predicate ResultsInRuns(m: Machine, world: World)
    requires Aligned(m)
  {
    forall t :: t in m.bodies && m.bodies[t].Returned? && world.disk(m.calls[t].key) == EMPTY_STATE ==>
      InRun(world.cfg(m.calls[t].key), m.calls[t], m.bodies[t].res, m.bodies[t].turn, Lookup(m.history, m.calls[t].key))
  }

  /** From an empty repository, that Get is one of a run in the sense of every theorem about
      runs: its freshness and its answers are those of a run of the Gets before it. */
  lemma ResultsAreRuns(world: World, actions: seq<Action>)
    ensures ResultsInRuns(Execute(world, actions), world)
  {
    ResultsAreSerial(world, actions);
    SerialResultsInRuns(Execute(world, actions), world);
  }

  lemma SerialResultsInRuns(m: Machine, world: World)
    requires Aligned(m) && ResultsSerial(m, world)
    ensures ResultsInRuns(m, world)
  {
    forall t | t in m.bodies && m.bodies[t].Returned? && world.disk(m.calls[t].key) == EMPTY_STATE
      ensures InRun(world.cfg(m.calls[t].key), m.calls[t], m.bodies[t].res, m.bodies[t].turn,
        Lookup(m.history, m.calls[t].key))
    {
      assert ResultSerial(m, world, t);
      TurnInRun(world, m.calls[t], m.bodies[t].res, m.bodies[t].turn, Lookup(m.history, m.calls[t].key));
    }
  }

  lemma TurnInRun(world: World, call: Call, res: Result, turn: nat, done: seq<Step>)
    requires InTurn(world, call, res, turn, done) && world.disk(call.key) == EMPTY_STATE
    ensures InRun(world.cfg(call.key), call, res, turn, done)
  {
    SerialIsRun(world.cfg(call.key), done[..turn]);
  }

  /** In particular there is no coverage without data at any moment of any interleaving. */
  lemma NoCoverageWithoutDataEver(world: World, actions: seq<Action>, k: string, p: Time) returns (i: nat)
    requires world.disk(k) == EMPTY_STATE
    requires Covered(DiskOf(Execute(world, actions), world, k).intervals, p)
    ensures var m := Execute(world, actions);
      var journal := Lookup(m.journals, k);
      && i < |journal| && journal[i].StoredBars? && InRange(journal[i].event.range, p)
      && forall t :: t in ToMap(journal[i].event.bars) ==> t in DiskOf(m, world, k).bars
  {
    var steps := Serializable(world, actions, k);
    SerialIsRun(world.cfg(k), steps);
    i := RunBacked(world.cfg(k), steps, Lookup(Execute(world, actions).journals, k), p);
  }

  lemma RunBacked(cfg: Config, steps: seq<Step>, journal: seq<Write>, p: Time) returns (i: nat)
    requires journal == Run(cfg, steps) && Covered(ApplyAll(EMPTY_STATE, journal).intervals, p)
    ensures i < |journal| && journal[i].StoredBars? && InRange(journal[i].event.range, p)
    ensures forall t :: t in ToMap(journal[i].event.bars) ==> t in ApplyAll(EMPTY_STATE, journal).bars
  {
    assert journal[..|journal|] == journal;
    i := NoCoverageWithoutData(cfg, steps, |journal|, p);
  }

  /** The order only grows, results stay, and a body that returns later has a later turn. */
  ghost predicate Later(m: Machine, m': Machine) {
    && (forall k :: Lookup(m.history, k) <= Lookup(m'.history, k))
    && (forall t :: t in m.bodies ==> t in m'.bodies && t in m.calls && t in m'.calls && m'.calls[t] == m.calls[t])
    && (forall t :: t in m.bodies && m.bodies[t].Returned? ==> m'.bodies[t] == m.bodies[t])
    && (forall t :: t in m'.bodies && m'.bodies[t].Returned? && !(t in m.bodies && m.bodies[t].Returned?) ==>
          t in m'.calls && m'.bodies[t].turn >= |Lookup(m.history, m'.calls[t].key)|)
  }

  /** A body that returns takes the next turn; one that has returned does not change. */
  lemma WorkTurn(m: Machine, world: World, t: Locks.Tid, c: Choice)
    requires t in m.calls && t in m.bodies && GoodBody(m.bodies[t])
    ensures var m' := WorkOn(m, world, t, c);
      && t in m'.bodies
      && (m.bodies[t].Returned? ==> m'.bodies[t] == m.bodies[t])
      && (m'.bodies[t].Returned? && !m.bodies[t].Returned? ==>
            m'.bodies[t].turn == |Lookup(m.history, m.calls[t].key)|)
  {
  }

  lemma TouchesIsLater(m: Machine, m': Machine, t: Locks.Tid)
    requires Aligned(m) && t in m.calls && t in m.bodies && OnlyTouches(m, m', t)
    requires forall k :: Lookup(m.history, k) <= Lookup(m'.history, k)
    requires m.bodies[t].Returned? ==> m'.bodies[t] == m.bodies[t]
    requires m'.bodies[t].Returned? && !m.bodies[t].Returned? ==>
      m'.bodies[t].turn == |Lookup(m.history, m.calls[t].key)|
    ensures Later(m, m')
  {
  }

  lemma WorkIsLater(m: Machine, world: World, t: Locks.Tid, c: Choice)
    requires Aligned(m) && IsInside(m, t)
    ensures Later(m, WorkOn(m, world, t, c))
  {
    assert AlignedThread(m.lock.threads[t], m.calls[t], m.bodies[t]);
    WorkTouches(m, world, t, c);
    WorkTurn(m, world, t, c);
    forall k ensures Lookup(m.history, k) <= Lookup(WorkOn(m, world, t, c).history, k) {
      WorkGrowsHistory(m, world, t, c, k);
    }
    TouchesIsLater(m, WorkOn(m, world, t, c), t);
  }

  lemma PerformIsLater(m: Machine, world: World, a: Action)
    requires Aligned(m)
    ensures Later(m, Perform(m, world, a))
  {
    if a.Work? && IsInside(m, a.t) {
      WorkIsLater(m, world, a.t, a.choice);
    } else {
      OtherActionsLeave(m, world, a);
    }
  }

  lemma LaterTwice(a: Machine, b: Machine, c: Machine)
    requires Later(a, b) && Later(b, c)
    ensures Later(a, c)
  {
  }

  lemma ExecuteOneMore(world: World, actions: seq<Action>, n: nat)
    requires n < |actions|
    ensures Execute(world, actions[..n + 1]) == Perform(Execute(world, actions[..n]), world, actions[n])
  {
    assert actions[..n + 1][..n] == actions[..n];
  }

  lemma StepIsLater(world: World, actions: seq<Action>, i: nat)
    requires i < |actions|
    ensures Later(Execute(world, actions[..i]), Execute(world, actions[..i + 1]))
  {
    ExecuteOneMore(world, actions, i);
    PerformIsLater(Execute(world, actions[..i]), world, actions[i]);
  }

  lemma NeverEarlier(m: Machine)
    requires Aligned(m)
    ensures Later(m, m)
  {
  }

  lemma {:induction false} TraceIsLater(trace: seq<Machine>, n: nat, k: nat)
    requires n <= k < |trace|
    requires forall i :: 0 <= i < |trace| ==> Later(trace[i], trace[i])
    requires forall i :: 0 <= i < |trace| - 1 ==> Later(trace[i], trace[i + 1])
    ensures Later(trace[n], trace[k])
  {
    if n < k {
      TraceIsLater(trace, n, k - 1);
      LaterTwice(trace[n], trace[k - 1], trace[k]);
    }
  }

  ghost function Trace(world: World, actions: seq<Action>): seq<Machine> {
    seq(|actions| + 1, i requires 0 <= i <= |actions| => Execute(world, actions[..i]))
  }

  lemma ExecuteIsLater(world: World, actions: seq<Action>, n: nat)
    requires n <= |actions|
    ensures Later(Execute(world, actions[..n]), Execute(world, actions))
  {
    var trace := Trace(world, actions);
    forall i | 0 <= i < |trace| ensures Later(trace[i], trace[i]) {
      NeverEarlier(trace[i]);
    }
    forall i | 0 <= i < |trace| - 1 ensures Later(trace[i], trace[i + 1]) {
      StepIsLater(world, actions, i);
    }
    TraceIsLater(trace, n, |actions|);
    assert actions[..|actions|] == actions;
  }

  /** Of two Gets of a key, one returned by m and the other only by m', the first comes first. */
  ghost predicate InRealTime(m: Machine, m': Machine)
    requires Aligned(m) && Aligned(m')
  {
    forall t, u ::
      && t in m.bodies && m.bodies[t].Returned? && !(u in m.bodies && m.bodies[u].Returned?)
      && u in m'.bodies && m'.bodies[u].Returned? && m'.calls[u].key == m.calls[t].key ==>
        t in m'.bodies && m'.bodies[t].Returned? && m'.bodies[t].turn < m'.bodies[u].turn
  }

  /** Linearizability: the order agrees with real time.  A Get that had returned when another of
      its key had not, in particular when the other had not even been called, comes before it. */
  lemma RealTimeOrder(world: World, actions: seq<Action>, n: nat)
    requires n <= |actions|
    ensures InRealTime(Execute(world, actions[..n]), Execute(world, actions))
  {
    ResultsAreSerial(world, actions[..n]);
    ExecuteIsLater(world, actions, n);
    TurnsInOrder(Execute(world, actions[..n]), Execute(world, actions), world);
  }

  lemma TurnsInOrder(m: Machine, m': Machine, world: World)
    requires Aligned(m) && Aligned(m') && Later(m, m') && ResultsSerial(m, world)
    ensures InRealTime(m, m')
  {
    forall t | t in m.bodies && m.bodies[t].Returned?
      ensures m.bodies[t].turn < |Lookup(m.history, m.calls[t].key)| && t in m'.bodies && m'.bodies[t] == m.bodies[t]
    {
      assert ResultSerial(m, world, t);
    }
  }
}
