/** Every concurrent Get comes to an end: its body returns after a bounded number of its own steps,
    with the result that the last of them decides, and the threads are never all stuck. */
module Progress {
  import opened Wrappers
  import opened Timeline
  import opened Bars
  import opened Planner
  import opened Journal
  import opened Interleaving
  import Locks

  /** A thread runs with the call it was made with. */
  lemma CallKept(world: World, actions: seq<Action>, n: nat)
    requires n < |actions| && actions[n].Begin? && actions[n].t !in Execute(world, actions[..n]).bodies
    ensures var m, t := Execute(world, actions), actions[n].t;
      && t in m.lock.threads && m.lock.threads[t].key == actions[n].call.key
      && t in m.calls && m.calls[t] == actions[n].call
  {
    var t, call := actions[n].t, actions[n].call;
    ExecuteOneMore(world, actions, n);
    ExecuteIsLater(world, actions, n + 1);
    BeginShape(Execute(world, actions[..n]), world, t, call);
    var m := Execute(world, actions);
    assert t in m.bodies && AlignedThread(m.lock.threads[t], m.calls[t], m.bodies[t]);
  }

  lemma BeginShape(m: Machine, world: World, t: Locks.Tid, call: Call)
    requires Aligned(m) && t !in m.bodies
    ensures var m' := Perform(m, world, Begin(t, call));
      t in m'.bodies && t in m'.calls && m'.calls[t] == call && m'.bodies[t].NotStarted?
  {
  }

  /** How many steps the body of a thread can still take. */
  ghost function Rank(m: Machine, world: World, t: Locks.Tid): nat
    requires t in m.calls && t in m.bodies && GoodBody(m.bodies[t])
  {
    match m.bodies[t]
    case NotStarted => |FirstPlan(m, world, t)| + 3
    case Fetching(plan, _, outcomes) => |plan| - |outcomes| + 2
    case Reading(_, _, _) => 1
    case Returned(_, _) => 0
  }

  /** What the thread will plan, or would now if it were to start again. */
  ghost function FirstPlan(m: Machine, world: World, t: Locks.Tid): seq<Range>
    requires t in m.calls
  {
    PlanSpec(DiskOf(m, world, m.calls[t].key).intervals, WindowFor(world, m.calls[t]))
  }

  /** Whatever the world does, a step of a body brings it nearer to its return. */
  lemma WorkProgress(m: Machine, world: World, t: Locks.Tid, c: Choice)
    requires t in m.calls && t in m.bodies && GoodBody(m.bodies[t]) && !m.bodies[t].Returned?
    ensures var m' := WorkOn(m, world, t, c);
      && t in m'.calls && t in m'.bodies && GoodBody(m'.bodies[t])
      && m'.bodies[t] != m.bodies[t] && Rank(m', world, t) < Rank(m, world, t)
  {
    WorkTouches(m, world, t, c);
    match m.bodies[t]
    case NotStarted =>
      StartShape(m, world, t, c);
    case Fetching(_, _, _) =>
      if |m.bodies[t].outcomes| < |m.bodies[t].plan| && c.outcome.Fetched? {
        FetchShape(m, world, t, c);
      } else {
        CreditShape(m, world, t, c);
      }
    case Reading(_, _, _) =>
      ReadShape(m, world, t, c);
  }

  /** What the first step leaves: a hit about to read, a miss about to fetch, or a failed Get. */
  lemma StartShape(m: Machine, world: World, t: Locks.Tid, c: Choice)
    requires t in m.calls && t in m.bodies && m.bodies[t].NotStarted?
    ensures var m', call := StartBody(m, world, t, c), m.calls[t];
      var plan, done := FirstPlan(m, world, t), Lookup(m.history, call.key);
      && t in m'.bodies && m'.journals == m.journals
      && m'.bodies[t] == (if !c.ok then Returned(Failed, |done|)
                          else if plan == [] then Reading([], true, false)
                          else Fetching(plan, DiskOf(m, world, call.key).intervals, []))
      && Lookup(m'.history, call.key) == if c.ok then done else done + [StepOf(call, Env(false, [], false, false))]
  {
  }

  /** The result when the final read fails: the failure or, when a write failed too, the fetched
      bars of the window. */
  ghost function Unread(w: Window, b: Body): Result
    requires b.Reading? && GoodBody(b)
  {
    if b.degraded then Ok(Clipped(Listing(ToMap(FreshBars(b.outcomes, |b.outcomes|))), w.start, w.end)) else Failed
  }

  /** What the last step leaves, whether or not the read succeeds: the Get has returned. */
  lemma ReadShape(m: Machine, world: World, t: Locks.Tid, c: Choice)
    requires t in m.calls && t in m.bodies && m.bodies[t].Reading? && GoodBody(m.bodies[t])
    ensures var m', call, b := ReadBars(m, world, t, c), m.calls[t], m.bodies[t];
      var w, disk, done := WindowFor(world, call), DiskOf(m, world, call.key), Lookup(m.history, call.key);
      && t in m'.bodies && m'.journals == m.journals
      && m'.bodies[t] == Returned(ReadResult(disk, w, b, c.ok), |done|)
      && (!c.ok ==> m'.bodies[t].res == Unread(w, b))
      && Lookup(m'.history, call.key) == done + [StepOf(call, Env(true, b.outcomes, b.creditOk, c.ok))]
  {
    var got := ToMap(FreshBars(m.bodies[t].outcomes, |m.bodies[t].outcomes|));
    assert map[] + got == got;
  }

  /** How many steps of its body the action takes for the thread. */
  function StepsOf(a: Action, t: Locks.Tid): nat {
    if a.Work? && a.t == t then 1 else 0
  }

  /** A thread inside whose body has not returned stays inside, and its rank grows under no step. */
  lemma PerformRank(m: Machine, world: World, a: Action, t: Locks.Tid)
    requires Aligned(m) && IsInside(m, t) && !m.bodies[t].Returned?
    ensures var m' := Perform(m, world, a);
      && t in m'.calls && t in m'.bodies && GoodBody(m'.bodies[t]) && IsInside(m', t)
      && Rank(m', world, t) <= Rank(m, world, t) - StepsOf(a, t)
  {
    if a.Work? && a.t == t {
      OwnWorkRank(m, world, t, a.choice);
    } else if a.Work? && IsInside(m, a.t) {
      OtherWorkRank(m, world, a.t, a.choice, t);
    } else {
      OtherActionRank(m, world, a, t);
    }
  }

  lemma OwnWorkRank(m: Machine, world: World, t: Locks.Tid, c: Choice)
    requires Aligned(m) && IsInside(m, t) && !m.bodies[t].Returned?
    ensures t in m.calls && t in m.bodies && GoodBody(m.bodies[t])
    ensures var m' := WorkOn(m, world, t, c);
      && t in m'.calls && t in m'.bodies && GoodBody(m'.bodies[t]) && IsInside(m', t)
      && Rank(m', world, t) < Rank(m, world, t)
  {
    assert AlignedThread(m.lock.threads[t], m.calls[t], m.bodies[t]);
    WorkProgress(m, world, t, c);
    WorkTouches(m, world, t, c);
  }

  lemma OtherActionRank(m: Machine, world: World, a: Action, t: Locks.Tid)
    requires Aligned(m) && IsInside(m, t) && !m.bodies[t].Returned? && !(a.Work? && IsInside(m, a.t))
    ensures var m' := Perform(m, world, a);
      && t in m'.calls && t in m'.bodies && m'.bodies[t] == m.bodies[t] && GoodBody(m.bodies[t]) && IsInside(m', t)
      && Rank(m', world, t) == Rank(m, world, t)
  {
    assert AlignedThread(m.lock.threads[t], m.calls[t], m.bodies[t]);
    OtherActionsLeave(m, world, a);
    StaysInside(m, world, a, t);
  }

  lemma StaysInside(m: Machine, world: World, a: Action, t: Locks.Tid)
    requires Aligned(m) && IsInside(m, t) && !m.bodies[t].Returned? && !(a.Work? && IsInside(m, a.t))
    ensures IsInside(Perform(m, world, a), t)
  {
    if a.Lock? && a.t in m.bodies {
      LockStaysInside(m, world, a.t, t);
    }
  }

  lemma LockStaysInside(m: Machine, world: World, u: Locks.Tid, t: Locks.Tid)
    requires Aligned(m) && IsInside(m, t) && !m.bodies[t].Returned? && u in m.bodies
    ensures IsInside(Perform(m, world, Lock(u)), t)
  {
    if u != t {
      GoLeaves(m.lock, u, t);
    }
  }

  lemma GoLeaves(s: Locks.State, u: Locks.Tid, t: Locks.Tid)
    requires Locks.WellFormed(s) && u in s.threads && t in s.threads && u != t
    ensures var s' := Locks.Perform(s, Locks.Go(u)); t in s'.threads && s'.threads[t] == s.threads[t]
  {
    Locks.GoThreads(s, u);
  }

  lemma OtherWorkRank(m: Machine, world: World, u: Locks.Tid, c: Choice, t: Locks.Tid)
    requires Aligned(m) && IsInside(m, t) && IsInside(m, u) && u != t
    ensures var m' := WorkOn(m, world, u, c);
      && t in m'.calls && t in m'.bodies && m'.bodies[t] == m.bodies[t] && GoodBody(m.bodies[t]) && IsInside(m', t)
      && Rank(m', world, t) == Rank(m, world, t)
  {
    var s := m.lock;
    assert AlignedThread(s.threads[t], m.calls[t], m.bodies[t]);
    assert AlignedThread(s.threads[u], m.calls[u], m.bodies[u]);
    WorkTouches(m, world, u, c);
    if s.threads[t].key == s.threads[u].key {
      Locks.OneInside(s, t, u);
    }
  }

  /** How many of the actions from n to k are body steps of the thread. */
  ghost function BodySteps(actions: seq<Action>, t: Locks.Tid, n: nat, k: nat): nat
    requires n <= k <= |actions|
  {
    if k == n then
      0
    else
      BodySteps(actions, t, n, k - 1) + StepsOf(actions[k - 1], t)
  }

  /** The body has returned, or it is that much nearer to its return. */
  ghost predicate Nearer(m: Machine, world: World, t: Locks.Tid, rank: int) {
    && t in m.bodies && t in m.calls && GoodBody(m.bodies[t])
    && (m.bodies[t].Returned? || (IsInside(m, t) && Rank(m, world, t) <= rank))
  }

  lemma PerformNearer(m: Machine, world: World, a: Action, t: Locks.Tid, rank: int)
    requires Aligned(m) && Nearer(m, world, t, rank)
    ensures Nearer(Perform(m, world, a), world, t, rank - StepsOf(a, t))
  {
    PerformAligned(m, world, a);
    if m.bodies[t].Returned? {
      PerformIsLater(m, world, a);
    } else {
      PerformRank(m, world, a, t);
      var m' := Perform(m, world, a);
      assert AlignedThread(m'.lock.threads[t], m'.calls[t], m'.bodies[t]);
    }
  }

  /** The action, between these machines, brings the thread that much nearer. */
  ghost predicate Brings(m: Machine, m': Machine, world: World, a: Action, t: Locks.Tid) {
    forall rank: int :: Nearer(m, world, t, rank) ==> Nearer(m', world, t, rank - StepsOf(a, t))
  }

  lemma StepBrings(world: World, actions: seq<Action>, t: Locks.Tid, k: nat)
    requires k < |actions|
    ensures Brings(Execute(world, actions[..k]), Execute(world, actions[..k + 1]), world, actions[k], t)
  {
    ExecuteOneMore(world, actions, k);
    var m := Execute(world, actions[..k]);
    forall rank: int | Nearer(m, world, t, rank)
      ensures Nearer(Perform(m, world, actions[k]), world, t, rank - StepsOf(actions[k], t))
    {
      PerformNearer(m, world, actions[k], t, rank);
    }
  }

  lemma {:induction false} TraceBrings(trace: seq<Machine>, world: World, actions: seq<Action>, t: Locks.Tid, n: nat,
                                       k: nat, rank: int)
    requires |trace| == |actions| + 1 && n <= k <= |actions|
    requires forall i :: 0 <= i < |actions| ==> Brings(trace[i], trace[i + 1], world, actions[i], t)
    requires Nearer(trace[n], world, t, rank)
    ensures Nearer(trace[k], world, t, rank - BodySteps(actions, t, n, k))
  {
    if n < k {
      TraceBrings(trace, world, actions, t, n, k - 1, rank);
      assert Brings(trace[k - 1], trace[k - 1 + 1], world, actions[k - 1], t);
    }
  }

  lemma TraceAt(world: World, actions: seq<Action>, n: nat)
    requires n <= |actions|
    ensures Trace(world, actions)[n] == Execute(world, actions[..n])
    ensures n == |actions| ==> Trace(world, actions)[n] == Execute(world, actions)
  {
    assert n == |actions| ==> actions[..n] == actions;
  }

  lemma TraceSteps(world: World, actions: seq<Action>, t: Locks.Tid)
    ensures var trace := Trace(world, actions);
      forall i :: 0 <= i < |actions| ==> Brings(trace[i], trace[i + 1], world, actions[i], t)
  {
    forall i | 0 <= i < |actions|
      ensures Brings(Trace(world, actions)[i], Trace(world, actions)[i + 1], world, actions[i], t)
    {
      StepBrings(world, actions, t, i);
    }
  }

  lemma NearerEver(world: World, actions: seq<Action>, t: Locks.Tid, n: nat, rank: int)
    requires n <= |actions| && Nearer(Execute(world, actions[..n]), world, t, rank)
    ensures Nearer(Execute(world, actions), world, t, rank - BodySteps(actions, t, n, |actions|))
  {
    TraceSteps(world, actions, t);
    TraceAt(world, actions, n);
    TraceAt(world, actions, |actions|);
    TraceBrings(Trace(world, actions), world, actions, t, n, |actions|, rank);
  }

  /** Every Get returns: once a thread is inside, at most three steps of its body and one for each
      range it plans, whatever fails and whatever the others do meanwhile. */
  lemma BodyReturns(world: World, actions: seq<Action>, t: Locks.Tid, n: nat)
    requires n <= |actions| && IsInside(Execute(world, actions[..n]), t)
    requires Execute(world, actions[..n]).bodies[t].NotStarted?
    requires BodySteps(actions, t, n, |actions|) >= |FirstPlan(Execute(world, actions[..n]), world, t)| + 3
    ensures var m := Execute(world, actions);
      t in m.bodies && m.bodies[t].Returned?
  {
    var rank := |FirstPlan(Execute(world, actions[..n]), world, t)| + 3;
    NearerEver(world, actions, t, n, rank);
    RankZero(Execute(world, actions), world, t, rank - BodySteps(actions, t, n, |actions|));
  }

  lemma RankZero(m: Machine, world: World, t: Locks.Tid, rank: int)
    requires Nearer(m, world, t, rank) && rank <= 0
    ensures m.bodies[t].Returned?
  {
  }

  /** The thread's next step: of its body if that is what it is in, and else of the lock. */
  function NextStep(m: Machine, u: Locks.Tid, c: Choice): Action
    requires u in m.bodies
  {
    if IsInside(m, u) && !m.bodies[u].Returned? then Work(u, c) else Lock(u)
  }

  /** The step moves the thread, in its body or at the lock. */
  ghost predicate Moves(m: Machine, m': Machine, u: Locks.Tid) {
    && u in m.bodies && u in m'.bodies && u in m.lock.threads && u in m'.lock.threads
    && (m'.bodies[u] != m.bodies[u] || m'.lock.threads[u].pc != m.lock.threads[u].pc)
  }

  /** No deadlock: while some Get is unfinished, some thread has a next step that moves it, whatever
      the world answers. */
  lemma NeverStuck(world: World, actions: seq<Action>, t: Locks.Tid, c: Choice) returns (u: Locks.Tid)
    requires t in Execute(world, actions).lock.threads && !Execute(world, actions).lock.threads[t].pc.Finished?
    ensures u in Execute(world, actions).bodies
    ensures var m := Execute(world, actions); Moves(m, Perform(m, world, NextStep(m, u, c)), u)
  {
    u := SomeoneMoves(Execute(world, actions), world, t, c);
  }

  lemma SomeoneMoves(m: Machine, world: World, t: Locks.Tid, c: Choice) returns (u: Locks.Tid)
    requires Aligned(m) && t in m.lock.threads && !m.lock.threads[t].pc.Finished?
    ensures u in m.bodies && Moves(m, Perform(m, world, NextStep(m, u, c)), u)
  {
    u := Locks.CanStep(m.lock, t);
    if IsInside(m, u) && !m.bodies[u].Returned? {
      WorkMoves(m, world, u, c);
    } else {
      LockMoves(m.lock, u);
    }
  }

  lemma WorkMoves(m: Machine, world: World, u: Locks.Tid, c: Choice)
    requires Aligned(m) && IsInside(m, u) && !m.bodies[u].Returned?
    ensures Moves(m, Perform(m, world, Work(u, c)), u)
  {
    assert AlignedThread(m.lock.threads[u], m.calls[u], m.bodies[u]);
    WorkProgress(m, world, u, c);
    WorkTouches(m, world, u, c);
  }

  lemma LockMoves(s: Locks.State, u: Locks.Tid)
    requires Locks.WellFormed(s) && u in s.threads && Locks.Advance(s, u).threads != s.threads
    ensures u in Locks.Advance(s, u).threads && Locks.Advance(s, u).threads[u].pc != s.threads[u].pc
  {
    Locks.GoThreads(s, u);
    var threads := Locks.Advance(s, u).threads;
    assert threads[u] == s.threads[u] ==> threads == s.threads;
  }
}
