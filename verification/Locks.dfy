/** The refcounted per-key lock as an interleaved machine.  Each thread advances one small step
    at a time; s.mu and every keyLock's mutex are ordinary mutexes; a lock object, once made,
    stays in the heap, while the map entry that names it comes and goes. */
module Locks {
  import opened Wrappers

  type Tid = nat
  type LockId = nat

  /** Where a thread is in lockKey and the unlock it returns. */
  datatype Pc =
    | Calling            // about to take s.mu
    | Entering           // holds s.mu; about to look the key up, making its lock if absent
    | Found(l: LockId)   // holds s.mu; about to count its reference
    | Counted(l: LockId) // holds s.mu; about to release it
    | Waiting(l: LockId) // about to take the lock's mutex
    | Inside(l: LockId)  // holds the lock's mutex: the body of Get
    | Leaving(l: LockId) // released the mutex; about to take s.mu again
    | Exiting(l: LockId) // holds s.mu; about to drop its reference
    | Dropped(l: LockId) // holds s.mu; about to delete the entry if that was the last one
    | Cleared            // holds s.mu; about to release it
    | Finished

  datatype Thread = Thread(key: string, pc: Pc)

  /** A keyLock: its reference count, the holder of its mutex, and the key it was made for. */
  datatype KeyLock = KeyLock(refs: int, holder: Option<Tid>, key: string)

  datatype State = State(
    mu: Option<Tid>,
    locks: map<string, LockId>,
    heap: map<LockId, KeyLock>,
    next: LockId,
    threads: map<Tid, Thread>)

  const INITIAL := State(None, map[], map[], 0, map[])

  /** A new thread calls Get for a key, or a thread takes its next step. */
  datatype Action = Call(t: Tid, key: string) | Go(t: Tid)

  function MoveTo(s: State, t: Tid, pc: Pc): State
    requires t in s.threads
  {
    s.(threads := s.threads[t := s.threads[t].(pc := pc)])
  }

  /** Every lock a thread names is an object of the heap. */
  predicate WellFormed(s: State) {
    && (forall t :: t in s.threads ==> Names(s.threads[t].pc) ==> s.threads[t].pc.l in s.heap)
    && (forall k :: k in s.locks ==> s.locks[k] in s.heap)
    && (forall l :: l in s.heap ==> l < s.next)
  }

  predicate Names(pc: Pc) {
    pc.Found? || pc.Counted? || pc.Waiting? || pc.Inside? || pc.Leaving? || pc.Exiting? || pc.Dropped?
  }

  /** The next step of a thread; a thread that cannot proceed stays where it is. */
  function Advance(s: State, t: Tid): State
    requires WellFormed(s) && t in s.threads
  {
    var k := s.threads[t].key;
    match s.threads[t].pc
    case Calling => if s.mu.None? then MoveTo(s, t, Entering).(mu := Some(t)) else s
    case Entering =>
      if k in s.locks then
        MoveTo(s, t, Found(s.locks[k]))
      else
        MoveTo(s, t, Found(s.next)).(
          heap := s.heap[s.next := KeyLock(0, None, k)], locks := s.locks[k := s.next], next := s.next + 1)
    case Found(l) => MoveTo(s, t, Counted(l)).(heap := s.heap[l := s.heap[l].(refs := s.heap[l].refs + 1)])
    case Counted(l) => MoveTo(s, t, Waiting(l)).(mu := None)
    case Waiting(l) =>
      if s.heap[l].holder.None? then MoveTo(s, t, Inside(l)).(heap := s.heap[l := s.heap[l].(holder := Some(t))]) else s
    case Inside(l) => MoveTo(s, t, Leaving(l)).(heap := s.heap[l := s.heap[l].(holder := None)])
    case Leaving(l) => if s.mu.None? then MoveTo(s, t, Exiting(l)).(mu := Some(t)) else s
    case Exiting(l) => MoveTo(s, t, Dropped(l)).(heap := s.heap[l := s.heap[l].(refs := s.heap[l].refs - 1)])
    case Dropped(l) => MoveTo(s, t, Cleared).(locks := if s.heap[l].refs == 0 then s.locks - {k} else s.locks)
    case Cleared => MoveTo(s, t, Finished).(mu := None)
    case Finished => s
  }

  function Perform(s: State, a: Action): State
    requires WellFormed(s)
  {
    match a
    case Call(t, k) => if t in s.threads then s else s.(threads := s.threads[t := Thread(k, Calling)])
    case Go(t) => if t in s.threads then Advance(s, t) else s
  }

  // ---- the invariant ----

  /** Between taking and dropping a reference to the lock. */
  predicate Holds(pc: Pc, l: LockId) {
    pc == Counted(l) || pc == Waiting(l) || pc == Inside(l) || pc == Leaving(l) || pc == Exiting(l)
  }

  predicate InMu(pc: Pc) {
    pc.Entering? || pc.Found? || pc.Counted? || pc.Exiting? || pc.Dropped? || pc.Cleared?
  }

  /** The threads between taking and dropping a reference to the lock. */
  ghost function Holders(s: State, l: LockId): set<Tid> {
    set t | t in s.threads && Holds(s.threads[t].pc, l)
  }

  /** s.mu is held by exactly the thread inside one of its critical sections. */
  ghost predicate MuExact(s: State) {
    && (forall t :: t in s.threads ==> (InMu(s.threads[t].pc) <==> s.mu == Some(t)))
    && (s.mu.Some? ==> s.mu.value in s.threads)
  }

  /** A lock's mutex is held by exactly the thread inside. */
  ghost predicate MutexExact(s: State)
    requires WellFormed(s)
  {
    && (forall t :: t in s.threads && s.threads[t].pc.Inside? ==> s.heap[s.threads[t].pc.l].holder == Some(t))
    && (forall l :: l in s.heap && s.heap[l].holder.Some? ==>
          s.heap[l].holder.value in s.threads && s.threads[s.heap[l].holder.value].pc == Inside(l))
  }

  /** refs counts the references. */
  ghost predicate RefsExact(s: State) {
    forall l :: l in s.heap ==> s.heap[l].refs == |Holders(s, l)|
  }

  /** The lock a thread names is the one the map has under the thread's key. */
  ghost predicate NamesMapped(s: State) {
    forall t :: t in s.threads && Names(s.threads[t].pc) ==>
      s.threads[t].key in s.locks && s.locks[s.threads[t].key] == s.threads[t].pc.l
  }

  /** Every entry was made for its key and is named by some thread. */
  ghost predicate EntriesUsed(s: State)
    requires WellFormed(s)
  {
    forall k :: k in s.locks ==> s.heap[s.locks[k]].key == k && InUse(s, s.locks[k])
  }

  ghost predicate InUse(s: State, l: LockId) {
    exists t :: NamesLock(s, t, l)
  }

  ghost predicate NamesLock(s: State, t: Tid, l: LockId) {
    t in s.threads && Names(s.threads[t].pc) && s.threads[t].pc.l == l
  }

  ghost predicate Invariant(s: State) {
    WellFormed(s) && MuExact(s) && MutexExact(s) && RefsExact(s) && NamesMapped(s) && EntriesUsed(s)
  }

  // ---- every step keeps it ----

  /** On the way in: from calling lockKey to taking the lock's mutex. */
  predicate Arriving(pc: Pc) {
    pc.Calling? || pc.Entering? || pc.Found? || pc.Counted? || pc.Waiting?
  }

  lemma ArrivingKeepsForm(s: State, t: Tid)
    requires WellFormed(s) && t in s.threads && Arriving(s.threads[t].pc)
    ensures WellFormed(Advance(s, t))
  {
    GoThreads(s, t);
  }

  lemma LeavingKeepsForm(s: State, t: Tid)
    requires WellFormed(s) && t in s.threads && !Arriving(s.threads[t].pc)
    ensures WellFormed(Advance(s, t))
  {
    GoThreads(s, t);
  }

  lemma GoKeepsForm(s: State, t: Tid)
    requires WellFormed(s) && t in s.threads
    ensures WellFormed(Advance(s, t))
  {
    if Arriving(s.threads[t].pc) {
      ArrivingKeepsForm(s, t);
    } else {
      LeavingKeepsForm(s, t);
    }
  }

  /** A step moves its own thread only. */
  lemma GoThreads(s: State, t: Tid)
    requires WellFormed(s) && t in s.threads
    ensures Advance(s, t).threads.Keys == s.threads.Keys && Advance(s, t).threads[t].key == s.threads[t].key
    ensures forall u :: u in s.threads && u != t ==> Advance(s, t).threads[u] == s.threads[u]
  {
    var s' := Advance(s, t);
    assert s'.threads == s.threads[t := Thread(s.threads[t].key, s'.threads[t].pc)];
    assert forall u :: u in s.threads && u != t ==> s'.threads[u] == s.threads[u];
  }

  lemma GoKeepsMu(s: State, t: Tid)
    requires WellFormed(s) && MuExact(s) && t in s.threads
    ensures MuExact(Advance(s, t))
  {
    GoThreads(s, t);
    var s' := Advance(s, t);
    assert InMu(s.threads[t].pc) <==> s.mu == Some(t);
    forall u | u in s'.threads ensures InMu(s'.threads[u].pc) <==> s'.mu == Some(u) {
      assert InMu(s.threads[u].pc) <==> s.mu == Some(u);
    }
  }

  /** What a step does to the objects: new ones are free, and only Waiting and Inside touch a
      mutex. */
  ghost predicate HeapStep(s: State, s': State, pc: Pc) {
    && s.heap.Keys <= s'.heap.Keys
    && (forall l :: l in s'.heap && l !in s.heap ==> s'.heap[l].holder.None?)
    && (forall l :: l in s.heap && l in s'.heap ==> s'.heap[l].key == s.heap[l].key)
    && (forall l :: l in s.heap && l in s'.heap && !(pc == Waiting(l) || pc == Inside(l)) ==>
          s'.heap[l].holder == s.heap[l].holder)
  }

  lemma ArrivingHeap(s: State, t: Tid)
    requires WellFormed(s) && t in s.threads && Arriving(s.threads[t].pc)
    ensures HeapStep(s, Advance(s, t), s.threads[t].pc)
  {
  }

  lemma LeavingHeap(s: State, t: Tid)
    requires WellFormed(s) && t in s.threads && !Arriving(s.threads[t].pc)
    ensures HeapStep(s, Advance(s, t), s.threads[t].pc)
  {
  }

  lemma GoHeap(s: State, t: Tid)
    requires WellFormed(s) && t in s.threads
    ensures HeapStep(s, Advance(s, t), s.threads[t].pc)
  {
    if Arriving(s.threads[t].pc) {
      ArrivingHeap(s, t);
    } else {
      LeavingHeap(s, t);
    }
  }

  /** A thread that gets inside has just taken its mutex. */
  lemma EntersHolding(s: State, t: Tid)
    requires WellFormed(s) && t in s.threads
    ensures var s' := Advance(s, t);
      s'.threads[t].pc.Inside? ==> s'.threads[t].pc.l in s'.heap && s'.heap[s'.threads[t].pc.l].holder == Some(t)
  {
  }

  /** The other threads inside still hold theirs. */
  lemma OthersHold(s: State, s': State, pc: Pc, t: Tid, u: Tid)
    requires WellFormed(s) && MutexExact(s) && t in s.threads && s.threads[t].pc == pc && u != t
    requires u in s.threads && u in s'.threads && s'.threads[u] == s.threads[u] && s.threads[u].pc.Inside?
    requires HeapStep(s, s', pc)
    requires pc.Waiting? ==> pc.l in s.heap && (s.heap[pc.l].holder.None? || s'.heap == s.heap)
    ensures s.threads[u].pc.l in s'.heap && s'.heap[s.threads[u].pc.l].holder == Some(u)
  {
    assert s.heap[s.threads[u].pc.l].holder == Some(u);
  }

  lemma WaitsForFree(s: State, t: Tid)
    requires WellFormed(s) && t in s.threads && s.threads[t].pc.Waiting?
    ensures s.heap[s.threads[t].pc.l].holder.None? || Advance(s, t).heap == s.heap
  {
  }

  lemma InsideHolds(s: State, t: Tid, u: Tid)
    requires WellFormed(s) && MutexExact(s) && t in s.threads
    requires u in Advance(s, t).threads && Advance(s, t).threads[u].pc.Inside?
    ensures var s' := Advance(s, t); s'.threads[u].pc.l in s'.heap && s'.heap[s'.threads[u].pc.l].holder == Some(u)
  {
    GoThreads(s, t);
    if u == t {
      EntersHolding(s, t);
    } else {
      GoHeap(s, t);
      if s.threads[t].pc.Waiting? {
        WaitsForFree(s, t);
      }
      OthersHold(s, Advance(s, t), s.threads[t].pc, t, u);
    }
  }

  /** A mutex held afterwards is held by the thread inside. */
  lemma HolderInside(s: State, t: Tid, l: LockId)
    requires WellFormed(s) && MutexExact(s) && t in s.threads
    requires l in Advance(s, t).heap && Advance(s, t).heap[l].holder.Some?
    ensures var s' := Advance(s, t);
      s'.heap[l].holder.value in s'.threads && s'.threads[s'.heap[l].holder.value].pc == Inside(l)
  {
    GoThreads(s, t);
    GoHeap(s, t);
    var pc := s.threads[t].pc;
    if !(pc == Waiting(l) || pc == Inside(l)) {
      assert s.heap[l].holder == Advance(s, t).heap[l].holder;
      assert s.threads[s.heap[l].holder.value].pc == Inside(l);
    }
  }

  lemma GoKeepsMutex(s: State, t: Tid)
    requires WellFormed(s) && MutexExact(s) && t in s.threads && WellFormed(Advance(s, t))
    ensures MutexExact(Advance(s, t))
  {
    var s' := Advance(s, t);
    forall u | u in s'.threads && s'.threads[u].pc.Inside? ensures s'.heap[s'.threads[u].pc.l].holder == Some(u) {
      InsideHolds(s, t, u);
    }
    forall l | l in s'.heap && s'.heap[l].holder.Some?
      ensures s'.heap[l].holder.value in s'.threads && s'.threads[s'.heap[l].holder.value].pc == Inside(l)
    {
      HolderInside(s, t, l);
    }
  }

  lemma HoldersMove(s: State, t: Tid, pc: Pc, l: LockId)
    requires t in s.threads
    ensures var was, now := Holds(s.threads[t].pc, l), Holds(pc, l);
      |Holders(MoveTo(s, t, pc), l)| == |Holders(s, l)| + (if now then 1 else 0) - (if was then 1 else 0)
  {
    OneMember(Holders(s, l), Holders(MoveTo(s, t, pc), l), t);
  }

  /** Sets that agree but for t have sizes that differ by its membership. */
  lemma OneMember(before: set<Tid>, after: set<Tid>, t: Tid)
    requires forall u :: u != t ==> (u in before <==> u in after)
    ensures |after| == |before| + (if t in after then 1 else 0) - (if t in before then 1 else 0)
  {
    assert before - {t} == after - {t};
    assert t in before ==> before == before - {t} + {t};
    assert t in after ==> after == after - {t} + {t};
  }

  lemma GoKeepsRefs(s: State, t: Tid)
    requires WellFormed(s) && RefsExact(s) && t in s.threads
    ensures RefsExact(Advance(s, t))
  {
    var s' := Advance(s, t);
    forall l | l in s'.heap ensures s'.heap[l].refs == |Holders(s', l)| {
      HoldersAfter(s, t, l);
      RefsAfter(s, t, l);
      if l !in s.heap {
        assert Holders(s, l) == {};
      }
    }
  }

  /** A step changes a count exactly when it takes or drops a reference. */
  lemma RefsAfter(s: State, t: Tid, l: LockId)
    requires WellFormed(s) && t in s.threads && l in Advance(s, t).heap
    ensures var was, now := Holds(s.threads[t].pc, l), Holds(Advance(s, t).threads[t].pc, l);
      Advance(s, t).heap[l].refs
        == (if l in s.heap then s.heap[l].refs else 0) + (if now then 1 else 0) - (if was then 1 else 0)
  {
  }

  lemma HoldersAfter(s: State, t: Tid, l: LockId)
    requires WellFormed(s) && t in s.threads
    ensures var was, now := Holds(s.threads[t].pc, l), Holds(Advance(s, t).threads[t].pc, l);
      |Holders(Advance(s, t), l)| == |Holders(s, l)| + (if now then 1 else 0) - (if was then 1 else 0)
  {
    var s' := Advance(s, t);
    GoThreads(s, t);
    HoldersMove(s, t, s'.threads[t].pc, l);
    assert Holders(s', l) == Holders(MoveTo(s, t, s'.threads[t].pc), l);
  }

  lemma HeldIsNamed(s: State, l: LockId) returns (u: Tid)
    requires RefsExact(s) && l in s.heap && s.heap[l].refs != 0
    ensures NamesLock(s, u, l) && Holds(s.threads[u].pc, l)
  {
    assert (forall y :: y !in Holders(s, l)) ==> Holders(s, l) == {};
    u :| u in Holders(s, l);
  }

  /** What a step does to the map: it adds the entry it is about to use, or deletes its own
      entry when the count is zero. */
  lemma GoLocks(s: State, t: Tid)
    requires WellFormed(s) && t in s.threads
    ensures var k, pc := s.threads[t].key, s.threads[t].pc;
      && (forall e :: e in s.locks && e != k ==> e in Advance(s, t).locks && Advance(s, t).locks[e] == s.locks[e])
      && (forall e :: e in Advance(s, t).locks && e != k ==> e in s.locks)
      && (k in s.locks && !(pc.Dropped? && s.heap[pc.l].refs == 0) ==>
            k in Advance(s, t).locks && Advance(s, t).locks[k] == s.locks[k])
      && (pc.Dropped? && s.heap[pc.l].refs == 0 ==> k !in Advance(s, t).locks)
      && (pc.Entering? ==> k in Advance(s, t).locks && Advance(s, t).threads[t].pc == Found(Advance(s, t).locks[k]))
      && (k in Advance(s, t).locks && k !in s.locks ==>
            pc.Entering? && Advance(s, t).heap[Advance(s, t).locks[k]].key == k)
      && (Names(Advance(s, t).threads[t].pc) && !pc.Entering? ==> Names(pc) && Advance(s, t).threads[t].pc.l == pc.l)
      && (Names(pc) && !pc.Dropped? ==> Names(Advance(s, t).threads[t].pc))
  {
  }

  lemma GoKeepsNames(s: State, t: Tid)
    requires Invariant(s) && t in s.threads
    ensures NamesMapped(Advance(s, t))
  {
    GoThreads(s, t);
    GoLocks(s, t);
    var s' := Advance(s, t);
    var k := s.threads[t].key;
    forall u | u in s'.threads && Names(s'.threads[u].pc)
      ensures s'.threads[u].key in s'.locks && s'.locks[s'.threads[u].key] == s'.threads[u].pc.l
    {
      if u != t {
        assert Names(s.threads[u].pc);
        if s.threads[t].pc.Dropped? && s.threads[u].key == k {
          assert s.threads[t].pc.l == s.locks[k];
          NoReferenceLeft(s, t, u);
        }
      }
    }
  }

  /** When the last reference is dropped, no other thread names the lock. */
  lemma NoReferenceLeft(s: State, t: Tid, u: Tid)
    requires Invariant(s) && t in s.threads && s.threads[t].pc.Dropped?
    requires u != t && NamesLock(s, u, s.threads[t].pc.l)
    ensures s.heap[s.threads[t].pc.l].refs != 0
  {
    var l := s.threads[t].pc.l;
    assert InMu(s.threads[t].pc) && !InMu(s.threads[u].pc);
    assert u in Holders(s, l);
  }

  lemma GoKeepsEntries(s: State, t: Tid)
    requires Invariant(s) && t in s.threads && WellFormed(Advance(s, t))
    ensures EntriesUsed(Advance(s, t))
  {
    GoThreads(s, t);
    GoHeap(s, t);
    GoLocks(s, t);
    var s' := Advance(s, t);
    forall e | e in s'.locks ensures s'.heap[s'.locks[e]].key == e && InUse(s', s'.locks[e]) {
      if e in s.locks {
        EntryStaysUsed(s, t, e);
      } else {
        assert NamesLock(s', t, s'.locks[e]);
      }
    }
  }

  lemma EntryStaysUsed(s: State, t: Tid, e: string)
    requires Invariant(s) && t in s.threads && e in s.locks && e in Advance(s, t).locks
    ensures InUse(Advance(s, t), s.locks[e])
  {
    GoThreads(s, t);
    GoLocks(s, t);
    var s' := Advance(s, t);
    var l := s.locks[e];
    var u :| NamesLock(s, u, l);
    if u != t {
      assert NamesLock(s', u, l);
    } else if s.threads[t].pc.Dropped? {
      assert s.locks[s.threads[t].key] == l && s.heap[l].key == e;
      assert s.threads[t].key == e;
      var v := HeldIsNamed(s, l);
      assert NamesLock(s', v, l);
    } else {
      assert NamesLock(s', t, l);
    }
  }

  lemma CallKeepsForm(s: State, t: Tid, k: string)
    requires Invariant(s) && t !in s.threads
    ensures var s' := Perform(s, Call(t, k)); WellFormed(s') && MuExact(s') && MutexExact(s') && NamesMapped(s')
  {
  }

  lemma CallKeepsCounts(s: State, t: Tid, k: string)
    requires Invariant(s) && t !in s.threads
    ensures var s' := Perform(s, Call(t, k)); RefsExact(s') && WellFormed(s') && EntriesUsed(s')
  {
    var s' := Perform(s, Call(t, k));
    forall l | l in s.heap ensures s'.heap[l].refs == |Holders(s', l)| {
      assert Holders(s', l) == Holders(s, l);
    }
    forall e | e in s'.locks ensures InUse(s', s'.locks[e]) {
      var u :| NamesLock(s, u, s.locks[e]);
      assert NamesLock(s', u, s'.locks[e]);
    }
  }

  lemma CallKeeps(s: State, t: Tid, k: string)
    requires Invariant(s) && t !in s.threads
    ensures Invariant(Perform(s, Call(t, k)))
  {
    CallKeepsForm(s, t, k);
    CallKeepsCounts(s, t, k);
  }

  lemma PerformKeeps(s: State, a: Action)
    requires Invariant(s)
    ensures Invariant(Perform(s, a))
  {
    match a
    case Call(t, k) =>
      if t !in s.threads {
        CallKeeps(s, t, k);
      }
    case Go(t) =>
      if t in s.threads {
        GoKeepsForm(s, t);
        GoKeepsMu(s, t);
        GoKeepsMutex(s, t);
        GoKeepsRefs(s, t);
        GoKeepsNames(s, t);
        GoKeepsEntries(s, t);
      }
  }

  // ---- every interleaving ----

  /** The state after any sequence of actions of any threads. */
  function Execute(actions: seq<Action>): (s: State)
    ensures WellFormed(s)
  {
    if actions == [] then
      INITIAL
    else
      var s := Execute(actions[..|actions| - 1]);
      PerformKeepsForm(s, actions[|actions| - 1]);
      Perform(s, actions[|actions| - 1])
  }

  lemma PerformKeepsForm(s: State, a: Action)
    requires WellFormed(s)
    ensures WellFormed(Perform(s, a))
  {
    if a.Go? && a.t in s.threads {
      GoKeepsForm(s, a.t);
    }
  }

  /** The invariant holds in every interleaving. */
  lemma {:induction false} EveryInterleaving(actions: seq<Action>)
    ensures Invariant(Execute(actions))
  {
    if actions != [] {
      EveryInterleaving(actions[..|actions| - 1]);
      PerformKeeps(Execute(actions[..|actions| - 1]), actions[|actions| - 1]);
    }
  }

  /** At most one thread is inside per key. */
  lemma AtMostOneInside(actions: seq<Action>, t: Tid, u: Tid)
    requires var s := Execute(actions);
      && t in s.threads && u in s.threads && s.threads[t].key == s.threads[u].key
      && s.threads[t].pc.Inside? && s.threads[u].pc.Inside?
    ensures t == u
  {
    EveryInterleaving(actions);
    OneInside(Execute(actions), t, u);
  }

  lemma OneInside(s: State, t: Tid, u: Tid)
    requires Invariant(s) && t in s.threads && u in s.threads && s.threads[t].key == s.threads[u].key
    requires s.threads[t].pc.Inside? && s.threads[u].pc.Inside?
    ensures t == u
  {
    assert s.threads[t].pc.l == s.locks[s.threads[t].key] == s.threads[u].pc.l;
  }

  /** The threads between taking and dropping a reference under a key. */
  ghost function Referencing(s: State, k: string): set<Tid> {
    set t | t in s.threads && s.threads[t].key == k
      && Names(s.threads[t].pc) && !s.threads[t].pc.Found? && !s.threads[t].pc.Dropped?
  }

  /** Whenever s.mu is free, a key has an entry exactly while some thread holds a reference
      under it; the entry's count is the number of those threads; and the entry is the very
      object each of them named when it took its reference. */
  lemma EntryWhileReferenced(actions: seq<Action>, k: string)
    requires Execute(actions).mu.None?
    ensures var s := Execute(actions);
      && (k in s.locks <==> Referencing(s, k) != {})
      && (k in s.locks ==> s.heap[s.locks[k]].refs == |Referencing(s, k)|)
      && (forall t :: t in Referencing(s, k) ==> k in s.locks && s.threads[t].pc.l == s.locks[k])
  {
    var s := Execute(actions);
    EveryInterleaving(actions);
    assert forall t :: t in s.threads ==> !InMu(s.threads[t].pc);
    if k in s.locks {
      var l := s.locks[k];
      var u :| NamesLock(s, u, l);
      assert s.heap[s.locks[s.threads[u].key]].key == s.threads[u].key;
      assert u in Referencing(s, k);
      SameReferences(s, k);
    }
  }

  lemma SameReferences(s: State, k: string)
    requires Invariant(s) && k in s.locks
    ensures Referencing(s, k) == Holders(s, s.locks[k])
  {
    var l := s.locks[k];
    forall t ensures t in Referencing(s, k) <==> t in Holders(s, l) {
      if t in Holders(s, l) {
        assert s.locks[s.threads[t].key] == l;
        assert s.heap[l].key == s.threads[t].key;
      }
    }
  }

  /** With no Get in flight the map is empty. */
  lemma EmptyWhenIdle(actions: seq<Action>)
    requires forall t :: t in Execute(actions).threads ==> Execute(actions).threads[t].pc.Finished?
    ensures Execute(actions).locks == map[]
  {
    var s := Execute(actions);
    EveryInterleaving(actions);
    assert EntriesUsed(s);
    assert forall k :: k !in s.locks;
  }

  /** No deadlock: while some Get is unfinished, some thread can take a step. */
  lemma SomeThreadCanStep(actions: seq<Action>, t: Tid) returns (u: Tid)
    requires t in Execute(actions).threads && !Execute(actions).threads[t].pc.Finished?
    ensures u in Execute(actions).threads && Advance(Execute(actions), u).threads != Execute(actions).threads
  {
    EveryInterleaving(actions);
    u := CanStep(Execute(actions), t);
  }

  lemma CanStep(s: State, t: Tid) returns (u: Tid)
    requires Invariant(s) && t in s.threads && !s.threads[t].pc.Finished?
    ensures u in s.threads && Advance(s, u).threads != s.threads
  {
    if s.mu.Some? {
      u := s.mu.value;
      assert InMu(s.threads[u].pc);
    } else if s.threads[t].pc.Waiting? && s.heap[s.threads[t].pc.l].holder.Some? {
      u := s.heap[s.threads[t].pc.l].holder.value;
    } else {
      u := t;
      assert !InMu(s.threads[t].pc);
    }
    StepMoves(s, u);
  }

  /** A thread is held back only by a mutex that is taken. */
  lemma StepMoves(s: State, u: Tid)
    requires WellFormed(s) && u in s.threads
    ensures var pc := s.threads[u].pc;
      Advance(s, u).threads[u].pc == pc <==>
        || pc.Finished?
        || ((pc.Calling? || pc.Leaving?) && s.mu.Some?)
        || (pc.Waiting? && s.heap[pc.l].holder.Some?)
  {
  }
}
