/** Everything outside the store: the clock, upstream, the success of repository calls and the locks
    that are taken.  What the world decides is fixed in advance, call by call, and every call made
    to it is on record, so that no code can choose an outcome or pass over a call unseen. */
module Outside {
  import opened Timeline
  import opened Bars
  import opened MemRepo
  import opened Planner
  import opened Journal

  /** One key's lock: its mutex, and how many Gets refer to it. */
  class KeyLock {
    var held: bool
    var refs: nat

    constructor ()
      ensures !held && refs == 0
    {
      held, refs := false, 0;
    }
  }

  datatype Fetch = Answer(bars: seq<Bar>) | Error

  /** What is asked of upstream. */
  datatype Request = Request(symbol: string, timeframe: string, from: Time, to: Time)

  /** A call to the world, with its arguments and outcome. */
  datatype Event =
    | ClockRead(now: Time)
    | Acquired(key: string, lock: KeyLock)
    | Released(key: string, lock: KeyLock)
    | IntervalsRead(key: string, ok: bool)
    | Requested(request: Request, answer: Fetch)
    | BarsPut(key: string, bars: seq<Bar>, ok: bool)
    | IntervalsPut(key: string, intervals: seq<Interval>, ok: bool)
    | BarsRead(key: string, start: Time, end: Time, ok: bool)

  /** The world's decisions for its n-th call: what the clock reads, what upstream answers to a
      request and whether a repository call succeeds. */
  datatype Script = Script(clock: nat -> Time, upstream: (nat, Request) -> Fetch, works: nat -> bool)

  /** The event can be the n-th call.  Writing no bars never fails. */
  predicate Agrees(script: Script, n: nat, e: Event) {
    match e
    case ClockRead(now) => now == script.clock(n)
    case Acquired(_, _) => true
    case Released(_, _) => true
    case IntervalsRead(_, ok) => ok == script.works(n)
    case Requested(request, answer) => answer == script.upstream(n, request)
    case BarsPut(_, bars, ok) => ok == (bars == [] || script.works(n))
    case IntervalsPut(_, _, ok) => ok == script.works(n)
    case BarsRead(_, _, _, ok) => ok == script.works(n)
  }

  /** The key's lock was taken and has not been released since. */
  ghost predicate Inside(trace: seq<Event>, k: string) {
    if trace == [] then
      false
    else
      var n := |trace| - 1;
      Takes(trace[n], k) || (!Drops(trace[n], k) && Inside(trace[..n], k))
  }

  predicate Takes(e: Event, k: string) {
    e.Acquired? && e.key == k
  }

  predicate Drops(e: Event, k: string) {
    e.Released? && e.key == k
  }

  predicate ToRepository(e: Event) {
    e.IntervalsRead? || e.BarsPut? || e.IntervalsPut? || e.BarsRead?
  }

  /** Repository calls are made inside their key's lock, which only one Get at a time takes. */
  ghost predicate Allowed(trace: seq<Event>, e: Event) {
    && (ToRepository(e) ==> Inside(trace, e.key))
    && (e.Acquired? ==> !Inside(trace, e.key))
    && (e.Released? ==> Inside(trace, e.key))
  }

  lemma InsideMore(trace: seq<Event>, e: Event, k: string)
    ensures Inside(trace + [e], k) <==> Takes(e, k) || (!Drops(e, k) && Inside(trace, k))
  {
    assert (trace + [e])[..|trace|] == trace;
  }

  ghost predicate Follows(script: Script, trace: seq<Event>) {
    forall i :: 0 <= i < |trace| ==> Agrees(script, i, trace[i]) && Allowed(trace[..i], trace[i])
  }

  lemma FollowsMore(script: Script, trace: seq<Event>, e: Event)
    requires Follows(script, trace) && Agrees(script, |trace|, e) && Allowed(trace, e)
    ensures Follows(script, trace + [e])
    ensures forall k :: Inside(trace + [e], k) <==> Takes(e, k) || (!Drops(e, k) && Inside(trace, k))
  {
    var more := trace + [e];
    forall k ensures Inside(more, k) <==> Takes(e, k) || (!Drops(e, k) && Inside(trace, k)) {
      InsideMore(trace, e, k);
    }
    forall i | 0 <= i < |more| ensures Agrees(script, i, more[i]) && Allowed(more[..i], more[i]) {
      assert i < |trace| ==> more[..i] == trace[..i] && more[i] == trace[i];
      assert i == |trace| ==> more[..i] == trace;
    }
  }

  class World {
    const script: Script
    var step: nat
    /** The calls made so far, in order. */
    ghost var trace: seq<Event>

    /** The record follows the script, and every repository call was made under its key's lock. */
    ghost predicate Valid()
      reads this
    {
      |trace| == step && Follows(script, trace)
    }

    constructor (script: Script)
      ensures Valid() && this.script == script && trace == []
    {
      this.script := script;
      step := 0;
      trace := [];
    }

    /** A call that takes or releases no lock. */
    method Record(ghost e: Event)
      requires Valid() && Agrees(script, step, e) && Allowed(trace, e) && !e.Acquired? && !e.Released?
      modifies this
      ensures Valid() && trace == old(trace) + [e]
      ensures forall k :: Inside(trace, k) <==> Inside(old(trace), k)
    {
      FollowsMore(script, trace, e);
      trace := trace + [e];
      step := step + 1;
    }

    /** Takes a free mutex. */
    method Lock(k: string, lock: KeyLock)
      requires Valid() && !lock.held && !Inside(trace, k)
      modifies this, lock`held
      ensures Valid() && trace == old(trace) + [Acquired(k, lock)] && lock.held
      ensures forall x :: Inside(trace, x) <==> x == k || Inside(old(trace), x)
    {
      FollowsMore(script, trace, Acquired(k, lock));
      trace := trace + [Acquired(k, lock)];
      step := step + 1;
      lock.held := true;
    }

    /** Releases a held one. */
    method Unlock(k: string, lock: KeyLock)
      requires Valid() && lock.held && Inside(trace, k)
      modifies this, lock`held
      ensures Valid() && trace == old(trace) + [Released(k, lock)] && !lock.held
      ensures forall x :: Inside(trace, x) <==> x != k && Inside(old(trace), x)
    {
      FollowsMore(script, trace, Released(k, lock));
      trace := trace + [Released(k, lock)];
      step := step + 1;
      lock.held := false;
    }

    method Now() returns (now: Time)
      requires Valid()
      modifies this
      ensures Valid() && trace == old(trace) + [ClockRead(now)]
      ensures forall k :: Inside(trace, k) <==> Inside(old(trace), k)
    {
      now := script.clock(step);
      Record(ClockRead(now));
    }

    method Ask(request: Request) returns (answer: Fetch)
      requires Valid()
      modifies this
      ensures Valid() && trace == old(trace) + [Requested(request, answer)]
      ensures forall k :: Inside(trace, k) <==> Inside(old(trace), k)
    {
      answer := script.upstream(step, request);
      Record(Requested(request, answer));
    }
  }

  // ---- the calls of one Get ----

  function RequestFor(symbol: string, timeframe: string, r: Range): Request {
    Request(symbol, timeframe, r.from, r.to)
  }

  /** The first n ranges, each asked for and its answer's bars put. */
  ghost function FetchCalls(symbol: string, timeframe: string, plan: seq<Range>, outcomes: seq<RangeOutcome>, n: nat)
    : seq<Event>
    requires AllFetched(plan, outcomes, n)
  {
    if n == 0 then
      []
    else
      var o := outcomes[n - 1];
      FetchCalls(symbol, timeframe, plan, outcomes, n - 1)
      + [Requested(RequestFor(symbol, timeframe, plan[n - 1]), Answer(o.bars)),
         BarsPut(Key(symbol, timeframe), o.bars, o.stored)]
  }

  /** The calls of the fetch loop: the ranges fetched, and the one that failed, if any did. */
  ghost function LoopCalls(symbol: string, timeframe: string, plan: seq<Range>, outcomes: seq<RangeOutcome>)
    : seq<Event>
    requires AllFetched(plan, outcomes, |outcomes|)
  {
    FetchCalls(symbol, timeframe, plan, outcomes, |outcomes|)
    + if |outcomes| < |plan| then [Requested(RequestFor(symbol, timeframe, plan[|outcomes|]), Error)] else []
  }

  /** The coverage write, attempted when something was fetched and every bar write succeeded. */
  ghost function CreditCalls(k: string, st: KeyState, w: Window, outcomes: seq<RangeOutcome>, creditOk: bool)
    : seq<Event>
    requires |outcomes| <= |PlanSpec(st.intervals, w)|
  {
    var n := |outcomes|;
    if n > 0 && AllStored(outcomes, n) then [IntervalsPut(k, CreditedSet(st, w, n), creditOk)] else []
  }

  /** The final read, made when nothing is left to fetch. */
  ghost function ReadCalls(k: string, st: KeyState, w: Window, outcomes: seq<RangeOutcome>, readOk: bool): seq<Event> {
    if |outcomes| == |PlanSpec(st.intervals, w)| then [BarsRead(k, w.start, w.end, readOk)] else []
  }

  /** The environment holds the outcomes of exactly the ranges that were fetched. */
  ghost predicate Trimmed(st: KeyState, w: Window, env: Env) {
    env.intervalsOk ==> AllFetched(PlanSpec(st.intervals, w), env.outcomes, |env.outcomes|)
  }

  /** The calls of a Get once it has read the intervals. */
  ghost function RestCalls(symbol: string, timeframe: string, st: KeyState, w: Window, env: Env): seq<Event>
    requires env.intervalsOk && Trimmed(st, w, env)
  {
    var k := Key(symbol, timeframe);
    LoopCalls(symbol, timeframe, PlanSpec(st.intervals, w), env.outcomes)
    + CreditCalls(k, st, w, env.outcomes, env.creditOk)
    + ReadCalls(k, st, w, env.outcomes, env.readOk)
  }

  ghost function BodyCalls(symbol: string, timeframe: string, st: KeyState, w: Window, env: Env): seq<Event>
    requires Trimmed(st, w, env)
  {
    var k := Key(symbol, timeframe);
    [IntervalsRead(k, env.intervalsOk)]
    + if env.intervalsOk then RestCalls(symbol, timeframe, st, w, env) else []
  }

  /** Every call one Get makes to the world, in order: it reads the clock, takes the lock, does all
      its repository and upstream calls, and releases that lock. */
  ghost function GetCalls(symbol: string, timeframe: string, st: KeyState, w: Window, env: Env,
                          lock: KeyLock): seq<Event>
    requires Trimmed(st, w, env)
  {
    var k := Key(symbol, timeframe);
    [ClockRead(w.now), Acquired(k, lock)] + BodyCalls(symbol, timeframe, st, w, env) + [Released(k, lock)]
  }

  // ---- what those calls are ----

  predicate AboutLock(e: Event, k: string) {
    Takes(e, k) || Drops(e, k)
  }

  lemma {:induction false} InsideUnmoved(trace: seq<Event>, calls: seq<Event>, k: string)
    requires forall e :: e in calls ==> !AboutLock(e, k)
    ensures Inside(trace + calls, k) <==> Inside(trace, k)
  {
    if calls == [] {
      assert trace + calls == trace;
    } else {
      var n := |calls| - 1;
      InsideUnmoved(trace, calls[..n], k);
      assert calls[n] in calls;
      assert trace + calls == trace + calls[..n] + [calls[n]];
      InsideMore(trace + calls[..n], calls[n], k);
    }
  }

  lemma {:induction false} FetchCallsKinds(symbol: string, timeframe: string, plan: seq<Range>,
                                           outcomes: seq<RangeOutcome>, n: nat)
    requires AllFetched(plan, outcomes, n)
    ensures forall e :: e in FetchCalls(symbol, timeframe, plan, outcomes, n) ==> e.Requested? || e.BarsPut?
  {
    if n > 0 {
      FetchCallsKinds(symbol, timeframe, plan, outcomes, n - 1);
    }
  }

  lemma BodyCallsKinds(symbol: string, timeframe: string, st: KeyState, w: Window, env: Env)
    requires Trimmed(st, w, env)
    ensures forall e :: e in BodyCalls(symbol, timeframe, st, w, env) ==> e.Requested? || ToRepository(e)
  {
    if env.intervalsOk {
      FetchCallsKinds(symbol, timeframe, PlanSpec(st.intervals, w), env.outcomes, |env.outcomes|);
    }
  }

  /** A Get leaves every lock as it was, once its own was not held. */
  lemma LeavesLocks(trace: seq<Event>, symbol: string, timeframe: string, st: KeyState, w: Window, env: Env,
                    lock: KeyLock)
    requires Trimmed(st, w, env) && !Inside(trace, Key(symbol, timeframe))
    ensures forall x :: Inside(trace + GetCalls(symbol, timeframe, st, w, env, lock), x) <==> Inside(trace, x)
  {
    var k, calls := Key(symbol, timeframe), GetCalls(symbol, timeframe, st, w, env, lock);
    BodyCallsKinds(symbol, timeframe, st, w, env);
    forall x ensures Inside(trace + calls, x) <==> Inside(trace, x) {
      if x == k {
        var n := |calls| - 1;
        assert trace + calls == trace + calls[..n] + [Released(k, lock)];
        InsideMore(trace + calls[..n], Released(k, lock), k);
      } else {
        InsideUnmoved(trace, calls, x);
      }
    }
  }
}
