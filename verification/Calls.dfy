/** What the calls of a Get amount to: which requests upstream sees, that the world's script
    leaves the code no choice, and what a Get achieves when no call fails. */
module Calls {
  import opened Timeline
  import opened MemRepo
  import opened Planner
  import opened Normalizer
  import opened Bars
  import opened Journal
  import opened GetProperties
  import opened Outside

  // ---- the lock ----

  /** The key's lock was taken at j and not released since. */
  ghost predicate TakenAt(trace: seq<Event>, k: string, j: nat) {
    j < |trace| && Takes(trace[j], k) && forall i :: j < i < |trace| ==> !Drops(trace[i], k)
  }

  lemma {:induction false} InsideMeans(trace: seq<Event>, k: string)
    ensures Inside(trace, k) <==> exists j :: TakenAt(trace, k, j)
  {
    if trace != [] {
      var n := |trace| - 1;
      InsideMeans(trace[..n], k);
      if Takes(trace[n], k) {
        assert TakenAt(trace, k, n);
      }
      if j: nat :| TakenAt(trace[..n], k, j) {
        assert !Drops(trace[n], k) ==> TakenAt(trace, k, j);
      }
      if j: nat :| TakenAt(trace, k, j) {
        assert j < n ==> TakenAt(trace[..n], k, j);
      }
    }
  }

  /** Every repository call of any number of Gets is made while its key's lock is held. */
  lemma RepositoryCallsInside(world: World, i: nat) returns (j: nat)
    requires world.Valid() && i < |world.trace| && ToRepository(world.trace[i])
    ensures j < i && Takes(world.trace[j], world.trace[i].key)
    ensures forall h :: j < h < i ==> !Drops(world.trace[h], world.trace[i].key)
  {
    var trace, k := world.trace, world.trace[i].key;
    assert Allowed(trace[..i], trace[i]);
    InsideMeans(trace[..i], k);
    j :| TakenAt(trace[..i], k, j);
    forall h | j < h < i ensures !Drops(trace[h], k) {
      assert trace[..i][h] == trace[h];
    }
  }

  // ---- what upstream is asked ----

  function Requests(calls: seq<Event>): seq<Request> {
    if calls == [] then
      []
    else
      var n := |calls| - 1;
      Requests(calls[..n]) + if calls[n].Requested? then [calls[n].request] else []
  }

  lemma {:induction false} RequestsConcat(a: seq<Event>, b: seq<Event>)
    ensures Requests(a + b) == Requests(a) + Requests(b)
  {
    if b == [] {
      assert a + b == a;
    } else {
      RequestsConcat(a, b[..|b| - 1]);
      assert (a + b)[..|a + b| - 1] == a + b[..|b| - 1];
    }
  }

  lemma RequestsNone(calls: seq<Event>)
    requires forall e :: e in calls ==> !e.Requested?
    ensures Requests(calls) == []
  {
  }

  lemma RequestsBetween(a: seq<Event>, b: seq<Event>, c: seq<Event>)
    requires forall e :: e in a + c ==> !e.Requested?
    ensures Requests(a + b + c) == Requests(b)
  {
    RequestsNone(a);
    RequestsNone(c);
    RequestsConcat(a, b);
    RequestsConcat(a + b, c);
  }

  lemma RequestsFirst(a: seq<Event>, b: seq<Event>, c: seq<Event>)
    requires forall e :: e in b + c ==> !e.Requested?
    ensures Requests(a + b + c) == Requests(a)
  {
    RequestsNone(b);
    RequestsNone(c);
    RequestsConcat(a, b);
    RequestsConcat(a + b, c);
  }

  lemma RequestsOne(request: Request, answer: Fetch)
    ensures Requests([Requested(request, answer)]) == [request]
  {
    assert Requests([Requested(request, answer)][..0]) == [];
  }

  lemma RequestsAdd(calls: seq<Event>, request: Request, answer: Fetch, e: Event)
    requires !e.Requested?
    ensures Requests(calls + [Requested(request, answer), e]) == Requests(calls) + [request]
  {
    var ask := Requested(request, answer);
    RequestsOne(request, answer);
    RequestsNone([e]);
    RequestsConcat([ask], [e]);
    RequestsConcat(calls, [ask] + [e]);
    assert [ask] + [e] == [ask, e];
  }

  /** The requests for some ranges, in order. */
  ghost function RequestsFor(symbol: string, timeframe: string, ranges: seq<Range>): seq<Request> {
    seq(|ranges|, i requires 0 <= i < |ranges| => RequestFor(symbol, timeframe, ranges[i]))
  }

  lemma {:induction false} FetchRequests(symbol: string, timeframe: string, plan: seq<Range>,
                                         outcomes: seq<RangeOutcome>, n: nat)
    requires AllFetched(plan, outcomes, n)
    ensures Requests(FetchCalls(symbol, timeframe, plan, outcomes, n)) == RequestsFor(symbol, timeframe, plan[..n])
  {
    if n > 0 {
      var o, asked := outcomes[n - 1], RequestFor(symbol, timeframe, plan[n - 1]);
      FetchRequests(symbol, timeframe, plan, outcomes, n - 1);
      RequestsAdd(FetchCalls(symbol, timeframe, plan, outcomes, n - 1), asked, Answer(o.bars),
        BarsPut(Key(symbol, timeframe), o.bars, o.stored));
      assert RequestsFor(symbol, timeframe, plan[..n])
          == RequestsFor(symbol, timeframe, plan[..n - 1]) + [asked];
    }
  }

  lemma LoopRequests(symbol: string, timeframe: string, plan: seq<Range>, outcomes: seq<RangeOutcome>)
    requires AllFetched(plan, outcomes, |outcomes|)
    ensures Requests(LoopCalls(symbol, timeframe, plan, outcomes))
         == RequestsFor(symbol, timeframe, plan[..if |outcomes| < |plan| then |outcomes| + 1 else |plan|])
  {
    var n := |outcomes|;
    FetchRequests(symbol, timeframe, plan, outcomes, n);
    if n < |plan| {
      var failed := RequestFor(symbol, timeframe, plan[n]);
      RequestsOne(failed, Error);
      RequestsConcat(FetchCalls(symbol, timeframe, plan, outcomes, n), [Requested(failed, Error)]);
      assert RequestsFor(symbol, timeframe, plan[..n + 1]) == RequestsFor(symbol, timeframe, plan[..n]) + [failed];
    } else {
      assert plan[..n] == plan[..|plan|];
      assert LoopCalls(symbol, timeframe, plan, outcomes) == FetchCalls(symbol, timeframe, plan, outcomes, n);
    }
  }

  /** How many ranges of the plan a Get asks upstream for: all of them, or those before its first
      failure and the one that failed. */
  ghost function AskedCount(st: KeyState, w: Window, env: Env): nat {
    var plan, n := PlanSpec(st.intervals, w), |env.outcomes|;
    if !env.intervalsOk then 0 else if n < |plan| then n + 1 else |plan|
  }

  /** Upstream is asked for exactly the first ranges of the plan, each once, in order, with its own
      bounds, and for this symbol and timeframe. */
  lemma RequestsMade(symbol: string, timeframe: string, st: KeyState, w: Window, env: Env, lock: KeyLock)
    requires Trimmed(st, w, env)
    ensures AskedCount(st, w, env) <= |PlanSpec(st.intervals, w)|
    ensures Requests(GetCalls(symbol, timeframe, st, w, env, lock))
         == RequestsFor(symbol, timeframe, PlanSpec(st.intervals, w)[..AskedCount(st, w, env)])
  {
    var k := Key(symbol, timeframe);
    var body := BodyCalls(symbol, timeframe, st, w, env);
    BodyRequests(symbol, timeframe, st, w, env);
    RequestsBetween([ClockRead(w.now), Acquired(k, lock)], body, [Released(k, lock)]);
  }

  lemma BodyRequests(symbol: string, timeframe: string, st: KeyState, w: Window, env: Env)
    requires Trimmed(st, w, env)
    ensures AskedCount(st, w, env) <= |PlanSpec(st.intervals, w)|
    ensures Requests(BodyCalls(symbol, timeframe, st, w, env))
         == RequestsFor(symbol, timeframe, PlanSpec(st.intervals, w)[..AskedCount(st, w, env)])
  {
    var first := [IntervalsRead(Key(symbol, timeframe), env.intervalsOk)];
    RequestsNone(first);
    if env.intervalsOk {
      RestRequests(symbol, timeframe, st, w, env);
      RequestsConcat(first, RestCalls(symbol, timeframe, st, w, env));
    } else {
      assert first + [] == first;
    }
  }

  lemma RestRequests(symbol: string, timeframe: string, st: KeyState, w: Window, env: Env)
    requires env.intervalsOk && Trimmed(st, w, env)
    ensures AskedCount(st, w, env) <= |PlanSpec(st.intervals, w)|
    ensures Requests(RestCalls(symbol, timeframe, st, w, env))
         == RequestsFor(symbol, timeframe, PlanSpec(st.intervals, w)[..AskedCount(st, w, env)])
  {
    var k, plan := Key(symbol, timeframe), PlanSpec(st.intervals, w);
    var loop := LoopCalls(symbol, timeframe, plan, env.outcomes);
    var credit := CreditCalls(k, st, w, env.outcomes, env.creditOk);
    var read := ReadCalls(k, st, w, env.outcomes, env.readOk);
    LoopRequests(symbol, timeframe, plan, env.outcomes);
    RequestsFirst(loop, credit, read);
  }

  // ---- where each call is ----

  lemma {:induction false} FetchCallsAt(symbol: string, timeframe: string, plan: seq<Range>,
                                        outcomes: seq<RangeOutcome>, n: nat, i: nat)
    requires AllFetched(plan, outcomes, n)
    ensures |FetchCalls(symbol, timeframe, plan, outcomes, n)| == 2 * n
    ensures i < n ==>
      && FetchCalls(symbol, timeframe, plan, outcomes, n)[2 * i]
         == Requested(RequestFor(symbol, timeframe, plan[i]), Answer(outcomes[i].bars))
      && FetchCalls(symbol, timeframe, plan, outcomes, n)[2 * i + 1]
         == BarsPut(Key(symbol, timeframe), outcomes[i].bars, outcomes[i].stored)
  {
    if n > 0 {
      FetchCallsAt(symbol, timeframe, plan, outcomes, n - 1, i);
    }
  }

  // ---- the script decides ----

  /** The calls are what the script decides for its calls from `at` on. */
  ghost predicate Plays(script: Script, at: nat, calls: seq<Event>) {
    forall i :: 0 <= i < |calls| ==> Agrees(script, at + i, calls[i])
  }

  lemma PlaysParts(script: Script, at: nat, a: seq<Event>, b: seq<Event>)
    requires Plays(script, at, a + b)
    ensures Plays(script, at, a) && Plays(script, at + |a|, b)
  {
    forall i | 0 <= i < |a| ensures Agrees(script, at + i, a[i]) {
      assert (a + b)[i] == a[i];
    }
    forall i | 0 <= i < |b| ensures Agrees(script, at + |a| + i, b[i]) {
      assert (a + b)[|a| + i] == b[i];
    }
  }

  /** The outcomes of the first n ranges, up to the first failure, when the script's call `at` is
      the first request. */
  function ScriptOutcomes(script: Script, at: nat, symbol: string, timeframe: string, plan: seq<Range>, n: nat)
    : (outcomes: seq<RangeOutcome>)
    requires n <= |plan|
    ensures |outcomes| <= n && forall i :: 0 <= i < |outcomes| ==> outcomes[i].Fetched?
  {
    if n == 0 then
      []
    else
      var before := ScriptOutcomes(script, at, symbol, timeframe, plan, n - 1);
      var ask := at + 2 * (n - 1);
      var answer := script.upstream(ask, RequestFor(symbol, timeframe, plan[n - 1]));
      if |before| < n - 1 || answer.Error? then
        before
      else
        before + [Fetched(answer.bars, answer.bars == [] || script.works(ask + 1))]
  }

  /** What the script decides for a Get whose first call is its call `at`. */
  ghost function ScriptEnv(script: Script, at: nat, symbol: string, timeframe: string, st: KeyState, w: Window): Env {
    var plan := PlanSpec(st.intervals, w);
    var outcomes := ScriptOutcomes(script, at + 3, symbol, timeframe, plan, |plan|);
    var n := |outcomes|;
    var afterLoop := at + 3 + 2 * n + if n < |plan| then 1 else 0;
    var afterCredit := afterLoop + if n > 0 && AllStored(outcomes, n) then 1 else 0;
    if script.works(at + 2) then
      Env(true, outcomes, script.works(afterLoop), script.works(afterCredit))
    else
      Env(false, [], false, false)
  }

  /** What the calls of the fetch loop say about the script. */
  lemma LoopPlayed(script: Script, at: nat, symbol: string, timeframe: string, plan: seq<Range>,
                   outcomes: seq<RangeOutcome>, i: nat)
    requires AllFetched(plan, outcomes, |outcomes|) && i <= |outcomes| && i < |plan|
    requires Plays(script, at, LoopCalls(symbol, timeframe, plan, outcomes))
    ensures var answer := script.upstream(at + 2 * i, RequestFor(symbol, timeframe, plan[i]));
      if i == |outcomes| then
        answer == Error
      else
        && answer == Answer(outcomes[i].bars)
        && outcomes[i].stored == (outcomes[i].bars == [] || script.works(at + 2 * i + 1))
  {
    var calls := LoopCalls(symbol, timeframe, plan, outcomes);
    FetchCallsAt(symbol, timeframe, plan, outcomes, |outcomes|, i);
    assert Agrees(script, at + 2 * i, calls[2 * i]);
    if i < |outcomes| {
      assert Agrees(script, at + (2 * i + 1), calls[2 * i + 1]);
    }
  }

  lemma {:induction false} LoopOutcomes(script: Script, at: nat, symbol: string, timeframe: string, plan: seq<Range>,
                                        outcomes: seq<RangeOutcome>, n: nat)
    requires AllFetched(plan, outcomes, |outcomes|) && n <= |plan|
    requires Plays(script, at, LoopCalls(symbol, timeframe, plan, outcomes))
    ensures ScriptOutcomes(script, at, symbol, timeframe, plan, n)
         == if n <= |outcomes| then outcomes[..n] else outcomes
  {
    if n > 0 {
      LoopOutcomes(script, at, symbol, timeframe, plan, outcomes, n - 1);
      if n <= |outcomes| + 1 {
        LoopPlayed(script, at, symbol, timeframe, plan, outcomes, n - 1);
      }
      if n <= |outcomes| {
        assert outcomes[..n] == outcomes[..n - 1] + [outcomes[n - 1]];
      } else {
        assert outcomes[..|outcomes|] == outcomes;
      }
    }
  }

  /** The two environments answer alike every call that a Get in the first makes. */
  ghost predicate SameAnswers(st: KeyState, w: Window, env: Env, other: Env) {
    var n := |env.outcomes|;
    && env.intervalsOk == other.intervalsOk
    && (env.intervalsOk ==>
          && env.outcomes == other.outcomes
          && (n > 0 && AllStored(env.outcomes, n) ==> env.creditOk == other.creditOk)
          && (n == |PlanSpec(st.intervals, w)| ==> env.readOk == other.readOk))
  }

  lemma SameAnswersSameGet(symbol: string, timeframe: string, st: KeyState, w: Window, env: Env, other: Env,
                           lock: KeyLock)
    requires Trimmed(st, w, env) && SameAnswers(st, w, env, other)
    ensures Trimmed(st, w, other)
    ensures GetCalls(symbol, timeframe, st, w, env, lock) == GetCalls(symbol, timeframe, st, w, other, lock)
    ensures GetWrites(st, w, env) == GetWrites(st, w, other)
    ensures GetResult(st, w, env) == GetResult(st, w, other)
  {
    if env.intervalsOk {
      CountOf(env.outcomes, |PlanSpec(st.intervals, w)|);
      SameAnswersSameWrites(st, w, env, other);
    }
  }

  lemma SameAnswersSameWrites(st: KeyState, w: Window, env: Env, other: Env)
    requires env.intervalsOk && Trimmed(st, w, env) && SameAnswers(st, w, env, other)
    ensures CoverageCredited(st, w, env) <==> CoverageCredited(st, w, other)
    ensures GetWrites(st, w, env) == GetWrites(st, w, other)
  {
    CountOf(env.outcomes, |PlanSpec(st.intervals, w)|);
  }

  lemma LastPlayed(script: Script, at: nat, calls: seq<Event>, more: seq<Event>, e: Event)
    requires Plays(script, at, calls + more) && more != [] && more[0] == e
    ensures Agrees(script, at + |calls|, e)
  {
    assert (calls + more)[|calls|] == e;
  }

  lemma OutcomesPlayed(script: Script, at: nat, symbol: string, timeframe: string, st: KeyState, w: Window, env: Env)
    requires env.intervalsOk && Trimmed(st, w, env)
    requires Plays(script, at, RestCalls(symbol, timeframe, st, w, env))
    ensures var plan := PlanSpec(st.intervals, w);
      env.outcomes == ScriptOutcomes(script, at, symbol, timeframe, plan, |plan|)
  {
    var k, plan := Key(symbol, timeframe), PlanSpec(st.intervals, w);
    var loop := LoopCalls(symbol, timeframe, plan, env.outcomes);
    var credit := CreditCalls(k, st, w, env.outcomes, env.creditOk);
    PlaysParts(script, at, loop + credit, ReadCalls(k, st, w, env.outcomes, env.readOk));
    PlaysParts(script, at, loop, credit);
    LoopOutcomes(script, at, symbol, timeframe, plan, env.outcomes, |plan|);
    assert env.outcomes[..|env.outcomes|] == env.outcomes;
  }

  lemma CreditPlayed(script: Script, at: nat, symbol: string, timeframe: string, st: KeyState, w: Window, env: Env)
    requires env.intervalsOk && Trimmed(st, w, env)
    requires Plays(script, at, RestCalls(symbol, timeframe, st, w, env))
    requires |env.outcomes| > 0 && AllStored(env.outcomes, |env.outcomes|)
    ensures var n := |env.outcomes|;
      env.creditOk == script.works(at + 2 * n + if n < |PlanSpec(st.intervals, w)| then 1 else 0)
  {
    LoopLength(symbol, timeframe, PlanSpec(st.intervals, w), env.outcomes);
    var k := Key(symbol, timeframe);
    var loop := LoopCalls(symbol, timeframe, PlanSpec(st.intervals, w), env.outcomes);
    var credit := CreditCalls(k, st, w, env.outcomes, env.creditOk);
    PlaysParts(script, at, loop + credit, ReadCalls(k, st, w, env.outcomes, env.readOk));
    LastPlayed(script, at, loop, credit, IntervalsPut(k, CreditedSet(st, w, |env.outcomes|), env.creditOk));
  }

  lemma ReadPlayed(script: Script, at: nat, symbol: string, timeframe: string, st: KeyState, w: Window, env: Env)
    requires env.intervalsOk && Trimmed(st, w, env) && |env.outcomes| == |PlanSpec(st.intervals, w)|
    requires Plays(script, at, RestCalls(symbol, timeframe, st, w, env))
    ensures var n := |env.outcomes|;
      env.readOk == script.works(at + 2 * n + if n > 0 && AllStored(env.outcomes, n) then 1 else 0)
  {
    LoopLength(symbol, timeframe, PlanSpec(st.intervals, w), env.outcomes);
    var k := Key(symbol, timeframe);
    var loop := LoopCalls(symbol, timeframe, PlanSpec(st.intervals, w), env.outcomes);
    var credit := CreditCalls(k, st, w, env.outcomes, env.creditOk);
    var read := ReadCalls(k, st, w, env.outcomes, env.readOk);
    LastPlayed(script, at, loop + credit, read, BarsRead(k, w.start, w.end, env.readOk));
  }

  lemma RestPlayed(script: Script, at: nat, symbol: string, timeframe: string, st: KeyState, w: Window, env: Env)
    requires env.intervalsOk && Trimmed(st, w, env) && script.works(at + 2)
    requires Plays(script, at + 3, RestCalls(symbol, timeframe, st, w, env))
    ensures SameAnswers(st, w, env, ScriptEnv(script, at, symbol, timeframe, st, w))
  {
    var plan, n := PlanSpec(st.intervals, w), |env.outcomes|;
    OutcomesPlayed(script, at + 3, symbol, timeframe, st, w, env);
    if n > 0 && AllStored(env.outcomes, n) {
      CreditPlayed(script, at + 3, symbol, timeframe, st, w, env);
    }
    if n == |plan| {
      ReadPlayed(script, at + 3, symbol, timeframe, st, w, env);
    }
    AnswersOf(script, at, symbol, timeframe, st, w, env);
  }

  lemma AnswersOf(script: Script, at: nat, symbol: string, timeframe: string, st: KeyState, w: Window, env: Env)
    requires env.intervalsOk && script.works(at + 2)
    requires var plan, n := PlanSpec(st.intervals, w), |env.outcomes|;
      && env.outcomes == ScriptOutcomes(script, at + 3, symbol, timeframe, plan, |plan|)
      && (n > 0 && AllStored(env.outcomes, n) ==>
            env.creditOk == script.works(at + 3 + 2 * n + if n < |plan| then 1 else 0))
      && (n == |plan| ==>
            env.readOk == script.works(at + 3 + 2 * n + if n > 0 && AllStored(env.outcomes, n) then 1 else 0))
    ensures SameAnswers(st, w, env, ScriptEnv(script, at, symbol, timeframe, st, w))
  {
  }

  lemma LoopLength(symbol: string, timeframe: string, plan: seq<Range>, outcomes: seq<RangeOutcome>)
    requires AllFetched(plan, outcomes, |outcomes|)
    ensures |LoopCalls(symbol, timeframe, plan, outcomes)|
         == 2 * |outcomes| + if |outcomes| < |plan| then 1 else 0
  {
    FetchCallsAt(symbol, timeframe, plan, outcomes, |outcomes|, 0);
  }

  /** The world's script leaves the code no choice: the clock, the calls, the writes and the
      result of a Get are those of the environment that the script alone determines. */
  lemma Determined(script: Script, trace: seq<Event>, symbol: string, timeframe: string, st: KeyState, w: Window,
                   env: Env, lock: KeyLock)
    requires Trimmed(st, w, env) && Follows(script, trace + GetCalls(symbol, timeframe, st, w, env, lock))
    ensures var decided := ScriptEnv(script, |trace|, symbol, timeframe, st, w);
      && w.now == script.clock(|trace|)
      && Trimmed(st, w, decided)
      && GetCalls(symbol, timeframe, st, w, env, lock) == GetCalls(symbol, timeframe, st, w, decided, lock)
      && GetWrites(st, w, env) == GetWrites(st, w, decided)
      && GetResult(st, w, env) == GetResult(st, w, decided)
  {
    GetPlays(script, trace, GetCalls(symbol, timeframe, st, w, env, lock));
    Played(script, |trace|, symbol, timeframe, st, w, env, lock);
    SameAnswersSameGet(symbol, timeframe, st, w, env, ScriptEnv(script, |trace|, symbol, timeframe, st, w), lock);
  }

  lemma GetPlays(script: Script, trace: seq<Event>, calls: seq<Event>)
    requires Follows(script, trace + calls)
    ensures Plays(script, |trace|, calls)
  {
    forall i | 0 <= i < |calls| ensures Agrees(script, |trace| + i, calls[i]) {
      assert (trace + calls)[|trace| + i] == calls[i];
    }
  }

  lemma Played(script: Script, at: nat, symbol: string, timeframe: string, st: KeyState, w: Window, env: Env,
               lock: KeyLock)
    requires Trimmed(st, w, env) && Plays(script, at, GetCalls(symbol, timeframe, st, w, env, lock))
    ensures w.now == script.clock(at)
    ensures SameAnswers(st, w, env, ScriptEnv(script, at, symbol, timeframe, st, w))
  {
    var k, body := Key(symbol, timeframe), BodyCalls(symbol, timeframe, st, w, env);
    var start, read := [ClockRead(w.now), Acquired(k, lock)], [IntervalsRead(k, env.intervalsOk)];
    PlaysParts(script, at, start + body, [Released(k, lock)]);
    PlaysParts(script, at, start, body);
    assert Agrees(script, at + 0, start[0]);
    var rest := if env.intervalsOk then RestCalls(symbol, timeframe, st, w, env) else [];
    PlaysParts(script, at + 2, read, rest);
    assert Agrees(script, at + 2 + 0, read[0]);
    if env.intervalsOk {
      RestPlayed(script, at, symbol, timeframe, st, w, env);
    }
  }

  // ---- when nothing fails ----

  /** No call to upstream or the repository fails. */
  ghost predicate AlwaysWorks(script: Script) {
    && (forall n :: script.works(n))
    && (forall n, request :: script.upstream(n, request).Answer?)
  }

  lemma {:induction false} WorkingOutcomes(script: Script, at: nat, symbol: string, timeframe: string,
                                           plan: seq<Range>, n: nat)
    requires AlwaysWorks(script) && n <= |plan|
    ensures var outcomes := ScriptOutcomes(script, at, symbol, timeframe, plan, n);
      |outcomes| == n && AllStored(outcomes, n)
  {
    if n > 0 {
      WorkingOutcomes(script, at, symbol, timeframe, plan, n - 1);
    }
  }

  /** A Get in which no call fails asks for its whole plan, credits it if there was one and returns
      the stored bars; the same request at the same instant is then a hit. */
  lemma WorkingGet(script: Script, trace: seq<Event>, symbol: string, timeframe: string, st: KeyState, w: Window,
                   env: Env, lock: KeyLock)
    requires AlwaysWorks(script)
    requires Trimmed(st, w, env) && Follows(script, trace + GetCalls(symbol, timeframe, st, w, env, lock))
    ensures var plan, writes := PlanSpec(st.intervals, w), GetWrites(st, w, env);
      var after := ApplyAll(st, writes);
      && Requests(GetCalls(symbol, timeframe, st, w, env, lock)) == RequestsFor(symbol, timeframe, plan)
      && (plan != [] ==> |plan| <= |writes| && writes[|plan|..] == [Credited(CreditedSet(st, w, |plan|))])
      && GetResult(st, w, env) == Ok(Listing(Slice(after.bars, w.start, w.end)))
      && (Stamped(st.intervals) && w.now >= ZERO_TIME && w.ttl >= 0 ==> PlanSpec(after.intervals, w) == [])
  {
    var plan := PlanSpec(st.intervals, w);
    var decided := ScriptEnv(script, |trace|, symbol, timeframe, st, w);
    Determined(script, trace, symbol, timeframe, st, w, env, lock);
    WorkingOutcomes(script, |trace| + 3, symbol, timeframe, plan, |plan|);
    RequestsMade(symbol, timeframe, st, w, decided, lock);
    assert plan[..|plan|] == plan;
    WorkingResult(st, w, decided);
    WorkingCredit(st, w, decided);
  }

  lemma WorkingResult(st: KeyState, w: Window, env: Env)
    requires env.intervalsOk && env.readOk && env.creditOk
    requires |env.outcomes| == |PlanSpec(st.intervals, w)| && AllStored(env.outcomes, |env.outcomes|)
    ensures GetResult(st, w, env) == Ok(Listing(Slice(ApplyAll(st, GetWrites(st, w, env)).bars, w.start, w.end)))
  {
    CountOf(env.outcomes, |PlanSpec(st.intervals, w)|);
  }

  lemma WorkingCredit(st: KeyState, w: Window, env: Env)
    requires env.intervalsOk && env.readOk && env.creditOk
    requires |env.outcomes| == |PlanSpec(st.intervals, w)| && AllStored(env.outcomes, |env.outcomes|)
    ensures var plan, writes := PlanSpec(st.intervals, w), GetWrites(st, w, env);
      && (plan != [] ==> |plan| <= |writes| && writes[|plan|..] == [Credited(CreditedSet(st, w, |plan|))])
      && (Stamped(st.intervals) && w.now >= ZERO_TIME && w.ttl >= 0 ==>
            PlanSpec(ApplyAll(st, writes).intervals, w) == [])
  {
    var plan := PlanSpec(st.intervals, w);
    CountOf(env.outcomes, |plan|);
    if Stamped(st.intervals) && w.now >= ZERO_TIME && w.ttl >= 0 {
      RetryPlansTheRest(st, w, env);
      assert plan[|plan|..] == [];
    }
  }
}
