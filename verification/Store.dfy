/** The repository behind the store, which may fail, and the read-through Get. */
module Store {
  import opened Wrappers
  import opened Timeline
  import opened Bars
  import opened MemRepo
  import opened Planner
  import opened PlanProperties
  import opened Normalizer
  import opened NormalizerProperties
  import opened Journal
  import opened Outside

  /** Exactly `writes` were added under `k`, and nothing under any other key. */
  ghost predicate Grown(before: map<string, seq<Write>>, after: map<string, seq<Write>>, k: string,
                        writes: seq<Write>)
  {
    && Lookup(after, k) == Lookup(before, k) + writes
    && forall other :: other != k ==> Lookup(after, other) == Lookup(before, other)
  }

  /** The writes and the result are those of the Get of this window from this state. */
  ghost predicate Done(symbol: string, timeframe: string, st: KeyState, w: Window, env: Env,
                       before: map<string, seq<Write>>, after: map<string, seq<Write>>, res: Result)
  {
    && Grown(before, after, Key(symbol, timeframe), GetWrites(st, w, env))
    && res == GetResult(st, w, env)
  }

  lemma GrownOn(before: map<string, seq<Write>>, middle: map<string, seq<Write>>, after: map<string, seq<Write>>,
                k: string, a: seq<Write>, b: seq<Write>)
    requires Grown(before, middle, k, a) && Grown(middle, after, k, b)
    ensures Grown(before, after, k, a + b)
  {
    assert Lookup(before, k) + a + b == Lookup(before, k) + (a + b);
  }

  lemma AddedUnder(before: map<string, seq<Write>>, k: string, write: Write)
    ensures Grown(before, before[k := Lookup(before, k) + [write]], k, [write])
  {
  }

  /** Any backend: the contents of the in-memory repository, behind operations that may fail
      without effect and rows of intervals that come back in any order. */
  class Repository {
    const mem: MemRepo
    const world: World
    /** Every write attempted under each key, in order. */
    ghost var journals: map<string, seq<Write>>

    ghost function JournalOf(k: string): seq<Write>
      reads this
    {
      Lookup(journals, k)
    }

    ghost function State(k: string): KeyState
      reads this, mem
    {
      KeyState(mem.BarsAt(k), mem.IntervalsAt(k))
    }

    /** Under every key the repository holds what its journal leaves. */
    ghost predicate Valid()
      reads this, mem, world
    {
      world.Valid() && mem.Valid() && forall k :: State(k) == After(JournalOf(k))
    }

    constructor (world: World)
      requires world.Valid()
      ensures Valid() && fresh(mem) && this.world == world
      ensures forall k :: JournalOf(k) == []
    {
      this.world := world;
      mem := new MemRepo();
      journals := map[];
    }

    /** The key's lock is held, as every call for the key requires. */
    ghost predicate Locked(k: string)
      reads world
    {
      Inside(world.trace, k)
    }

    method Intervals(symbol: string, timeframe: string) returns (ok: bool, rows: seq<Interval>)
      requires Valid() && Locked(Key(symbol, timeframe))
      modifies world
      ensures Valid() && Locked(Key(symbol, timeframe))
      ensures world.trace == old(world.trace) + [IntervalsRead(Key(symbol, timeframe), ok)]
      ensures ok ==> multiset(rows) == multiset(State(Key(symbol, timeframe)).intervals)
    {
      ok := world.script.works(world.step);
      world.Record(IntervalsRead(Key(symbol, timeframe), ok));
      rows := mem.Intervals(symbol, timeframe);
      var swaps: nat := *;
      while swaps > 0
        invariant multiset(rows) == multiset(State(Key(symbol, timeframe)).intervals)
      {
        var i, j: int := *, *;
        if 0 <= i < |rows| && 0 <= j < |rows| {
          rows := rows[i := rows[j]][j := rows[i]];
        }
        swaps := swaps - 1;
      }
    }

    method Bars(symbol: string, timeframe: string, start: Time, end: Time) returns (ok: bool, out: seq<Bar>)
      requires Valid() && Locked(Key(symbol, timeframe))
      modifies world
      ensures Valid() && Locked(Key(symbol, timeframe))
      ensures world.trace == old(world.trace) + [BarsRead(Key(symbol, timeframe), start, end, ok)]
      ensures out == Listing(if ok then Slice(State(Key(symbol, timeframe)).bars, start, end) else map[])
    {
      ok := world.script.works(world.step);
      world.Record(BarsRead(Key(symbol, timeframe), start, end, ok));
      if ok {
        out := mem.Bars(symbol, timeframe, start, end);
      } else {
        out := [];
        AscendingIsListing([], map[]);
      }
    }

    /** Enters the write just made in the key's journal. */
    ghost method Enter(k: string, write: Write)
      requires world.Valid() && mem.Valid()
      requires forall x :: State(x) == if x == k then Apply(After(JournalOf(k)), write) else After(JournalOf(x))
      modifies this`journals
      ensures Valid() && Grown(old(journals), journals, k, [write])
    {
      ghost var before := journals;
      Extend(Lookup(before, k), write);
      AddedUnder(before, k, write);
      journals := before[k := Lookup(before, k) + [write]];
      forall x ensures State(x) == After(JournalOf(x)) {
        assert State(x) == old(State(x));
        assert JournalOf(x) == if x == k then Lookup(before, k) + [write] else Lookup(before, x);
      }
    }

    method PutBars(symbol: string, timeframe: string, bs: seq<Bar>, ghost event: FetchEvent) returns (ok: bool)
      requires Valid() && Locked(Key(symbol, timeframe)) && event.bars == bs
      modifies this, mem, world
      ensures Valid() && Locked(Key(symbol, timeframe))
      ensures world.trace == old(world.trace) + [BarsPut(Key(symbol, timeframe), bs, ok)]
      ensures Grown(old(journals), journals, Key(symbol, timeframe),
        [if ok then StoredBars(event) else LostBars(event)])
    {
      ok := |bs| == 0 || world.script.works(world.step);
      world.Record(BarsPut(Key(symbol, timeframe), bs, ok));
      if ok {
        mem.PutBars(symbol, timeframe, bs);
      }
      Enter(Key(symbol, timeframe), if ok then StoredBars(event) else LostBars(event));
    }

    method PutIntervals(symbol: string, timeframe: string, ivs: seq<Interval>) returns (ok: bool)
      requires Valid() && Locked(Key(symbol, timeframe))
      modifies this, mem, world
      ensures Valid() && Locked(Key(symbol, timeframe))
      ensures world.trace == old(world.trace) + [IntervalsPut(Key(symbol, timeframe), ivs, ok)]
      ensures Grown(old(journals), journals, Key(symbol, timeframe), if ok then [Credited(ivs)] else [])
    {
      ok := world.script.works(world.step);
      world.Record(IntervalsPut(Key(symbol, timeframe), ivs, ok));
      if ok {
        mem.PutIntervals(symbol, timeframe, ivs);
        Enter(Key(symbol, timeframe), Credited(ivs));
      }
    }
  }

  lemma Extend(journal: seq<Write>, write: Write)
    ensures After(journal + [write]) == Apply(After(journal), write)
  {
    assert (journal + [write])[..|journal|] == journal;
  }

  lemma AddedAndRemoved(locks: map<string, KeyLock>, k: string, kl: KeyLock)
    ensures k !in locks ==> locks[k := kl] - {k} == locks
  {
  }

  class Store {
    const repo: Repository
    const ttl: string -> Time
    const liveHorizon: string -> Time
    var locks: map<string, KeyLock>

    constructor (repo: Repository, ttl: string -> Time, liveHorizon: string -> Time)
      ensures this.repo == repo && this.ttl == ttl && this.liveHorizon == liveHorizon && locks == map[]
    {
      this.repo := repo;
      this.ttl := ttl;
      this.liveHorizon := liveHorizon;
      locks := map[];
    }

    ghost function LockOf(k: string): set<KeyLock>
      reads this
    {
      if k in locks then {locks[k]} else {}
    }

    /** Nobody is inside under the key, so its mutex can be taken without waiting; others may
        refer to its lock. */
    ghost predicate Free(k: string)
      reads this, LockOf(k), repo.world
    {
      && !Inside(repo.world.trace, k)
      && (k in locks ==> !locks[k].held && locks[k].refs > 0)
    }

    /** Takes the key's lock, making it if nobody refers to it. */
    method LockKey(k: string) returns (kl: KeyLock)
      requires repo.world.Valid() && Free(k)
      modifies this`locks, LockOf(k), repo.world
      ensures repo.world.Valid() && repo.world.trace == old(repo.world.trace) + [Acquired(k, kl)] && repo.Locked(k)
      ensures k in locks && locks[k] == kl && kl.held
      ensures k in old(locks) ==> locks == old(locks) && kl.refs == old(locks[k].refs) + 1
      ensures k !in old(locks) ==> fresh(kl) && locks == old(locks)[k := kl] && kl.refs == 1
    {
      if k in locks {
        kl := locks[k];
      } else {
        kl := new KeyLock();
        locks := locks[k := kl];
      }
      kl.refs := kl.refs + 1;
      repo.world.Lock(k, kl);
    }

    /** Releases it, and drops its entry with the last reference. */
    method Unlock(k: string, kl: KeyLock)
      requires repo.world.Valid() && repo.Locked(k)
      requires k in locks && locks[k] == kl && kl.held && kl.refs > 0
      modifies this`locks, kl, repo.world
      ensures repo.world.Valid() && repo.world.trace == old(repo.world.trace) + [Released(k, kl)] && !repo.Locked(k)
      ensures !kl.held && kl.refs == old(kl.refs) - 1
      ensures locks == if kl.refs == 0 then old(locks) - {k} else old(locks)
    {
      repo.world.Unlock(k, kl);
      kl.refs := kl.refs - 1;
      if kl.refs == 0 {
        locks := locks - {k};
      }
    }

    /** A request at `now`: stamps are fresh for the timeframe's ttl, and instants live for its
        horizon. */
    ghost function WindowOf(timeframe: string, start: Time, end: Time, now: Time): (w: Window)
      ensures w.FreshAfter() == now - ttl(timeframe) && w.LiveStart() == now - liveHorizon(timeframe)
    {
      Window(start, end, now, ttl(timeframe), liveHorizon(timeframe))
    }

    /** Asks upstream for one range and, if it answers, writes the bars. */
    method FetchOne(symbol: string, timeframe: string, r: Range, now: Time) returns (answer: Fetch, ok: bool)
      requires repo.Valid() && repo.Locked(Key(symbol, timeframe))
      modifies repo, repo.mem, repo.world
      ensures repo.Valid() && repo.Locked(Key(symbol, timeframe))
      ensures repo.world.trace == old(repo.world.trace)
        + OneCall(symbol, timeframe, r, answer, ok)
      ensures answer.Error? ==> repo.journals == old(repo.journals)
      ensures answer.Answer? ==>
        Grown(old(repo.journals), repo.journals, Key(symbol, timeframe), [WriteOf(r, now, Fetched(answer.bars, ok))])
    {
      ok := false;
      answer := repo.world.Ask(Request(symbol, timeframe, r.from, r.to));
      if answer.Answer? {
        ok := repo.PutBars(symbol, timeframe, answer.bars, FetchEvent(r, now, answer.bars));
      }
    }

    /** The calls and the writes since `trace` and `journals` are those of the fetched ranges. */
    ghost predicate HasFetched(trace: seq<Event>, journals: map<string, seq<Write>>, symbol: string, timeframe: string,
                               plan: seq<Range>, now: Time, outcomes: seq<RangeOutcome>)
      reads repo, repo.world
    {
      && AllFetched(plan, outcomes, |outcomes|)
      && repo.world.trace == trace + FetchCalls(symbol, timeframe, plan, outcomes, |outcomes|)
      && Grown(journals, repo.journals, Key(symbol, timeframe), FetchWrites(plan, now, outcomes, |outcomes|))
    }

    /** Asks for the next range. */
    method FetchNext(symbol: string, timeframe: string, toFetch: seq<Range>, i: nat, now: Time, ghost trace: seq<Event>,
                     ghost journals: map<string, seq<Write>>, ghost outcomes: seq<RangeOutcome>)
      returns (answer: Fetch, ok: bool)
      requires repo.Valid() && repo.Locked(Key(symbol, timeframe)) && i < |toFetch| && i == |outcomes|
      requires HasFetched(trace, journals, symbol, timeframe, toFetch, now, outcomes)
      modifies repo, repo.mem, repo.world
      ensures repo.Valid() && repo.Locked(Key(symbol, timeframe))
      ensures answer.Answer? ==>
        HasFetched(trace, journals, symbol, timeframe, toFetch, now, outcomes + [Fetched(answer.bars, ok)])
      ensures answer.Error? ==> repo.journals == old(repo.journals)
      ensures answer.Error? ==> repo.world.trace == trace + LoopCalls(symbol, timeframe, toFetch, outcomes)
    {
      ghost var middle := repo.journals;
      answer, ok := FetchOne(symbol, timeframe, toFetch[i], now);
      if answer.Error? {
        FailedCall(trace, symbol, timeframe, toFetch, outcomes);
      } else {
        FetchStep(journals, middle, repo.journals, trace, symbol, timeframe, toFetch, now, outcomes,
          Fetched(answer.bars, ok));
      }
    }

    /** The fetch loop: asks upstream for range after range until the first failure, and writes
        each answer's bars. */
    method FetchRanges(symbol: string, timeframe: string, toFetch: seq<Range>, now: Time)
      returns (fetchedIntervals: seq<Interval>, freshBars: seq<Bar>, persistFailed: bool, fetchFailed: bool,
               ghost outcomes: seq<RangeOutcome>)
      requires repo.Valid() && repo.Locked(Key(symbol, timeframe))
      modifies repo, repo.mem, repo.world
      ensures repo.Valid() && repo.Locked(Key(symbol, timeframe))
      ensures fetchFailed <==> |outcomes| < |toFetch|
      ensures Progress(toFetch, now, outcomes, fetchedIntervals, freshBars, persistFailed)
      ensures repo.world.trace == old(repo.world.trace) + LoopCalls(symbol, timeframe, toFetch, outcomes)
      ensures Grown(old(repo.journals), repo.journals, Key(symbol, timeframe),
        FetchWrites(toFetch, now, outcomes, |outcomes|))
    {
      ghost var trace, journals := repo.world.trace, repo.journals;
      fetchedIntervals, freshBars, persistFailed, fetchFailed, outcomes := [], [], false, false, [];
      var i := 0;
      while i < |toFetch|
        invariant 0 <= i == |outcomes| <= |toFetch| && !fetchFailed
        invariant repo.Valid() && repo.Locked(Key(symbol, timeframe))
        invariant Progress(toFetch, now, outcomes, fetchedIntervals, freshBars, persistFailed)
        invariant HasFetched(trace, journals, symbol, timeframe, toFetch, now, outcomes)
      {
        var r := toFetch[i];
        var answer, ok := FetchNext(symbol, timeframe, toFetch, i, now, trace, journals, outcomes);
        if answer.Error? {
          fetchFailed := true;
          break;
        }
        ProgressStep(toFetch, now, outcomes, fetchedIntervals, freshBars, persistFailed,
          Fetched(answer.bars, ok));
        if !ok {
          persistFailed := true;
        }
        fetchedIntervals := fetchedIntervals + [Interval(r.from, r.to, now)];
        freshBars := freshBars + answer.bars;
        outcomes := outcomes + [Fetched(answer.bars, ok)];
        i := i + 1;
      }
      if !fetchFailed {
        EveryCall(trace, symbol, timeframe, toFetch, outcomes);
      }
    }

    /** Whatever the world decides: makes exactly the calls that GetCalls says, in order and under
        the key's lock, performs the writes and returns the result that GetWrites and GetResult say
        for the outcomes of those calls, under this key only, and leaves the locks as found. */
    method Get(symbol: string, timeframe: string, start: Time, end: Time)
      returns (res: Result, ghost now: Time, ghost env: Env, ghost kl: KeyLock)
      requires repo.Valid() && Free(Key(symbol, timeframe))
      modifies repo, repo.mem, repo.world, this`locks, LockOf(Key(symbol, timeframe))
      ensures repo.Valid() && Free(Key(symbol, timeframe))
      ensures TheLock(kl, Key(symbol, timeframe))
      ensures forall x :: Inside(repo.world.trace, x) <==> Inside(old(repo.world.trace), x)
      ensures var w, st := WindowOf(timeframe, start, end, now), old(repo.State(Key(symbol, timeframe)));
        && Trimmed(st, w, env)
        && repo.world.trace == old(repo.world.trace) + GetCalls(symbol, timeframe, st, w, env, kl)
        && Done(symbol, timeframe, st, w, env, old(repo.journals), repo.journals, res)
    {
      ghost var k := Key(symbol, timeframe);
      ghost var st, trace := repo.State(k), repo.world.trace;
      var clock := repo.world.Now();
      now := clock;
      ghost var w := WindowOf(timeframe, start, end, now);
      assert repo.State(k) == st;
      res, env, kl := GetAt(symbol, timeframe, start, end, clock);
      Bracketed(trace, symbol, timeframe, st, w, env, kl);
      LeavesLocks(trace, symbol, timeframe, st, w, env, kl);
    }

    /** The locks are as they were, and this is the key's: the one others refer to, or a new one. */
    twostate predicate TheLock(new kl: KeyLock, k: string)
      reads this, LockOf(k)
    {
      && locks == old(locks)
      && if k in locks then kl == locks[k] && kl.refs == old(locks[k].refs) else fresh(kl)
    }

    /** The rest of a Get that has read its clock. */
    method GetAt(symbol: string, timeframe: string, start: Time, end: Time, now: Time)
      returns (res: Result, ghost env: Env, ghost kl: KeyLock)
      requires repo.Valid() && Free(Key(symbol, timeframe))
      modifies repo, repo.mem, repo.world, this`locks, LockOf(Key(symbol, timeframe))
      ensures repo.Valid() && Free(Key(symbol, timeframe))
      ensures TheLock(kl, Key(symbol, timeframe))
      ensures var k, w := Key(symbol, timeframe), WindowOf(timeframe, start, end, now);
        var st := old(repo.State(k));
        && Trimmed(st, w, env)
        && repo.world.trace
           == old(repo.world.trace) + [Acquired(k, kl)] + BodyCalls(symbol, timeframe, st, w, env) + [Released(k, kl)]
        && Done(symbol, timeframe, st, w, env, old(repo.journals), repo.journals, res)
    {
      var k := Key(symbol, timeframe);
      ghost var st := repo.State(k);
      var lock := LockKey(k);
      kl := lock;
      assert repo.State(k) == st;
      res, env := GetLocked(symbol, timeframe, start, end, now);
      Unlock(k, lock);
      AddedAndRemoved(old(locks), k, lock);
    }

    /** This Get holds the mutex that the map names for the key. */
    ghost predicate Holding(k: string)
      reads this, LockOf(k), repo.world
    {
      repo.Locked(k) && k in locks && locks[k].held
    }

    /** The body of Get, inside the key's lock. */
    method GetLocked(symbol: string, timeframe: string, start: Time, end: Time, now: Time)
      returns (res: Result, ghost env: Env)
      requires repo.Valid() && Holding(Key(symbol, timeframe))
      modifies repo, repo.mem, repo.world
      ensures repo.Valid() && repo.Locked(Key(symbol, timeframe))
      ensures var k, w := Key(symbol, timeframe), WindowOf(timeframe, start, end, now);
        var st := old(repo.State(k));
        && Trimmed(st, w, env)
        && repo.world.trace == old(repo.world.trace) + BodyCalls(symbol, timeframe, st, w, env)
        && Done(symbol, timeframe, st, w, env, old(repo.journals), repo.journals, res)
    {
      ghost var k := Key(symbol, timeframe);
      ghost var st, trace := repo.State(k), repo.world.trace;
      var w := Window(start, end, now, ttl(timeframe), liveHorizon(timeframe));
      var intervalsOk, stored := repo.Intervals(symbol, timeframe);
      env := Env(intervalsOk, [], false, false);
      if !intervalsOk {
        res := Failed;
        return;
      }
      var toFetch := Plan(stored, w);
      PlanOrderIndependent(stored, st.intervals, w);
      if |toFetch| == 0 {
        ghost var readOk;
        res, readOk := Serve(symbol, timeframe, start, end, false, []);
        env := env.(readOk := readOk);
        HitResult(st, w, env);
        HitCalls(trace, symbol, timeframe, st, w, readOk);
        return;
      }
      res, env := GetMiss(symbol, timeframe, w, stored, toFetch);
      MissCalls(trace, symbol, timeframe, st, w, env);
    }

    /** The rest of a Get whose plan is not empty. */
    method GetMiss(symbol: string, timeframe: string, w: Window, stored: seq<Interval>, toFetch: seq<Range>)
      returns (res: Result, ghost env: Env)
      requires repo.Valid() && repo.Locked(Key(symbol, timeframe))
      requires multiset(stored) == multiset(repo.State(Key(symbol, timeframe)).intervals)
      requires toFetch == PlanSpec(repo.State(Key(symbol, timeframe)).intervals, w) && |toFetch| > 0
      modifies repo, repo.mem, repo.world
      ensures repo.Valid() && repo.Locked(Key(symbol, timeframe))
      ensures var k := Key(symbol, timeframe);
        var st := old(repo.State(k));
        && env.intervalsOk && Trimmed(st, w, env)
        && repo.world.trace == old(repo.world.trace) + RestCalls(symbol, timeframe, st, w, env)
        && Done(symbol, timeframe, st, w, env, old(repo.journals), repo.journals, res)
    {
      ghost var k := Key(symbol, timeframe);
      ghost var st, trace := repo.State(k), repo.world.trace;
      ghost var journal := repo.JournalOf(k);
      var freshBars, persistFailed, fetchFailed;
      ghost var outcomes, credited;
      freshBars, persistFailed, fetchFailed, outcomes, credited :=
        FetchAndPersist(symbol, timeframe, w, stored, toFetch);
      ghost var env0 := Env(true, outcomes, credited, false);
      if fetchFailed {
        PartialResult(st, w, outcomes, credited, false);
        PartialCalls(trace, symbol, timeframe, st, w, env0);
        return Failed, env0;
      }
      ApplyAllConcat(EMPTY_STATE, journal, GetWrites(st, w, env0));
      ghost var readOk;
      res, readOk := Serve(symbol, timeframe, w.start, w.end, persistFailed, freshBars);
      env := Env(true, outcomes, credited, readOk);
      MissResult(st, w, outcomes, credited, readOk, repo.State(k));
      ReadCallLast(trace, symbol, timeframe, st, w, env);
    }

    method FetchAndPersist(symbol: string, timeframe: string, w: Window, stored: seq<Interval>, toFetch: seq<Range>)
      returns (freshBars: seq<Bar>, persistFailed: bool, fetchFailed: bool,
               ghost outcomes: seq<RangeOutcome>, ghost credited: bool)
      requires repo.Valid() && repo.Locked(Key(symbol, timeframe))
      requires multiset(stored) == multiset(repo.State(Key(symbol, timeframe)).intervals)
      requires toFetch == PlanSpec(repo.State(Key(symbol, timeframe)).intervals, w) && |toFetch| > 0
      modifies repo, repo.mem, repo.world
      ensures repo.Valid() && repo.Locked(Key(symbol, timeframe))
      ensures AllFetched(toFetch, outcomes, |outcomes|) && (fetchFailed <==> |outcomes| < |toFetch|)
      ensures var k := Key(symbol, timeframe);
        var st := old(repo.State(k));
        && repo.world.trace == old(repo.world.trace) + LoopCalls(symbol, timeframe, toFetch, outcomes)
             + CreditCalls(k, st, w, outcomes, credited)
        && Grown(old(repo.journals), repo.journals, k, GetWrites(st, w, Env(true, outcomes, credited, false)))
      ensures freshBars == FreshBars(outcomes, |outcomes|)
      ensures !fetchFailed ==> (persistFailed <==> !(AllStored(outcomes, |outcomes|) && credited))
    {
      ghost var k := Key(symbol, timeframe);
      ghost var st := repo.State(k);
      var fetchedIntervals;
      fetchedIntervals, freshBars, persistFailed, fetchFailed, outcomes :=
        FetchRanges(symbol, timeframe, toFetch, w.now);
      ghost var middle := repo.journals;
      persistFailed, credited := PersistCoverage(symbol, timeframe, stored, fetchedIntervals, w.LiveStart(),
        persistFailed, st.intervals);
      MissWrites(st, w, outcomes, credited, false);
      ghost var n := |outcomes|;
      ghost var last := if n > 0 && AllStored(outcomes, n) && credited
        then [Credited(Normalized(st.intervals + Credits(toFetch, w.now, n), w.LiveStart()))]
        else [];
      GrownOn(old(repo.journals), middle, repo.journals, k, FetchWrites(toFetch, w.now, outcomes, n), last);
    }

    /** Credits the ranges that were fetched, unless a bar write already failed. */
    method PersistCoverage(symbol: string, timeframe: string, stored: seq<Interval>, fetched: seq<Interval>,
                           historyBefore: Time, putFailed: bool, ghost intervals: seq<Interval>)
      returns (persistFailed: bool, ghost credited: bool)
      requires repo.Valid() && repo.Locked(Key(symbol, timeframe)) && multiset(stored) == multiset(intervals)
      modifies repo, repo.mem, repo.world
      ensures repo.Valid() && repo.Locked(Key(symbol, timeframe))
      ensures persistFailed <==> putFailed || (|fetched| > 0 && !credited)
      ensures repo.world.trace == old(repo.world.trace)
        + if |fetched| > 0 && !putFailed
          then [IntervalsPut(Key(symbol, timeframe), Normalized(intervals + fetched, historyBefore), credited)]
          else []
      ensures Grown(old(repo.journals), repo.journals, Key(symbol, timeframe),
        if |fetched| > 0 && !putFailed && credited
        then [Credited(Normalized(intervals + fetched, historyBefore))]
        else [])
    {
      persistFailed, credited := putFailed, false;
      if |fetched| > 0 && !putFailed {
        var newIntervals := NormalizeCoverage(stored + fetched, historyBefore);
        NormalizedOrderIndependent(stored + fetched, intervals + fetched, historyBefore);
        var ok := repo.PutIntervals(symbol, timeframe, newIntervals);
        credited := ok;
        if !ok {
          persistFailed := true;
        }
      }
    }

    method Serve(symbol: string, timeframe: string, start: Time, end: Time, persistFailed: bool, freshBars: seq<Bar>)
      returns (res: Result, readOk: bool)
      requires repo.Valid() && repo.Locked(Key(symbol, timeframe))
      modifies repo.world
      ensures repo.Valid() && repo.Locked(Key(symbol, timeframe))
      ensures repo.world.trace == old(repo.world.trace) + [BarsRead(Key(symbol, timeframe), start, end, readOk)]
      ensures var repoBars := if readOk then Slice(repo.State(Key(symbol, timeframe)).bars, start, end) else map[];
        res == if persistFailed then Ok(Clipped(Listing(repoBars + ToMap(freshBars)), start, end))
               else if readOk then Ok(Listing(repoBars))
               else Failed
    {
      var ok, bars := repo.Bars(symbol, timeframe, start, end);
      readOk := ok;
      if persistFailed {
        bars := Degraded(bars, if ok then Slice(repo.State(Key(symbol, timeframe)).bars, start, end) else map[],
          freshBars, start, end);
        return Ok(bars), ok;
      }
      return if ok then Ok(bars) else Failed, ok;
    }

    /** Serves what the repository had plus the freshly fetched bars. */
    method Degraded(bars: seq<Bar>, ghost repoBars: BarMap, freshBars: seq<Bar>, start: Time, end: Time)
      returns (out: seq<Bar>)
      requires bars == Listing(repoBars)
      ensures out == Clipped(Listing(repoBars + ToMap(freshBars)), start, end)
    {
      ListingExact(repoBars);
      RepresentsToMap(bars, repoBars);
      var merged := MergeBars(bars, freshBars);
      out := Clip(merged, start, end);
    }
  }

  // ---- how the calls add up ----

  /** The calls for one range. */
  function OneCall(symbol: string, timeframe: string, r: Range, answer: Fetch, ok: bool): seq<Event> {
    if answer.Error? then
      [Requested(RequestFor(symbol, timeframe, r), Error)]
    else
      [Requested(RequestFor(symbol, timeframe, r), answer), BarsPut(Key(symbol, timeframe), answer.bars, ok)]
  }

  lemma FailedCall(trace: seq<Event>, symbol: string, timeframe: string, plan: seq<Range>, outcomes: seq<RangeOutcome>)
    requires AllFetched(plan, outcomes, |outcomes|) && |outcomes| < |plan|
    ensures trace + FetchCalls(symbol, timeframe, plan, outcomes, |outcomes|)
          + OneCall(symbol, timeframe, plan[|outcomes|], Error, false)
         == trace + LoopCalls(symbol, timeframe, plan, outcomes)
  {
    CallsAssoc(trace, FetchCalls(symbol, timeframe, plan, outcomes, |outcomes|),
      OneCall(symbol, timeframe, plan[|outcomes|], Error, false));
  }

  lemma EveryCall(trace: seq<Event>, symbol: string, timeframe: string, plan: seq<Range>, outcomes: seq<RangeOutcome>)
    requires AllFetched(plan, outcomes, |outcomes|) && |outcomes| == |plan|
    ensures trace + FetchCalls(symbol, timeframe, plan, outcomes, |outcomes|)
         == trace + LoopCalls(symbol, timeframe, plan, outcomes)
  {
  }

  lemma {:induction false} FetchCallsPrefix(symbol: string, timeframe: string, plan: seq<Range>,
                                            outcomes: seq<RangeOutcome>, o: RangeOutcome, n: nat)
    requires AllFetched(plan, outcomes, n) && AllFetched(plan, outcomes + [o], n)
    ensures FetchCalls(symbol, timeframe, plan, outcomes + [o], n) == FetchCalls(symbol, timeframe, plan, outcomes, n)
  {
    if n > 0 {
      FetchCallsPrefix(symbol, timeframe, plan, outcomes, o, n - 1);
    }
  }

  lemma OneMoreCall(trace: seq<Event>, symbol: string, timeframe: string, plan: seq<Range>, outcomes: seq<RangeOutcome>,
                    o: RangeOutcome)
    requires AllFetched(plan, outcomes, |outcomes|) && |outcomes| < |plan| && o.Fetched?
    ensures AllFetched(plan, outcomes + [o], |outcomes| + 1)
    ensures trace + FetchCalls(symbol, timeframe, plan, outcomes, |outcomes|)
          + OneCall(symbol, timeframe, plan[|outcomes|], Answer(o.bars), o.stored)
         == trace + FetchCalls(symbol, timeframe, plan, outcomes + [o], |outcomes| + 1)
  {
    FetchCallsPrefix(symbol, timeframe, plan, outcomes, o, |outcomes|);
    CallsAssoc(trace, FetchCalls(symbol, timeframe, plan, outcomes, |outcomes|),
      OneCall(symbol, timeframe, plan[|outcomes|], Answer(o.bars), o.stored));
    assert (outcomes + [o])[|outcomes|] == o;
  }

  lemma CallsAssoc(a: seq<Event>, b: seq<Event>, c: seq<Event>)
    ensures a + b + c == a + (b + c)
  {
  }

  lemma HitCalls(trace: seq<Event>, symbol: string, timeframe: string, st: KeyState, w: Window, readOk: bool)
    requires PlanSpec(st.intervals, w) == []
    ensures var k := Key(symbol, timeframe);
      trace + [IntervalsRead(k, true)] + [BarsRead(k, w.start, w.end, readOk)]
      == trace + BodyCalls(symbol, timeframe, st, w, Env(true, [], false, readOk))
  {
  }

  lemma MissCalls(trace: seq<Event>, symbol: string, timeframe: string, st: KeyState, w: Window, env: Env)
    requires env.intervalsOk && Trimmed(st, w, env)
    ensures trace + [IntervalsRead(Key(symbol, timeframe), true)] + RestCalls(symbol, timeframe, st, w, env)
         == trace + BodyCalls(symbol, timeframe, st, w, env)
  {
    CallsAssoc(trace, [IntervalsRead(Key(symbol, timeframe), true)], RestCalls(symbol, timeframe, st, w, env));
  }

  lemma PartialCalls(trace: seq<Event>, symbol: string, timeframe: string, st: KeyState, w: Window, env: Env)
    requires env.intervalsOk && Trimmed(st, w, env) && |env.outcomes| < |PlanSpec(st.intervals, w)|
    ensures trace + LoopCalls(symbol, timeframe, PlanSpec(st.intervals, w), env.outcomes)
          + CreditCalls(Key(symbol, timeframe), st, w, env.outcomes, env.creditOk)
         == trace + RestCalls(symbol, timeframe, st, w, env)
  {
    CallsAssoc(trace, LoopCalls(symbol, timeframe, PlanSpec(st.intervals, w), env.outcomes),
      CreditCalls(Key(symbol, timeframe), st, w, env.outcomes, env.creditOk));
  }

  lemma ReadCallLast(trace: seq<Event>, symbol: string, timeframe: string, st: KeyState, w: Window, env: Env)
    requires env.intervalsOk && Trimmed(st, w, env) && |env.outcomes| == |PlanSpec(st.intervals, w)|
    ensures trace + LoopCalls(symbol, timeframe, PlanSpec(st.intervals, w), env.outcomes)
          + CreditCalls(Key(symbol, timeframe), st, w, env.outcomes, env.creditOk)
          + [BarsRead(Key(symbol, timeframe), w.start, w.end, env.readOk)]
         == trace + RestCalls(symbol, timeframe, st, w, env)
  {
    ThreeCalls(trace, LoopCalls(symbol, timeframe, PlanSpec(st.intervals, w), env.outcomes),
      CreditCalls(Key(symbol, timeframe), st, w, env.outcomes, env.creditOk),
      [BarsRead(Key(symbol, timeframe), w.start, w.end, env.readOk)]);
  }

  lemma ThreeCalls(trace: seq<Event>, a: seq<Event>, b: seq<Event>, c: seq<Event>)
    ensures trace + a + b + c == trace + (a + b + c)
  {
  }

  lemma Bracketed(trace: seq<Event>, symbol: string, timeframe: string, st: KeyState, w: Window, env: Env, kl: KeyLock)
    requires Trimmed(st, w, env)
    ensures var k := Key(symbol, timeframe);
      trace + [ClockRead(w.now)] + [Acquired(k, kl)] + BodyCalls(symbol, timeframe, st, w, env) + [Released(k, kl)]
      == trace + GetCalls(symbol, timeframe, st, w, env, kl)
  {
    var k := Key(symbol, timeframe);
    FourCalls(trace, ClockRead(w.now), Acquired(k, kl), BodyCalls(symbol, timeframe, st, w, env), Released(k, kl));
  }

  lemma FourCalls(trace: seq<Event>, a: Event, b: Event, c: seq<Event>, d: Event)
    ensures trace + [a] + [b] + c + [d] == trace + ([a, b] + c + [d])
  {
  }

  /** What the fetch loop has accumulated. */
  ghost predicate Progress(plan: seq<Range>, now: Time, outcomes: seq<RangeOutcome>, fetched: seq<Interval>,
                           freshBars: seq<Bar>, persistFailed: bool)
  {
    && AllFetched(plan, outcomes, |outcomes|)
    && fetched == Credits(plan, now, |outcomes|)
    && freshBars == FreshBars(outcomes, |outcomes|)
    && (persistFailed <==> !AllStored(outcomes, |outcomes|))
  }

  lemma ProgressStep(plan: seq<Range>, now: Time, outcomes: seq<RangeOutcome>, fetched: seq<Interval>,
                     freshBars: seq<Bar>, persistFailed: bool, o: RangeOutcome)
    requires |outcomes| < |plan| && o.Fetched? && Progress(plan, now, outcomes, fetched, freshBars, persistFailed)
    ensures var r := plan[|outcomes|];
      Progress(plan, now, outcomes + [o], fetched + [Interval(r.from, r.to, now)], freshBars + o.bars,
        persistFailed || !o.stored)
  {
    OneMoreOutcome(plan, now, outcomes, outcomes + [o], |outcomes|);
  }

  /** What one more fetched range adds to the calls and the writes. */
  lemma FetchStep(before: map<string, seq<Write>>, middle: map<string, seq<Write>>, after: map<string, seq<Write>>,
                  trace: seq<Event>, symbol: string, timeframe: string, plan: seq<Range>, now: Time,
                  outcomes: seq<RangeOutcome>, o: RangeOutcome)
    requires AllFetched(plan, outcomes, |outcomes|) && |outcomes| < |plan| && o.Fetched?
    requires Grown(before, middle, Key(symbol, timeframe), FetchWrites(plan, now, outcomes, |outcomes|))
    requires Grown(middle, after, Key(symbol, timeframe), [WriteOf(plan[|outcomes|], now, o)])
    ensures AllFetched(plan, outcomes + [o], |outcomes| + 1)
    ensures trace + FetchCalls(symbol, timeframe, plan, outcomes, |outcomes|)
          + OneCall(symbol, timeframe, plan[|outcomes|], Answer(o.bars), o.stored)
         == trace + FetchCalls(symbol, timeframe, plan, outcomes + [o], |outcomes| + 1)
    ensures Grown(before, after, Key(symbol, timeframe), FetchWrites(plan, now, outcomes + [o], |outcomes| + 1))
  {
    OneMoreOutcome(plan, now, outcomes, outcomes + [o], |outcomes|);
    GrownOn(before, middle, after, Key(symbol, timeframe), FetchWrites(plan, now, outcomes, |outcomes|),
      [WriteOf(plan[|outcomes|], now, o)]);
    OneMoreCall(trace, symbol, timeframe, plan, outcomes, o);
  }

  lemma OneMoreOutcome(plan: seq<Range>, now: Time, before: seq<RangeOutcome>, outcomes: seq<RangeOutcome>, i: nat)
    requires i < |plan| && |before| == i && |outcomes| == i + 1 && before == outcomes[..i]
    requires AllFetched(plan, outcomes, i + 1)
    ensures FreshBars(outcomes, i + 1) == FreshBars(before, i) + outcomes[i].bars
    ensures FetchWrites(plan, now, outcomes, i + 1)
         == FetchWrites(plan, now, before, i) + [WriteOf(plan[i], now, outcomes[i])]
    ensures AllStored(outcomes, i + 1) <==> AllStored(before, i) && outcomes[i].stored
    ensures Credits(plan, now, i + 1) == Credits(plan, now, i) + [Interval(plan[i].from, plan[i].to, now)]
  {
    FreshBarsPrefix(before, outcomes, i);
  }

  lemma {:induction false} FreshBarsPrefix(before: seq<RangeOutcome>, outcomes: seq<RangeOutcome>, n: nat)
    requires n <= |before| && before <= outcomes
    requires forall i :: 0 <= i < n ==> before[i].Fetched?
    ensures FreshBars(before, n) == FreshBars(outcomes, n)
  {
    if n > 0 {
      FreshBarsPrefix(before, outcomes, n - 1);
    }
  }
}
