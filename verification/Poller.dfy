/** The poller, which keeps the cache warm, and what driving the store with Get after Get means:
    every key's journal is the journal of a run. */
module Poller {
  import opened Wrappers
  import opened Timeline
  import opened MemRepo
  import opened Journal
  import opened Runs
  import opened Outside
  import Store

  /** The timeframe of a key: what follows its last separator. */
  function TimeframeOf(k: string): string {
    if '|' !in k then k else TimeframeOf(k[1..])
  }

  lemma {:induction false} TimeframeOfKey(symbol: string, timeframe: string)
    requires '|' !in timeframe
    ensures TimeframeOf(Key(symbol, timeframe)) == timeframe
  {
    var k := Key(symbol, timeframe);
    assert k[|symbol|] == '|';
    if symbol == "" {
      assert k[1..] == timeframe;
    } else {
      assert k[1..] == Key(symbol[1..], timeframe);
      TimeframeOfKey(symbol[1..], timeframe);
    }
  }

  /** A key's stamps are fresh for the store's ttl of its timeframe, and its instants live for
      the store's horizon. */
  ghost function ConfigOf(store: Store.Store, k: string): (cfg: Config)
    ensures forall s: Step ::
      && Runs.WindowOf(cfg, s).FreshAfter() == s.now - store.ttl(TimeframeOf(k))
      && Runs.WindowOf(cfg, s).LiveStart() == s.now - store.liveHorizon(TimeframeOf(k))
  {
    Config(store.ttl(TimeframeOf(k)), store.liveHorizon(TimeframeOf(k)))
  }

  /** Under every key the repository was written by exactly these Gets, one after the other. */
  ghost predicate AreRuns(store: Store.Store, runs: map<string, seq<Step>>)
    reads store.repo
  {
    JournalsOfRuns(store, store.repo.journals, runs)
  }

  ghost predicate JournalsOfRuns(store: Store.Store, journals: map<string, seq<Write>>, runs: map<string, seq<Step>>) {
    forall k :: Lookup(journals, k) == Run(ConfigOf(store, k), Lookup(runs, k))
  }

  /** One key's journal grown by the writes of a Get is its run with one more step. */
  lemma OneMoreStep(store: Store.Store, before: map<string, seq<Write>>, after: map<string, seq<Write>>,
                    runs: map<string, seq<Step>>, k: string, s: Step)
    requires JournalsOfRuns(store, before, runs)
    requires var cfg := ConfigOf(store, k);
      Store.Grown(before, after, k, GetWrites(StateOf(cfg, Lookup(runs, k)), Runs.WindowOf(cfg, s), s.env))
    ensures JournalsOfRuns(store, after, WithStep(runs, k, s))
  {
    RunAppend(ConfigOf(store, k), Lookup(runs, k), s);
    forall x ensures Lookup(after, x) == Run(ConfigOf(store, x), Lookup(WithStep(runs, k, s), x)) {
      assert Lookup(before, x) == Run(ConfigOf(store, x), Lookup(runs, x));
    }
  }

  /** The key's run has grown only by Gets of this window. */
  ghost predicate PolledFrom(runs: map<string, seq<Step>>, after: map<string, seq<Step>>, k: string, start: Time,
                             end: Time)
  {
    && Lookup(runs, k) <= Lookup(after, k)
    && forall i :: |Lookup(runs, k)| <= i < |Lookup(after, k)| ==>
         Lookup(after, k)[i].start == start && Lookup(after, k)[i].end == end
  }

  ghost predicate InRound(runs: map<string, seq<Step>>, after: map<string, seq<Step>>, windowFor: string -> Time,
                          end: Time)
  {
    forall k :: PolledFrom(runs, after, k, end - windowFor(TimeframeOf(k)), end)
  }

  /** Since `before`, the runs of exactly these keys have grown. */
  ghost predicate GrewFor(runs: map<string, seq<Step>>, before: map<string, seq<Step>>, after: map<string, seq<Step>>,
                          symbol: string, timeframes: seq<string>)
  {
    forall k :: Lookup(after, k) != Lookup(runs, k) <==>
      Lookup(before, k) != Lookup(runs, k) || Polled(k, [symbol], timeframes)
  }

  ghost function WithStep(runs: map<string, seq<Step>>, k: string, s: Step): map<string, seq<Step>> {
    runs[k := Lookup(runs, k) + [s]]
  }

  ghost predicate Polled(k: string, symbols: seq<string>, timeframes: seq<string>) {
    exists symbol, timeframe :: symbol in symbols && timeframe in timeframes && k == Key(symbol, timeframe)
  }

  class Poller {
    const store: Store.Store
    const symbols: seq<string>
    const timeframes: seq<string>
    const windowFor: string -> Time

    constructor (store: Store.Store, symbols: seq<string>, timeframes: seq<string>, windowFor: string -> Time)
      ensures this.store == store && this.symbols == symbols
      ensures this.timeframes == timeframes && this.windowFor == windowFor
    {
      this.store := store;
      this.symbols := symbols;
      this.timeframes := timeframes;
      this.windowFor := windowFor;
    }

    /** No Get is in flight. */
    ghost predicate Idle()
      reads store, store.repo.world
    {
      store.locks == map[] && forall k :: !Inside(store.repo.world.trace, k)
    }

    /** One Get of one key: the next step of its run, with that step's calls and result. */
    method Poll(symbol: string, timeframe: string, start: Time, end: Time, ghost runs: map<string, seq<Step>>)
      returns (res: Result, ghost s: Step, ghost kl: KeyLock)
      requires store.repo.Valid() && Idle() && AreRuns(store, runs) && '|' !in timeframe
      modifies store.repo, store.repo.mem, store.repo.world, store`locks
      ensures store.repo.Valid() && Idle() && s.start == start && s.end == end
      ensures var k, cfg := Key(symbol, timeframe), ConfigOf(store, Key(symbol, timeframe));
        var st, w := StateOf(cfg, Lookup(runs, k)), Runs.WindowOf(cfg, s);
        && AreRuns(store, WithStep(runs, k, s))
        && Trimmed(st, w, s.env) && res == GetResult(st, w, s.env)
        && store.repo.world.trace == old(store.repo.world.trace) + GetCalls(symbol, timeframe, st, w, s.env, kl)
    {
      ghost var k := Key(symbol, timeframe);
      ghost var journals := store.repo.journals;
      ghost var st := store.repo.State(k);
      assert store.repo.JournalOf(k) == Run(ConfigOf(store, k), Lookup(runs, k));
      TimeframeOfKey(symbol, timeframe);
      ghost var now, env;
      res, now, env, kl := store.Get(symbol, timeframe, start, end);
      s := Step(start, end, now, env);
      OneMoreStep(store, journals, store.repo.journals, runs, k, s);
    }

    /** One round over the watchlist: a Get up to the poller's clock for every symbol and
        timeframe.  Whatever fails, every key's journal stays the journal of a run: the one
        before, and for the polled keys alone the Gets of this round. */
    method Refresh(ghost runs: map<string, seq<Step>>)
      returns (ghost end: Time, ghost after: map<string, seq<Step>>)
      requires store.repo.Valid() && Idle() && AreRuns(store, runs)
      requires forall timeframe :: timeframe in timeframes ==> '|' !in timeframe
      modifies store.repo, store.repo.mem, store.repo.world, store`locks
      ensures store.repo.Valid() && Idle() && AreRuns(store, after)
      ensures old(store.repo.world.trace) + [ClockRead(end)] <= store.repo.world.trace
      ensures InRound(runs, after, windowFor, end)
      ensures forall k :: Lookup(after, k) != Lookup(runs, k) <==> Polled(k, symbols, timeframes)
    {
      var now := store.repo.world.Now();
      end, after := now, runs;
      ghost var begun := store.repo.world.trace;
      NonePolled(runs, windowFor, now);
      for i := 0 to |symbols|
        invariant store.repo.Valid() && Idle() && AreRuns(store, after)
        invariant begun <= store.repo.world.trace && InRound(runs, after, windowFor, now)
        invariant forall k :: Lookup(after, k) != Lookup(runs, k) <==> Polled(k, symbols[..i], timeframes)
      {
        after := RefreshSymbol(symbols[i], now, runs, after);
        PolledMore(symbols[..i], symbols[i], timeframes);
        assert symbols[..i + 1] == symbols[..i] + [symbols[i]];
      }
      assert symbols[..|symbols|] == symbols;
    }

    /** The inner loop: every timeframe of one symbol. */
    method RefreshSymbol(symbol: string, now: Time, ghost runs: map<string, seq<Step>>,
                         ghost before: map<string, seq<Step>>)
      returns (ghost after: map<string, seq<Step>>)
      requires store.repo.Valid() && Idle() && AreRuns(store, before)
      requires forall timeframe :: timeframe in timeframes ==> '|' !in timeframe
      requires InRound(runs, before, windowFor, now)
      modifies store.repo, store.repo.mem, store.repo.world, store`locks
      ensures store.repo.Valid() && Idle() && AreRuns(store, after)
      ensures old(store.repo.world.trace) <= store.repo.world.trace && InRound(runs, after, windowFor, now)
      ensures GrewFor(runs, before, after, symbol, timeframes)
    {
      after := before;
      for j := 0 to |timeframes|
        invariant store.repo.Valid() && Idle() && AreRuns(store, after)
        invariant old(store.repo.world.trace) <= store.repo.world.trace && InRound(runs, after, windowFor, now)
        invariant GrewFor(runs, before, after, symbol, timeframes[..j])
      {
        var timeframe := timeframes[j];
        var res;
        ghost var s, kl;
        res, s, kl := Poll(symbol, timeframe, now - windowFor(timeframe), now, after);
        OnceMore(runs, before, after, symbol, timeframes, j, s, windowFor, now);
        after := WithStep(after, Key(symbol, timeframe), s);
      }
      assert timeframes[..|timeframes|] == timeframes;
    }
  }

  lemma NonePolled(runs: map<string, seq<Step>>, windowFor: string -> Time, end: Time)
    ensures InRound(runs, runs, windowFor, end)
  {
    forall k ensures PolledFrom(runs, runs, k, end - windowFor(TimeframeOf(k)), end) {
    }
  }

  lemma OnceMore(runs: map<string, seq<Step>>, before: map<string, seq<Step>>, after: map<string, seq<Step>>,
                 symbol: string, timeframes: seq<string>, j: nat, s: Step, windowFor: string -> Time, end: Time)
    requires j < |timeframes| && '|' !in timeframes[j]
    requires InRound(runs, after, windowFor, end) && GrewFor(runs, before, after, symbol, timeframes[..j])
    requires s.start == end - windowFor(timeframes[j]) && s.end == end
    ensures InRound(runs, WithStep(after, Key(symbol, timeframes[j]), s), windowFor, end)
    ensures GrewFor(runs, before, WithStep(after, Key(symbol, timeframes[j]), s), symbol, timeframes[..j + 1])
  {
    TimeframeOfKey(symbol, timeframes[j]);
    OnceInRound(runs, after, Key(symbol, timeframes[j]), s, windowFor, end);
    assert PolledFrom(runs, after, Key(symbol, timeframes[j]), s.start, end);
    OnceGrew(runs, before, after, symbol, timeframes[..j], timeframes[j], s);
    OneMoreTimeframe(timeframes, j);
  }

  lemma OneMoreTimeframe(timeframes: seq<string>, j: nat)
    requires j < |timeframes|
    ensures timeframes[..j + 1] == timeframes[..j] + [timeframes[j]]
  {
  }

  lemma OnceInRound(runs: map<string, seq<Step>>, after: map<string, seq<Step>>, k: string, s: Step,
                    windowFor: string -> Time, end: Time)
    requires InRound(runs, after, windowFor, end) && s.start == end - windowFor(TimeframeOf(k)) && s.end == end
    ensures InRound(runs, WithStep(after, k, s), windowFor, end)
  {
    var next := WithStep(after, k, s);
    forall x ensures PolledFrom(runs, next, x, end - windowFor(TimeframeOf(x)), end) {
      assert PolledFrom(runs, after, x, end - windowFor(TimeframeOf(x)), end);
      assert x != k ==> Lookup(next, x) == Lookup(after, x);
    }
  }

  lemma OnceGrew(runs: map<string, seq<Step>>, before: map<string, seq<Step>>, after: map<string, seq<Step>>,
                 symbol: string, timeframes: seq<string>, timeframe: string, s: Step)
    requires GrewFor(runs, before, after, symbol, timeframes)
    requires Lookup(runs, Key(symbol, timeframe)) <= Lookup(after, Key(symbol, timeframe))
    ensures GrewFor(runs, before, WithStep(after, Key(symbol, timeframe), s), symbol, timeframes + [timeframe])
  {
    var k := Key(symbol, timeframe);
    var next := WithStep(after, k, s);
    PolledAlso(symbol, timeframes, timeframe);
    assert |Lookup(next, k)| > |Lookup(runs, k)|;
    forall x ensures Lookup(next, x) != Lookup(runs, x) <==>
      Lookup(before, x) != Lookup(runs, x) || Polled(x, [symbol], timeframes + [timeframe])
    {
      assert x != k ==> Lookup(next, x) == Lookup(after, x);
    }
  }

  lemma PolledMore(symbols: seq<string>, symbol: string, timeframes: seq<string>)
    ensures forall k :: Polled(k, symbols + [symbol], timeframes) <==>
      Polled(k, symbols, timeframes) || Polled(k, [symbol], timeframes)
  {
    forall k ensures Polled(k, symbols + [symbol], timeframes) <==>
      Polled(k, symbols, timeframes) || Polled(k, [symbol], timeframes)
    {
      if x, tf :| x in symbols && tf in timeframes && k == Key(x, tf) {
        assert x in symbols + [symbol];
      }
      if x, tf :| x in [symbol] && tf in timeframes && k == Key(x, tf) {
        assert x in symbols + [symbol];
      }
    }
  }

  lemma PolledAlso(symbol: string, timeframes: seq<string>, timeframe: string)
    ensures forall k :: Polled(k, [symbol], timeframes + [timeframe]) <==>
      Polled(k, [symbol], timeframes) || k == Key(symbol, timeframe)
  {
    forall k ensures Polled(k, [symbol], timeframes + [timeframe]) <==>
      Polled(k, [symbol], timeframes) || k == Key(symbol, timeframe)
    {
      assert symbol in [symbol] && timeframe in timeframes + [timeframe];
      if x, tf :| x in [symbol] && tf in timeframes && k == Key(x, tf) {
        assert tf in timeframes + [timeframe];
      }
    }
  }
}
