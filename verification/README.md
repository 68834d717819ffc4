# The read-through bar cache, verified

A Dafny model of `internal/store`: the interval algebra that decides what to
fetch, the `Get` state machine that fetches, persists and degrades, the per-key
lock that serializes it, and the in-memory repository behind it. What the pieces
add up to: every interleaving of concurrent `Get`s is a run of whole `Get`s in
real-time order; and over every run, with any pattern of failures, each served
bar is upstream's answer at the last fetch that asked for it, that fetch is no
older than the ttl while clocks follow the lock order, coverage is never claimed
without data, and finished work is never repeated.

## How it is modelled

- **Time.** An instant is an unbounded integer: nanoseconds since Go's zero
  `time.Time`. `[from, to)` is the set of instants an interval or a range stands
  for. The comment on `Interval` calls it inclusive, but the code treats touching
  intervals as gap-free and an interval with `from == to` as empty, which is the
  half-open reading; upstream requests and repository reads are inclusive on both
  sides, as in the code.
- **Reference definitions.** Each sweep is proved against a definition that looks
  at one instant at a time. `Timeline.RunsOf` lists the maximal runs of a set of
  instants. `Planner.Wanted` says which instants a plan must fetch.
  `Normalizer.FreshAt` is the greatest stamp covering an instant. `Bars.ToMap` is
  a list of bars as a map in which the later bar wins.
- **`Get` as writes.** `Journal.GetWrites` and `Journal.GetResult` say which
  repository writes one `Get` performs, in order, and what it returns, as functions
  of the state it finds, the request and an `Env`: every choice the outside world
  makes (which fetches, bar writes, coverage writes and reads succeed, and what
  upstream answers). `Store.Store.Get` is the imperative code, proved to perform
  exactly those writes and to return exactly that result. `Runs.Run` chains the
  `Get`s of one key, so every run, and every point between two writes of a run, is
  a prefix of a journal. `Poller.Poller`, which drives `Get` in loops, is proved
  to leave under every key the journal of such a run.
- **The world.** `Outside.World` holds what the code cannot decide: a script says
  what each clock reading, upstream request and repository call gives, and a
  ghost trace records every call with its arguments and outcome, together with
  the locks taken and released. `Outside.GetCalls` is the sequence of calls a
  `Get` must make, and `Store.Store.Get` is proved to extend the trace by exactly
  that: one clock reading, the key's own mutex, the interval read, each planned
  request followed by its write, the coverage write, the final read, the release.
  A repository call outside its key's lock cannot be recorded. `Calls.Determined`
  shows that the script alone then fixes the writes and the result.
- **Clock.** `Get` reads its clock before it takes the lock, so clocks may be out
  of order between `Get`s. Each theorem says what it needs of them.
  `Staleness.BoundedStaleness` allows any order, and then the served answer may be
  that of a later fetch with an earlier stamp; `Staleness.BoundedStalenessInLockOrder`
  bounds the stamp of the very fetch that is served; `ClockOrder.AlwaysFreshIff` says
  exactly which clocks can cost freshness.
- **Lock.** `lockKey` and its unlock are a machine of small steps taken by any
  number of threads in any order (`Locks`). `Interleaving` runs the body of `Get`
  inside that machine, step by step, for any keys, requests, clocks and failures,
  and proves that the writes under each key and every result are those of whole
  `Get`s run one after the other. That is what lets the theorems about runs speak
  of concurrent callers.
- **Plan's sliver rule.** The comment on `sliverThreshold` says "less than" a
  minute; the code merges at exactly a minute too, and the model follows the code.

| file | contents |
|---|---|
| `Timeline`, `Sorting`, `Wrappers` | instants, point sets, runs; sorting and in-place deduplication; `Option` and maps of lists |
| `Planner`, `PlanProperties` | `Plan` and its stages; what a plan promises |
| `Normalizer`, `NormalizerProperties` | `normalizeCoverage`; what it promises |
| `Bars`, `MemRepo` | bar lists and maps; the in-memory repository |
| `Journal`, `Outside`, `Store` | one `Get`: its writes and result, the world it calls, the code |
| `Calls`, `GetProperties` | what the calls of one `Get` amount to; what one `Get` promises |
| `Runs`, `Answers`, `Staleness`, `ClockOrder`, `Polling` | every run: safety, which answer is served, how fresh it is, what the order of clocks costs, frontier and ttl |
| `Locks`, `Interleaving`, `Progress` | the per-key lock; concurrent `Get`s are serial; they come to an end |
| `ConcurrentFreshness`, `SingleFlight` | how fresh the results of concurrent `Get`s are; those that share a request |
| `Poller` | the loop that keeps the cache warm, and its runs |

## Model

| member | source | states |
|---|---|---|
| `Planner.Plan` | internal/store/coverage.go:126-161 | the fetched ranges are exactly the maximal runs of wanted instants, for any stored intervals, window and clock |
| `PlanProperties.PlanExact` | internal/store/coverage.go:126-161 | an instant is in a range if and only if it is in the window, neither held nor forgiven, or lies in a run of at most a minute between two instants that must be fetched |
| `PlanProperties.MinuteRule` | internal/store/coverage.go:22-24 | with nothing to fetch between them, two instants that must be fetched are fetched in one range if and only if at most 60_000_000_000 ns lie between them |
| `PlanProperties.OneHole` | internal/store/coverage.go:209-224 | one held interval inside a window of history splits the plan into its two sides if it is longer than 60_000_000_000 ns, and is fetched over if not |
| `PlanProperties.ForgivenIsRecent` | internal/store/coverage.go:163-188 | forgiving the tail narrows no guarantee: a forgiven instant is inside the window, newer than now - ttl, and live whenever ttl does not exceed the live horizon |
| `PlanProperties.PlanBounds` | internal/store/coverage.go:190-224 | ranges are more than a minute apart, stay in the window, begin and end at instants that must be fetched, and k of them need a window longer than k - 1 minutes |
| `PlanProperties.RefetchOnlySlivers` | internal/store/coverage.go:209-224 | a run of held instants inside one range is at most a minute long |
| `PlanProperties.ResumeExact` | internal/store/coverage.go:126-224 | once the first j ranges of a plan are held, planning again returns exactly the remaining ones, for every j |
| `PlanProperties.PlanOrderIndependent` | internal/store/coverage.go:126-161 | every permutation of the stored rows gives the same plan |
| `PlanProperties.PlanEmptyIff` | internal/store/coverage.go:158-160 | a request is a hit if and only if every uncovered instant is forgiven |
| `PlanProperties.ColdPlan` | internal/store/coverage.go:171-174 | an empty cache always fetches the whole window, as one range |
| `Planner.Coalesce` | internal/store/coverage.go:40-66 | non-empty intervals become sorted, strictly separated ones with the same instants, each stamped with the greatest stamp of the members it absorbed |
| `PlanProperties.CoalesceDetermined` | internal/store/coverage.go:49-50 | that promise determines the ranges, so an unstable sort cannot show |
| `Planner.Subtract` | internal/store/coverage.go:190-207 | the gaps are the maximal uncovered runs of the window |
| `PlanProperties.CoveredAndGapsPartition` | internal/store/coverage.go:158-159 | coalesced coverage and gaps partition the window into maximal covered and uncovered runs |
| `Planner.ForgiveKeeps` | internal/store/coverage.go:179-188 | dropping the trailing gap leaves exactly the instants that must be fetched |
| `Planner.ForgivenIsLastGap` | internal/store/coverage.go:183-186 | the instants forgiven are exactly those of a last gap that reaches the end, begins after the start and begins after now - ttl |
| `Planner.MergeSlivers` | internal/store/coverage.go:209-224 | the merged ranges are more than the threshold apart and hold exactly the gaps and what lies between gaps at most the threshold apart |
| `Planner.MergedIsPlan` | internal/store/coverage.go:158-160 | merging the kept gaps yields the maximal runs of wanted instants |
| `Sorting.DedupInPlace` | internal/store/coverage.go:90-96 | deduplicating in the sorted slice's own array gives the strictly ascending distinct bounds, overwrites no bound still to be read, and leaves the rest of the array alone |
| `Normalizer.CollectBounds` | internal/store/coverage.go:81-96 | the bounds swept are the distinct endpoints of the non-empty intervals, ascending |
| `Normalizer.SegmentFreshness` | internal/store/coverage.go:101-108 | an elementary segment is covered if and only if some interval spans it, and its stamp is the greatest among those |
| `Normalizer.NormalizeCoverage` | internal/store/coverage.go:68-124 | the loop computes the specification sweep, whose meaning is the next row |
| `Normalizer.NormalizedExact` | internal/store/coverage.go:68-124 | the output is sorted, non-empty, non-overlapping and minimal; covers exactly what the input covers; every live instant carries exactly the greatest stamp covering it; historical ones are never understated |
| `NormalizerProperties.FreshAtNormalized` | internal/store/coverage.go:70-75 | freshness read back from the stored set is exact from the cutoff on and never too small before it |
| `NormalizerProperties.HeldNormalized` | internal/store/coverage.go:70-75 | a fresh neighbour never blesses a stale live instant: any plan whose live zone starts at or after the cutoff holds the same instants before and after normalization |
| `NormalizerProperties.LateCutoffBlesses` | internal/store/coverage.go:113-118 | for every cutoff past a plan's live zone and every plan that can find a stamp stale, a set in which normalization turns a stale live instant into a held one |
| `NormalizerProperties.HeldPreservedIff` | internal/store/coverage.go:68-77 | normalization is invisible to a plan, for every set and instant, if and only if the cutoff is not past the start of the plan's live zone or the plan takes every stamp for fresh |
| `NormalizerProperties.HistoryIsOneSegment` | internal/store/coverage.go:74-77 | gap-free coverage that is all history becomes one segment, no staler than any of its instants |
| `NormalizerProperties.RenormalizePointwise` | internal/store/coverage.go:98-123 | normalizing at one cutoff and then a later one agrees with normalizing once, instant by instant, from the later cutoff on |
| `NormalizerProperties.NormalizedIdempotent` | internal/store/coverage.go:98-123 | normalizing twice at one cutoff is normalizing once |
| `NormalizerProperties.NormalizedOrderIndependent` | internal/store/coverage.go:78-124 | every permutation of the input gives the same list |
| `NormalizerProperties.NormalizedSize` | internal/store/coverage.go:74-77 | the stored set has at most one segment per connected run of coverage plus one per distinct endpoint after the cutoff |
| `NormalizerProperties.NormalizedStartsIncrease` | internal/store/sqlitestore/sqlitestore.go:57-61 | starts strictly increase, so the primary key on from_ns is never violated |
| `Bars.MergeBars` | internal/store/coverage.go:226-248 | two lists in any order become the ascending list of their union by time, the second winning |
| `Bars.Clip` | internal/store/coverage.go:250-260 | keeps the bars with start <= t <= end, in order |
| `Bars.ClippedListing` | internal/store/coverage.go:250-260 | clipping an ascending listing lists exactly the map's entries in the window |
| `MemRepo.KeyInjective` | internal/store/store.go:62 | timeframes without the separator give every (symbol, timeframe) its own key |
| `MemRepo.KeyCollidesIff` | internal/store/store.go:62 | a timeframe shares a key with a shorter one if and only if it contains the separator |
| `MemRepo.MemRepo.Bars` | internal/store/memory.go:27-42 | despite the early break, exactly the stored bars in [start, end], ascending |
| `MemRepo.MemRepo.Intervals` | internal/store/memory.go:44-48 | the intervals last put under the key |
| `MemRepo.MemRepo.PutBars` | internal/store/memory.go:50-73 | overlays the stored map, the later bar winning; every other key is untouched; slices stay strictly ascending |
| `MemRepo.MemRepo.Upsert` | internal/store/memory.go:57-70 | the index, in-place upsert and sort produce the ascending list of the overlaid map |
| `MemRepo.MemRepo.PutIntervals` | internal/store/memory.go:75-80 | replaces the key's intervals and no other key's |
| `MemRepo.PutTwice` | internal/store/memory.go:62-69 | putting a and then b is putting a + b |
| `Outside.World.Now` | internal/store/store.go:98 | the reading is the script's for this call, and is recorded |
| `Outside.World.Ask` | internal/store/store.go:133 | upstream's answer is the script's for this very request, and both are recorded |
| `Store.Repository.Intervals` | internal/store/sqlitestore/sqlitestore.go:95-114 | inside the key's lock: the stored rows in any order, or the script's error; the call is recorded |
| `Store.Repository.PutBars` | internal/store/repository.go:18-19 | inside the key's lock: all of the bars are upserted or, on the script's error, none; the call is recorded and the journal gains exactly that write |
| `Store.Repository.PutIntervals` | internal/store/repository.go:20-21 | inside the key's lock: the set is replaced or, on the script's error, left alone; the call is recorded and the journal gains exactly that write |
| `Store.Store.FetchOne` | internal/store/store.go:133-143 | asks upstream for exactly this symbol, timeframe and range, and writes exactly what it answered |
| `Store.Store.FetchRanges` | internal/store/store.go:128-144 | asks for the planned ranges in order up to the first failure, each answer written before the next request, and accumulates exactly the credits, the fresh bars and whether a write failed |
| `Store.Store.PersistCoverage` | internal/store/store.go:146-154 | calls the repository with the normalized union if and only if something was fetched and no bar write failed; whether that succeeded is the script's decision |
| `Store.Store.Serve` | internal/store/store.go:161-169 | reads the window once, and serves the repository's slice, or after a failed write that slice overlaid with the fetched bars |
| `Store.Store.LockKey` | internal/store/store.go:64-76 | with the mutex free, finds or makes the key's lock, counts the reference and takes that mutex |
| `Store.Store.Unlock` | internal/store/store.go:77-85 | releases the mutex, drops the reference, and deletes the entry exactly when it was the last |
| `Store.Store.Get` | internal/store/store.go:88-170 | from any state and whatever the script decides: makes exactly the calls of `GetCalls` in order, between one clock reading and the release of the key's own mutex, performs exactly the writes of `GetWrites`, returns `GetResult`, touches no other key, and leaves the locks and their counts as found |
| `Calls.InsideMeans` | internal/store/store.go:100-101 | being inside a key's lock means that it was taken and has not been released since |
| `Calls.RepositoryCallsInside` | internal/store/store.go:100-101 | every repository call ever made under a key comes after its lock was taken, with no release in between |
| `Calls.RequestsMade` | internal/store/store.go:132-137 | one `Get` asks upstream for exactly the first ranges of its plan, each once, in order, with their own bounds and for its own symbol and timeframe: all of them, or up to and including the first that fails |
| `Calls.Determined` | internal/store/store.go:88-170 | the script leaves the code no choice: the clock, the calls, the writes and the result of a `Get` are those of the environment computed from the script and the position of its first call |
| `Calls.WorkingGet` | internal/store/store.go:146-169 | when no call fails, a `Get` asks for its whole plan, credits all of it in one last write, and returns the stored bars of the window; the same request at the same instant is then a hit |
| `GetProperties.RetryPlansTheRest` | internal/store/store.go:146-159 | after a `Get` that credited the n ranges it fetched, the same request at the same instant plans exactly the other ranges |
| `GetProperties.ServesComplete` | internal/store/store.go:161-169 | every successful `Get` serves exactly the window's slice of the bars it found, if it could read them, overlaid with those it fetched |
| `GetProperties.DegradedIsInvisible` | internal/store/store.go:161-168 | whichever writes fail, if every fetch and the final read succeed the result is the one with every write succeeding |
| `GetProperties.UnreadableCompleteIff` | internal/store/store.go:163-167 | when writes failed and the final read fails too, `Get` still reports success; with an upstream that answers exactly and retracts nothing, its list is complete if and only if every stored bar of the window is asked for by some planned range |
| `GetProperties.UnreadableLosesIff` | internal/store/store.go:163-167 | for every state and request: some such call, with such an upstream, reports success and misses a stored bar if and only if there is something to fetch and a stored bar of the window is asked for by no planned range |
| `GetProperties.UnreadableLosesBars` | internal/store/store.go:163-167 | a concrete loss: history with a bar at 2 is stored, the bar fetched at 7 is not written, the final read fails, and the call succeeds without the bar at 2 |
| `Runs.NoCoverageWithoutData` | internal/store/store.go:132-154 | after any number of the writes of any run, every covered instant lies in a successful fetch all of whose bars are already in the store |
| `Runs.NothingShrinks` | internal/store/store.go:132-154 | stored coverage and the set of stored bar times only grow along the writes of any run |
| `Runs.HistoryRefetchedOnlyInSlivers` | internal/store/coverage.go:149-152 | once covered and historical, an instant is fetched again only to bridge a run of at most a minute |
| `Staleness.BoundedStaleness` | internal/store/store.go:90-170 | in any run, with any failures and any clock order, at an instant no `Get` took for history a successful `Get` serves upstream's answer to the last visible fetch asking for it, which comes no earlier in the run than one stamped at or after now - ttl; or the instant is forgiven and newer than now - ttl; or the call could not read the repository, did not ask for it, and serves nothing there |
| `Staleness.BoundedStalenessInLockOrder` | internal/store/store.go:97-101 | with clocks read in lock order, at every live instant of the window the bar served is upstream's answer to the last fetch asking for it and that very fetch is stamped at or after now - ttl, with the same two exceptions |
| `ClockOrder.AlwaysFreshIff` | internal/store/store.go:97-101 | the exact condition, on the clocks alone: a live instant is served freshly whatever was asked and whatever failed, if and only if no earlier clock's live zone begins after it or now is at most the ttl |
| `ClockOrder.LateClockServesStale` | internal/store/store.go:97-101 | wherever that condition fails, a run of three `Get`s with an honest upstream in which the third, with its clock read early, succeeds although no fetch it can see is fresh at the instant |
| `Answers.ServesLatestAnswers` | internal/store/store.go:90-170 | every successful `Get` returns an ascending list that holds, at every time of the window, exactly upstream's answer at the latest fetch asking for it among those written earlier, if it could read the repository, and its own |
| `Answers.ServesFinalAnswers` | internal/store/coverage.go:149-152 | what "immutable history" amounts to: a successful `Get` serves the value upstream has settled on since fetch i, in every market its fetches are compatible with, if and only if some visible fetch from i on asked for the time |
| `Answers.CompleteIsReplay` | internal/store/store.go:132-169 | what a call can see is the replay, in order, of the written fetches, if it could read them, and its own |
| `Polling.TtlReachableIff` | internal/store/coverage.go:163-178 | after one cold `Get` at n0, a `Get` up to its own clock n1 fetches nothing if and only if the clock has not moved or n1 < n0 + ttl |
| `Polling.TtlIsReachable` | internal/store/coverage.go:165-169 | any number of such `Get`s within the ttl make no fetch and no write |
| `Polling.FrontierSpacing` | internal/store/coverage.go:165-176 | when every window ends at most `lag` before the clock of its `Get` and looks back at least the ttl, the greatest stored end stays put or advances by at least ttl - lag, whatever fails |
| `Polling.FrontierMovesRarely` | internal/store/coverage.go:168-169 | so the number of times it moves, times ttl - lag (the lemma's gap), is at most the time it covers, however many polls there are |
| `Locks.PerformKeeps` | internal/store/store.go:64-86 | every step of every thread keeps: s.mu and each key's mutex are held by exactly the thread inside, refs counts the threads between taking and dropping a reference, entries and the lock objects threads name agree |
| `Locks.EveryInterleaving` | internal/store/store.go:64-86 | that invariant holds after any sequence of steps of any threads |
| `Locks.AtMostOneInside` | internal/store/store.go:64-86 | in every interleaving at most one thread is inside per key |
| `Locks.EntryWhileReferenced` | internal/store/store.go:66-86 | whenever s.mu is free, a key has an entry if and only if some thread holds a reference; its count is their number, and it is the object each of them named |
| `Locks.EmptyWhenIdle` | internal/store/store.go:80-83 | with no `Get` in flight the map is empty |
| `Locks.SomeThreadCanStep` | internal/store/store.go:66-86 | no deadlock: while a `Get` is unfinished some thread can take a step |
| `Interleaving.PerformKeeps` | internal/store/store.go:64-170 | every step of every thread, at the lock or in the body of `Get`, keeps the writes under each key serial and every result that of its turn |
| `Interleaving.Serializable` | internal/store/store.go:64-170 | at every moment of every interleaving, with any requests and failures, the writes under a key are those of its finished `Get`s run whole in order, followed at most by one more `Get` as far as it has got |
| `Interleaving.ResultsAreSerial` | internal/store/store.go:64-170 | every result is that of its `Get` run whole after those before it in the order |
| `Interleaving.ResultsAreRuns` | internal/store/store.go:64-170 | from an empty repository that is a step of a run, so the theorems about runs hold of concurrent `Get`s |
| `Interleaving.RealTimeOrder` | internal/store/store.go:64-65 | the order agrees with real time: a `Get` that returned before another of its key was called comes before it |
| `Interleaving.NoCoverageWithoutDataEver` | internal/store/store.go:132-154 | at every moment of every interleaving each covered instant lies in a successful fetch all of whose bars are already in the store |
| `Progress.BodyReturns` | internal/store/store.go:88-170 | in every interleaving, whatever fails: a thread that is inside has returned after at most one step for each range it plans and three more |
| `Progress.WorkProgress` | internal/store/store.go:103-169 | every step of an unreturned body strictly decreases the number of steps left |
| `Progress.StartShape` | internal/store/store.go:103-126 | a failed interval read returns the failure at once; otherwise the plan of the state found decides between the final read and fetching |
| `Progress.ReadShape` | internal/store/store.go:161-169 | the `Get` returns whether or not the final read succeeds, and a failed one returns the failure, or the fetched bars of the window after a failed write |
| `Progress.CallKept` | internal/store/store.go:90-98 | a thread runs to its end with the key, window and clock it was called with |
| `Progress.NeverStuck` | internal/store/store.go:64-170 | no deadlock: while a `Get` is unfinished some thread's next step, in the body or at the lock, moves it, whatever the world answers |
| `ConcurrentFreshness.ResultsAreFresh` | internal/store/store.go:64-170 | in every interleaving from an empty repository, each successful result is bounded by the ttl as in a run of the `Get`s before it: by a fetch no earlier than a fresh one at instants none took for history, and by the very fetch served when the clocks follow the order |
| `SingleFlight.SingleFlight` | internal/store/store.go:64-170 | when nothing fails under a key, concurrent `Get`s for it with one window and clock, beside any `Get`s of other keys whatever fails there, never fetch more than the first plan has ranges; once one has returned they have fetched exactly that many, and every result is that of one `Get` alone |
| `SingleFlight.AllReturnTheSame` | internal/store/store.go:64-170 | any two finished threads have returned the same bars |
| `Poller.TimeframeOfKey` | internal/store/store.go:62 | a key made with a separator-free timeframe gives that timeframe back |
| `Poller.Poller.Poll` | internal/poller/poller.go:86 | one `Get` is the next step of its key's run, with exactly that step's calls and result, and no other key's |
| `Poller.Poller.Refresh` | internal/poller/poller.go:74-94 | a round begins by reading the clock; whatever fails, it leaves every key's journal the journal of a run, grown by `Get`s of the window up to that reading for exactly the polled keys |

## Left out

- `Repository` is one class with the in-memory contents, not an interface with two implementations; each operation fails when the world's script says so, at any time it likes, and rows of intervals come back in any order, which covers both adapters. They require the key's lock, which the repository itself does not, because `Get` is their only caller and must hold it.
- A failed write has no effect: the in-memory repository never fails and the SQLite one writes in a transaction. A write that commits and still reports an error is not modelled.
- A failed read yields no bars. The SQLite adapter can return a prefix of the rows together with an error, which the degraded path would serve.
- Store.Store.Get: is one thread's view of the lock, with the key's mutex free when it arrives, since a sequential method cannot wait; waiting, and the steps of other threads in between, are `Locks` and `Interleaving`. Its body, its loop, its coverage write and its final read are methods of their own here. The clock and the `Env` it reports are those of the recorded calls (`Calls.Determined`).
- SingleFlight.SingleFlight: assumes that nothing fails under the key and that its callers share one clock reading and one window; a failing leader leaves its remaining ranges to the next caller, which is `GetProperties.RetryPlansTheRest`.
- Answers.ServesLatestAnswers: assumes that upstream answers with exactly its bars in the requested range and never retracts one, since nothing in the cache deletes a bar.
- Staleness.BoundedStaleness: says nothing of an instant that some `Get` with a later clock already took for history, because normalization may then have overstated its freshness; `ClockOrder.AlwaysFreshIff` shows that nothing more can be said unless now is at most the ttl.
- Poller.Poller.Refresh: runs alone, with no lock held, and assumes timeframes without '|', the separator of the keys; the poller's table of windows is a function given to it, and its ticker is not modelled.
- Planner.Coalesce: on empty or inverted intervals says only that the result is empty exactly when the input is; `Plan`, its only caller, passes non-empty ones.
- `sort.Slice` is an insertion sort proved to give some ascending permutation, which is all the callers rely on.
- Fairness of the mutexes: the lock theorems are about safety and the absence of deadlock, not about when a given thread gets its turn; `Progress.BodyReturns` bounds the steps of a `Get` that has the lock, not its wait for it.
- Context cancellation, panics, 64-bit nanosecond overflow and monotonic clock readings: instants are unbounded integers and clocks never read before the zero time.
- The SQL text, pragmas, float storage, `Close`, tracing, counters and logs: no effect on what is proved here.
- The HTTP API, the Alpaca client, configuration and the range tables: callers and constants, represented by the request, the clock and the two durations of a timeframe.
