/** Every run of Gets on one key, whatever fails: what the journal of writes guarantees at
    every point, including between two writes of one Get. */
module Runs {
  import opened Timeline
  import opened Bars
  import opened Planner
  import opened PlanProperties
  import opened Normalizer
  import opened Journal
  import opened GetProperties

  /** The two durations of a timeframe. */
  datatype Config = Config(ttl: Time, live: Time)

  /** One Get: the request, the clock it read and what the world did. */
  datatype Step = Step(start: Time, end: Time, now: Time, env: Env)

  function WindowOf(cfg: Config, s: Step): Window {
    Window(s.start, s.end, s.now, cfg.ttl, cfg.live)
  }

  /** The journal left by a run of Gets from an empty repository. */
  ghost function Run(cfg: Config, steps: seq<Step>): seq<Write> {
    if steps == [] then
      []
    else
      var n := |steps| - 1;
      var journal := Run(cfg, steps[..n]);
      journal + GetWrites(After(journal), WindowOf(cfg, steps[n]), steps[n].env)
  }

  ghost function StateOf(cfg: Config, steps: seq<Step>): KeyState {
    After(Run(cfg, steps))
  }

  lemma RunAppend(cfg: Config, steps: seq<Step>, s: Step)
    ensures Run(cfg, steps + [s]) == Run(cfg, steps) + GetWrites(StateOf(cfg, steps), WindowOf(cfg, s), s.env)
    ensures StateOf(cfg, steps + [s])
         == ApplyAll(StateOf(cfg, steps), GetWrites(StateOf(cfg, steps), WindowOf(cfg, s), s.env))
  {
    assert (steps + [s])[..|steps|] == steps;
    ApplyAllConcat(EMPTY_STATE, Run(cfg, steps), GetWrites(StateOf(cfg, steps), WindowOf(cfg, s), s.env));
  }

  /** What one fetch of [from, to] at `now` leaves in an empty set. */
  ghost function OneFetch(cfg: Config, from: Time, to: Time, now: Time): seq<Interval> {
    Normalized([Interval(from, to, now)], now - cfg.live)
  }

  // ---- no coverage without data ----

  /** A successful fetch whose range holds the instant has had all its bars written. */
  ghost predicate Backed(journal: seq<Write>, p: Time) {
    exists i :: 0 <= i < |journal| && journal[i].StoredBars? && InRange(journal[i].event.range, p)
  }

  predicate InRange(r: Range, p: Time) {
    r.from <= p < r.to
  }

  ghost predicate CoverageBacked(journal: seq<Write>) {
    forall p :: Covered(After(journal).intervals, p) ==> Backed(journal, p)
  }

  lemma BackedPersists(journal: seq<Write>, more: seq<Write>, p: Time)
    requires Backed(journal, p)
    ensures Backed(journal + more, p)
  {
    var i :| 0 <= i < |journal| && journal[i].StoredBars? && InRange(journal[i].event.range, p);
    assert (journal + more)[i] == journal[i];
  }

  /** Bars never disappear: every bar of a written fetch still has its time in the store. */
  lemma {:induction false} WrittenTimesPersist(journal: seq<Write>, i: nat, t: Time)
    requires i < |journal| && journal[i].StoredBars? && t in ToMap(journal[i].event.bars)
    ensures t in After(journal).bars
  {
    var n := |journal| - 1;
    if i < n {
      WrittenTimesPersist(journal[..n], i, t);
    }
  }

  /** The first k writes of a Get, k short of its coverage write. */
  lemma PartialGet(st: KeyState, w: Window, env: Env, k: nat)
    requires k <= |GetWrites(st, w, env)|
    requires env.intervalsOk ==> k <= Fetches(st, w, env)
    ensures ApplyAll(st, GetWrites(st, w, env)[..k]).intervals == st.intervals
  {
    FetchWritesKeepIntervals(st, GetWrites(st, w, env)[..k]);
  }

  lemma CreditedCoverage(st: KeyState, w: Window, n: nat, p: Time)
    requires n <= |PlanSpec(st.intervals, w)|
    ensures Covered(CreditedSet(st, w, n), p) <==>
      Covered(st.intervals, p) || InRanges(PlanSpec(st.intervals, w)[..n], p)
  {
    var plan := PlanSpec(st.intervals, w);
    NormalizedExact(st.intervals + Credits(plan, w.now, n), w.LiveStart());
    CoveredConcat(st.intervals, Credits(plan, w.now, n), p);
    CreditsCover(plan, w.now, n, p);
  }

  lemma CreditedBacked(journal: seq<Write>, w: Window, env: Env, p: Time)
    requires CoverageBacked(journal) && env.intervalsOk && CoverageCredited(After(journal), w, env)
    requires Covered(CreditedSet(After(journal), w, Fetches(After(journal), w, env)), p)
    ensures Backed(journal + GetWrites(After(journal), w, env), p)
  {
    var st := After(journal);
    var plan, n, ws := PlanSpec(st.intervals, w), Fetches(st, w, env), GetWrites(st, w, env);
    CreditedCoverage(st, w, n, p);
    if Covered(st.intervals, p) {
      BackedPersists(journal, ws, p);
    } else {
      var i :| 0 <= i < n && plan[..n][i].from <= p < plan[..n][i].to;
      assert ws[i] == StoredBars(EventOf(plan[i], w.now, env.outcomes[i]));
      assert (journal + ws)[|journal| + i] == ws[i];
      assert InRange(ws[i].event.range, p);
    }
  }

  /** Between any two writes of a Get, coverage stays backed. */
  lemma GetKeepsBacked(journal: seq<Write>, w: Window, env: Env, k: nat)
    requires CoverageBacked(journal) && k <= |GetWrites(After(journal), w, env)|
    ensures CoverageBacked(journal + GetWrites(After(journal), w, env)[..k])
  {
    var st, ws := After(journal), GetWrites(After(journal), w, env);
    ApplyAllConcat(EMPTY_STATE, journal, ws[..k]);
    if !env.intervalsOk || k <= Fetches(st, w, env) {
      PartialGet(st, w, env, k);
      forall p | Covered(st.intervals, p) ensures Backed(journal + ws[..k], p) {
        BackedPersists(journal, ws[..k], p);
      }
    } else {
      assert ws[..k] == ws;
      IntervalsAfter(st, w, env);
      forall p | Covered(After(journal + ws).intervals, p) ensures Backed(journal + ws, p) {
        CreditedBacked(journal, w, env, p);
      }
    }
  }

  lemma {:induction false} RunPrefixBacked(cfg: Config, steps: seq<Step>, k: nat)
    requires k <= |Run(cfg, steps)|
    ensures CoverageBacked(Run(cfg, steps)[..k])
  {
    if steps != [] {
      var n := |steps| - 1;
      var journal := Run(cfg, steps[..n]);
      var ws := GetWrites(After(journal), WindowOf(cfg, steps[n]), steps[n].env);
      if k <= |journal| {
        RunPrefixBacked(cfg, steps[..n], k);
        assert Run(cfg, steps)[..k] == journal[..k];
      } else {
        RunPrefixBacked(cfg, steps[..n], |journal|);
        assert journal[..|journal|] == journal;
        GetKeepsBacked(journal, WindowOf(cfg, steps[n]), steps[n].env, k - |journal|);
        assert Run(cfg, steps)[..k] == journal + ws[..k - |journal|];
      }
    }
  }

  /** No coverage without data: after any number k of the writes of any run (so also after a
      crash between two writes, and after any pattern of failures), an instant of a stored
      interval lies in a successful fetch, all of whose bars are already in the store. */
  lemma NoCoverageWithoutData(cfg: Config, steps: seq<Step>, k: nat, p: Time) returns (i: nat)
    requires k <= |Run(cfg, steps)|
    requires Covered(After(Run(cfg, steps)[..k]).intervals, p)
    ensures i < k && Run(cfg, steps)[i].StoredBars? && InRange(Run(cfg, steps)[i].event.range, p)
    ensures forall t :: t in ToMap(Run(cfg, steps)[i].event.bars) ==> t in After(Run(cfg, steps)[..k]).bars
  {
    var done := Run(cfg, steps)[..k];
    RunPrefixBacked(cfg, steps, k);
    assert Backed(done, p);
    i :| 0 <= i < |done| && done[i].StoredBars? && InRange(done[i].event.range, p);
    forall t | t in ToMap(done[i].event.bars) ensures t in After(done).bars {
      WrittenTimesPersist(done, i, t);
    }
  }

  // ---- coverage and bars never shrink ----

  ghost predicate Grows(a: KeyState, b: KeyState) {
    && a.bars.Keys <= b.bars.Keys
    && forall p :: Covered(a.intervals, p) ==> Covered(b.intervals, p)
  }

  /** One more write of a Get. */
  lemma GetWriteGrows(st: KeyState, w: Window, env: Env, k: nat)
    requires k < |GetWrites(st, w, env)|
    ensures Grows(ApplyAll(st, GetWrites(st, w, env)[..k]), ApplyAll(st, GetWrites(st, w, env)[..k + 1]))
  {
    var ws := GetWrites(st, w, env);
    assert ws[..k + 1] == ws[..k] + [ws[k]];
    assert ws[..k + 1][..k] == ws[..k];
    PartialGet(st, w, env, k);
    if ws[k].Credited? {
      forall p {:trigger Covered(st.intervals, p)} | Covered(st.intervals, p) ensures Covered(ws[k].intervals, p) {
        CreditedCoverage(st, w, Fetches(st, w, env), p);
      }
    }
  }

  lemma {:induction false} NextWriteGrows(cfg: Config, steps: seq<Step>, k: nat)
    requires k < |Run(cfg, steps)|
    ensures Grows(After(Run(cfg, steps)[..k]), After(Run(cfg, steps)[..k + 1]))
  {
    var n := |steps| - 1;
    var journal := Run(cfg, steps[..n]);
    var w, env := WindowOf(cfg, steps[n]), steps[n].env;
    var ws := GetWrites(After(journal), w, env);
    if k < |journal| {
      NextWriteGrows(cfg, steps[..n], k);
      assert Run(cfg, steps)[..k] == journal[..k] && Run(cfg, steps)[..k + 1] == journal[..k + 1];
    } else {
      var m := k - |journal|;
      GetWriteGrows(After(journal), w, env, m);
      ApplyAllConcat(EMPTY_STATE, journal, ws[..m]);
      ApplyAllConcat(EMPTY_STATE, journal, ws[..m + 1]);
      assert Run(cfg, steps)[..k] == journal + ws[..m] && Run(cfg, steps)[..k + 1] == journal + ws[..m + 1];
    }
  }

  /** Stored coverage and the set of stored bar times only grow along the writes of a run. */
  lemma {:induction false} NothingShrinks(cfg: Config, steps: seq<Step>, k: nat, m: nat)
    requires k <= m <= |Run(cfg, steps)|
    ensures Grows(After(Run(cfg, steps)[..k]), After(Run(cfg, steps)[..m]))
    decreases m - k
  {
    if k < m {
      NextWriteGrows(cfg, steps, k);
      NothingShrinks(cfg, steps, k + 1, m);
    }
  }

  /** History is not fetched twice: once an instant is covered and historical, every later plan
      of the run that includes it does so only to bridge a run of held instants at most a
      minute long between two instants it had to fetch. */
  lemma HistoryRefetchedOnlyInSlivers(cfg: Config, steps: seq<Step>, more: seq<Step>, s: Step, p: Time)
    requires Covered(StateOf(cfg, steps).intervals, p) && p < s.now - cfg.live
    requires InRanges(PlanSpec(StateOf(cfg, steps + more).intervals, WindowOf(cfg, s)), p)
    ensures Sliver(NeedOf(StateOf(cfg, steps + more).intervals, WindowOf(cfg, s)), WindowOf(cfg, s), p)
  {
    var ivs, w := StateOf(cfg, steps + more).intervals, WindowOf(cfg, s);
    LaterCovers(cfg, steps, more, p);
    var iv :| iv in ivs && Covers(iv, p);
    assert Held(ivs, w, p);
    PlanExact(ivs, w, p);
  }

  lemma {:induction false} LaterCovers(cfg: Config, steps: seq<Step>, more: seq<Step>, p: Time)
    requires Covered(StateOf(cfg, steps).intervals, p)
    ensures Covered(StateOf(cfg, steps + more).intervals, p)
  {
    if more == [] {
      assert steps + more == steps;
    } else {
      var prev, s := more[..|more| - 1], more[|more| - 1];
      LaterCovers(cfg, steps, prev, p);
      assert steps + more == steps + prev + [s];
      RunAppend(cfg, steps + prev, s);
      var st, w := StateOf(cfg, steps + prev), WindowOf(cfg, s);
      IntervalsAfter(st, w, s.env);
      if s.env.intervalsOk && CoverageCredited(st, w, s.env) {
        CreditedCoverage(st, w, Fetches(st, w, s.env), p);
      }
    }
  }
}
