/** Clocks are read before the lock is taken, so a Get may run after one whose clock was later.
    Exactly when that cannot cost freshness. */
module ClockOrder {
  import opened Timeline
  import opened Bars
  import opened Planner
  import opened PlanProperties
  import opened Normalizer
  import opened NormalizerProperties
  import opened Journal
  import opened GetProperties
  import opened Runs
  import opened Answers
  import opened Staleness

  ghost predicate ClocksUpTo(steps: seq<Step>, latest: Time) {
    forall i :: 0 <= i < |steps| ==> ZERO_TIME <= steps[i].now <= latest
  }

  /** A successful Get at `now`, with a window around t, after a run whose clocks were at most
      `latest`, with an honest upstream. */
  ghost predicate PossibleGet(cfg: Config, latest: Time, now: Time, steps: seq<Step>, s: Step, market: seq<BarMap>,
                              t: Time)
  {
    && ClocksUpTo(steps, latest) && s.now == now && s.start <= t < s.end
    && GetResult(StateOf(cfg, steps), WindowOf(cfg, s), s.env).Ok?
    && Honest(Visible(cfg, steps, s), market)
  }

  /** Whatever was asked and whatever failed, t is served freshly at `now`. */
  ghost predicate AlwaysFresh(cfg: Config, latest: Time, now: Time, t: Time) {
    forall steps, s, market ::
      PossibleGet(cfg, latest, now, steps, s, market, t) ==> ServedFreshly(cfg, steps, s, market, t)
  }

  /** A Get whose one fetch finds no bars and whose every write succeeds. */
  function QuietStep(start: Time, end: Time, now: Time): Step {
    Step(start, end, now, Env(true, [Fetched([], true)], true, true))
  }

  /** Every written fetch was made by some Get of the run, inside its window and at its clock. */
  lemma {:induction false} EventFromStep(cfg: Config, steps: seq<Step>, e: FetchEvent) returns (i: nat)
    requires e in StoredEvents(Run(cfg, steps))
    ensures i < |steps| && e.stamp == steps[i].now && steps[i].start <= e.range.from && e.range.to <= steps[i].end
    ensures exists j :: 0 <= j < |steps[i].env.outcomes| && GotBars(steps[i].env.outcomes[j], e.bars)
  {
    assert steps != [];
    var n := |steps| - 1;
    var journal, w := Run(cfg, steps[..n]), WindowOf(cfg, steps[n]);
    var ws := GetWrites(After(journal), w, steps[n].env);
    StoredEventsConcat(journal, ws);
    if e in StoredEvents(journal) {
      i := EventFromStep(cfg, steps[..n], e);
    } else {
      i := n;
      var j := StoredEventFrom(ws, e);
      GetEvent(After(journal), w, steps[n].env, j);
      PlanBounds(After(journal).intervals, w);
      assert GotBars(steps[n].env.outcomes[j], e.bars);
    }
  }

  predicate GotBars(o: RangeOutcome, bars: seq<Bar>) {
    o.Fetched? && o.bars == bars
  }

  // ---- where it cannot ----

  /** Within a ttl of the zero time every fetch is fresh. */
  lemma YoungClockFetch(cfg: Config, steps: seq<Step>, s: Step, t: Time) returns (k: nat)
    requires RealClocks(steps) && s.now <= cfg.ttl && s.env.readOk
    requires Held(StateOf(cfg, steps).intervals, WindowOf(cfg, s), t)
    ensures FreshFetch(cfg, steps, s, t, k)
  {
    var journal := Run(cfg, steps);
    RunPrefixBacked(cfg, steps, |journal|);
    assert journal[..|journal|] == journal;
    assert Covered(After(journal).intervals, t);
    assert Backed(journal, t);
    var i :| 0 <= i < |journal| && journal[i].StoredBars? && InRange(journal[i].event.range, t);
    StoredEventIn(journal, i);
    var j := EventFromStep(cfg, steps, journal[i].event);
    k := VisibleIndex(cfg, steps, s, journal[i].event);
  }

  lemma VisibleIndex(cfg: Config, steps: seq<Step>, s: Step, e: FetchEvent) returns (k: nat)
    requires s.env.readOk && e in StoredEvents(Run(cfg, steps))
    ensures k < |Visible(cfg, steps, s)| && Visible(cfg, steps, s)[k] == e
  {
    assert e in Visible(cfg, steps, s);
    k :| 0 <= k < |Visible(cfg, steps, s)| && Visible(cfg, steps, s)[k] == e;
  }

  lemma FreshWhere(cfg: Config, latest: Time, now: Time, steps: seq<Step>, s: Step, market: seq<BarMap>, t: Time)
    requires cfg.ttl >= 0 && t >= now - cfg.live && (latest - cfg.live <= t || now <= cfg.ttl)
    requires PossibleGet(cfg, latest, now, steps, s, market, t)
    ensures ServedFreshly(cfg, steps, s, market, t)
  {
    if latest - cfg.live <= t {
      BoundedStaleness(cfg, steps, s, market, t);
    } else {
      if s.env.readOk && Held(StateOf(cfg, steps).intervals, WindowOf(cfg, s), t) {
        var k := YoungClockFetch(cfg, steps, s, t);
      }
      HeldFreshSuffices(cfg, steps, s, market, t);
    }
  }

  // ---- where it can ----

  /** Two Gets that finished before the third took the lock, the second with the latest clock: it
      fetches just before what the first fetched, and takes it all for history. */
  function LateSteps(latest: Time, t: Time): seq<Step> {
    LateStart(t) + [QuietStep(t - 2, t - 1, latest)]
  }

  function LateStart(t: Time): seq<Step> {
    [QuietStep(t - 1, t + 1, ZERO_TIME)]
  }

  function LateGet(now: Time, t: Time): Step {
    QuietStep(t, t + 1, now)
  }

  lemma OneRangeCredit(st: KeyState, w: Window, r: Range)
    requires PlanSpec(st.intervals, w) == [r]
    ensures CreditedSet(st, w, 1) == Normalized(st.intervals + [Interval(r.from, r.to, w.now)], w.LiveStart())
  {
    OneCredit(PlanSpec(st.intervals, w), w.now, 1);
  }

  lemma QuietCredit(cfg: Config, st: KeyState, start: Time, end: Time, now: Time)
    requires PlanSpec(st.intervals, Window(start, end, now, cfg.ttl, cfg.live)) == [Range(start, end)]
    ensures var s := QuietStep(start, end, now);
      ApplyAll(st, GetWrites(st, WindowOf(cfg, s), s.env)).intervals
        == Normalized(st.intervals + [Interval(start, end, now)], now - cfg.live)
  {
    var s := QuietStep(start, end, now);
    var w := WindowOf(cfg, s);
    IntervalsAfter(st, w, s.env);
    assert Fetches(st, w, s.env) == 1;
    OneRangeCredit(st, w, Range(start, end));
  }

  lemma QuietRun(cfg: Config, steps: seq<Step>, ivs: seq<Interval>, start: Time, end: Time, now: Time)
    requires StateOf(cfg, steps).intervals == ivs && start < end
    requires forall p :: start <= p < end ==> !Covered(ivs, p)
    ensures StateOf(cfg, steps + [QuietStep(start, end, now)]).intervals
         == Normalized(ivs + [Interval(start, end, now)], now - cfg.live)
  {
    UncoveredPlan(ivs, Window(start, end, now, cfg.ttl, cfg.live));
    QuietCredit(cfg, StateOf(cfg, steps), start, end, now);
    RunAppend(cfg, steps, QuietStep(start, end, now));
  }

  /** A window without coverage is fetched whole. */
  lemma UncoveredPlan(ivs: seq<Interval>, w: Window)
    requires w.start < w.end && forall p :: w.start <= p < w.end ==> !Covered(ivs, p)
    ensures PlanSpec(ivs, w) == [Range(w.start, w.end)]
  {
    forall p | w.start <= p < w.end ensures !Held(ivs, w, p) {
      assert !Covered(ivs, p);
    }
    SameHeldSamePlan(ivs, [], w);
    ColdPlan(w);
  }

  lemma OneMoreCovers(ivs: seq<Interval>, iv: Interval, hb: Time, lo: Time, hi: Time)
    requires lo <= iv.from < iv.to <= hi
    requires forall p :: Covered(ivs, p) || Covers(iv, p) <==> lo <= p < hi
    ensures forall p :: Covered(ivs + [iv], p) <==> lo <= p < hi
    ensures forall p :: Covered(Normalized(ivs + [iv], hb), p) <==> lo <= p < hi
  {
    NormalizedExact(ivs + [iv], hb);
    forall p ensures Covered(ivs + [iv], p) <==> lo <= p < hi {
      CoveredConcat(ivs, [iv], p);
      CoveredSingle(iv, p);
    }
  }

  lemma NothingRun(cfg: Config)
    ensures StateOf(cfg, []).intervals == []
  {
  }

  lemma LateStartAlone(t: Time)
    ensures [] + [QuietStep(t - 1, t + 1, ZERO_TIME)] == LateStart(t)
  {
  }

  lemma LateFirst(cfg: Config, t: Time) returns (ivs: seq<Interval>)
    ensures StateOf(cfg, LateStart(t)).intervals == ivs
    ensures forall p :: Covered(ivs, p) <==> t - 1 <= p < t + 1
  {
    NothingRun(cfg);
    QuietRun(cfg, [], [], t - 1, t + 1, ZERO_TIME);
    LateStartAlone(t);
    OneMoreCovers([], Interval(t - 1, t + 1, ZERO_TIME), ZERO_TIME - cfg.live, t - 1, t + 1);
    ivs := Normalized([] + [Interval(t - 1, t + 1, ZERO_TIME)], ZERO_TIME - cfg.live);
  }

  /** What the second Get leaves. */
  ghost function Merged(ivs: seq<Interval>, latest: Time, hb: Time, t: Time): seq<Interval> {
    Normalized(ivs + [Interval(t - 2, t - 1, latest)], hb)
  }

  lemma LateMerge(ivs: seq<Interval>, latest: Time, hb: Time, t: Time) returns (fa: Time)
    requires (forall p :: Covered(ivs, p) <==> t - 1 <= p < t + 1) && hb > t
    ensures Merged(ivs, latest, hb, t) == [Interval(t - 2, t + 1, fa)] && fa >= latest
  {
    var last := Interval(t - 2, t - 1, latest);
    var ins := ivs + [last];
    OneMoreCovers(ivs, last, hb, t - 2, t + 1);
    fa := HistoryIsOneSegment(ins, hb, t - 2, t + 1);
    NewestIsMax(ins, t - 2, t - 1);
    assert last in ins && Spans(last, t - 2, t - 1);
    assert FreshAt(ins, t - 2) <= fa;
  }

  lemma LateSecond(cfg: Config, latest: Time, t: Time) returns (fa: Time)
    requires latest - cfg.live > t
    ensures StateOf(cfg, LateSteps(latest, t)).intervals == [Interval(t - 2, t + 1, fa)] && fa >= latest
  {
    var ivs := LateFirst(cfg, t);
    fa := LateMerge(ivs, latest, latest - cfg.live, t);
    LateCredit(cfg, latest, t, ivs, [Interval(t - 2, t + 1, fa)]);
  }

  lemma LateCredit(cfg: Config, latest: Time, t: Time, ivs: seq<Interval>, next: seq<Interval>)
    requires StateOf(cfg, LateStart(t)).intervals == ivs && next == Merged(ivs, latest, latest - cfg.live, t)
    requires forall p :: Covered(ivs, p) <==> t - 1 <= p < t + 1
    ensures StateOf(cfg, LateSteps(latest, t)).intervals == next
  {
    QuietRun(cfg, LateStart(t), ivs, t - 2, t - 1, latest);
  }

  lemma HeldPlansNothing(ivs: seq<Interval>, w: Window)
    requires forall p :: w.start <= p < w.end ==> Held(ivs, w, p)
    ensures NeedOf(ivs, w) == iset{} && PlanSpec(ivs, w) == []
  {
    PlanEmptyIff(ivs, w);
  }

  lemma LateHit(cfg: Config, latest: Time, now: Time, t: Time)
    requires cfg.ttl >= 0 && t >= now - cfg.live && latest - cfg.live > t
    ensures var ivs, w := StateOf(cfg, LateSteps(latest, t)).intervals, WindowOf(cfg, LateGet(now, t));
      NeedOf(ivs, w) == iset{} && PlanSpec(ivs, w) == []
  {
    var ivs, w := StateOf(cfg, LateSteps(latest, t)).intervals, WindowOf(cfg, LateGet(now, t));
    var fa := LateSecond(cfg, latest, t);
    forall p | w.start <= p < w.end ensures Held(ivs, w, p) {
      assert ivs[0] in ivs && Covers(ivs[0], p);
    }
    HeldPlansNothing(ivs, w);
  }

  /** A hit sees the stored fetches and serves from them. */
  lemma HitSeesStored(cfg: Config, steps: seq<Step>, s: Step)
    requires s.env.intervalsOk && s.env.readOk && PlanSpec(StateOf(cfg, steps).intervals, WindowOf(cfg, s)) == []
    ensures Visible(cfg, steps, s) == StoredEvents(Run(cfg, steps))
    ensures GetResult(StateOf(cfg, steps), WindowOf(cfg, s), s.env).Ok?
  {
    HitResult(StateOf(cfg, steps), WindowOf(cfg, s), s.env);
  }

  /** The late run found no bars, and only its first Get asked for t. */
  lemma LateEvents(cfg: Config, latest: Time, t: Time, steps: seq<Step>, e: FetchEvent)
    requires steps == LateSteps(latest, t) && e in StoredEvents(Run(cfg, steps))
    ensures e.bars == [] && (Asks(e, t) ==> e.stamp == ZERO_TIME)
  {
    var i := EventFromStep(cfg, steps, e);
  }

  ghost function EmptyMarket(n: nat): seq<BarMap> {
    seq(n, i => map[])
  }

  lemma LateHonest(cfg: Config, latest: Time, t: Time, events: seq<FetchEvent>)
    requires events == StoredEvents(Run(cfg, LateSteps(latest, t)))
    ensures Honest(events, EmptyMarket(|events|))
  {
    forall i | 0 <= i < |events| ensures events[i].bars == [] {
      LateEvents(cfg, latest, t, LateSteps(latest, t), events[i]);
    }
  }

  lemma LateUnfresh(cfg: Config, latest: Time, now: Time, t: Time, steps: seq<Step>, s: Step, k: nat)
    requires steps == LateSteps(latest, t) && s.now == now > cfg.ttl
    requires Visible(cfg, steps, s) == StoredEvents(Run(cfg, steps))
    ensures !FreshFetch(cfg, steps, s, t, k)
  {
    var events := Visible(cfg, steps, s);
    if k < |events| {
      LateEvents(cfg, latest, t, steps, events[k]);
    }
  }

  /** When an earlier Get may have taken t for history and the clock is past the ttl, a run serves
      t from nothing fresh: the fetch of t at the zero time is stored beside one at the latest
      clock, which takes it for history and gives it its own stamp. */
  lemma LateClockServesStale(cfg: Config, latest: Time, now: Time, t: Time) returns (market: seq<BarMap>)
    requires cfg.ttl >= 0 && latest >= ZERO_TIME && t >= now - cfg.live
    requires latest - cfg.live > t && now > cfg.ttl
    ensures PossibleGet(cfg, latest, now, LateSteps(latest, t), LateGet(now, t), market, t)
    ensures !ServedFreshly(cfg, LateSteps(latest, t), LateGet(now, t), market, t)
  {
    var steps, s := LateSteps(latest, t), LateGet(now, t);
    LateHit(cfg, latest, now, t);
    HitSeesStored(cfg, steps, s);
    market := LateIsPossible(cfg, latest, now, t, steps, s);
    LateIsStale(cfg, latest, now, t, steps, s, market);
  }

  lemma LateIsPossible(cfg: Config, latest: Time, now: Time, t: Time, steps: seq<Step>, s: Step)
    returns (market: seq<BarMap>)
    requires steps == LateSteps(latest, t) && s == LateGet(now, t) && latest >= ZERO_TIME
    requires Visible(cfg, steps, s) == StoredEvents(Run(cfg, steps))
    requires GetResult(StateOf(cfg, steps), WindowOf(cfg, s), s.env).Ok?
    ensures PossibleGet(cfg, latest, now, steps, s, market, t)
  {
    market := EmptyMarket(|Visible(cfg, steps, s)|);
    LateHonest(cfg, latest, t, Visible(cfg, steps, s));
  }

  lemma LateIsStale(cfg: Config, latest: Time, now: Time, t: Time, steps: seq<Step>, s: Step, market: seq<BarMap>)
    requires steps == LateSteps(latest, t) && s == LateGet(now, t) && now > cfg.ttl
    requires Visible(cfg, steps, s) == StoredEvents(Run(cfg, steps))
    requires NeedOf(StateOf(cfg, steps).intervals, WindowOf(cfg, s)) == iset{}
    ensures !ServedFreshly(cfg, steps, s, market, t)
  {
    forall k: nat ensures !FreshFetch(cfg, steps, s, t, k) {
      LateUnfresh(cfg, latest, now, t, steps, s, k);
    }
    NothingForgiven(cfg, steps, s, t);
  }

  lemma NothingForgiven(cfg: Config, steps: seq<Step>, s: Step, t: Time)
    requires NeedOf(StateOf(cfg, steps).intervals, WindowOf(cfg, s)) == iset{}
    ensures !ForgivenRecently(cfg, steps, s, t)
  {
    ForgivenIsNeeded(NeedOf(StateOf(cfg, steps).intervals, WindowOf(cfg, s)), WindowOf(cfg, s), t);
  }

  lemma ForgivenIsNeeded(need: iset<Time>, w: Window, p: Time)
    ensures Forgiven(need, w, p) ==> p in need
  {
    if Forgiven(need, w, p) {
      var a :| a <= p < w.end && TailStart(need, w, a);
    }
  }

  /** The exact condition, on the clocks alone: a live instant is always served freshly if and
      only if no earlier Get can have taken it for history, or no fetch can be older than the
      ttl. */
  lemma AlwaysFreshIff(cfg: Config, latest: Time, now: Time, t: Time)
    requires cfg.ttl >= 0 && latest >= ZERO_TIME && t >= now - cfg.live
    ensures AlwaysFresh(cfg, latest, now, t) <==> latest - cfg.live <= t || now <= cfg.ttl
  {
    if latest - cfg.live <= t || now <= cfg.ttl {
      forall steps, s, market | PossibleGet(cfg, latest, now, steps, s, market, t)
        ensures ServedFreshly(cfg, steps, s, market, t)
      {
        FreshWhere(cfg, latest, now, steps, s, market, t);
      }
    } else {
      var market := LateClockServesStale(cfg, latest, now, t);
    }
  }
}
