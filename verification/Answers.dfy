/** Which upstream answer each served bar is, over every run. */
module Answers {
  import opened Wrappers
  import opened Timeline
  import opened Bars
  import opened Planner
  import opened Journal
  import opened GetProperties
  import opened Runs

  // ---- the fetches a Get can see ----

  ghost function StoredEvents(journal: seq<Write>): seq<FetchEvent> {
    if journal == [] then
      []
    else
      var n := |journal| - 1;
      StoredEvents(journal[..n]) + if journal[n].StoredBars? then [journal[n].event] else []
  }

  ghost function FetchedEvents(ws: seq<Write>): seq<FetchEvent> {
    if ws == [] then
      []
    else
      var n := |ws| - 1;
      FetchedEvents(ws[..n]) + if ws[n].Credited? then [] else [ws[n].event]
  }

  /** The fetches behind a result: those written by earlier Gets, if this one could read the
      repository, then all of its own. */
  ghost function Visible(cfg: Config, steps: seq<Step>, s: Step): seq<FetchEvent> {
    (if s.env.readOk then StoredEvents(Run(cfg, steps)) else [])
    + FetchedEvents(GetWrites(StateOf(cfg, steps), WindowOf(cfg, s), s.env))
  }

  lemma {:induction false} StoredEventIn(journal: seq<Write>, i: nat)
    requires i < |journal| && journal[i].StoredBars?
    ensures journal[i].event in StoredEvents(journal)
  {
    var n := |journal| - 1;
    if i < n {
      StoredEventIn(journal[..n], i);
    }
  }

  lemma {:induction false} FetchedEventIn(ws: seq<Write>, i: nat)
    requires i < |ws| && !ws[i].Credited?
    ensures ws[i].event in FetchedEvents(ws)
  {
    var n := |ws| - 1;
    if i < n {
      FetchedEventIn(ws[..n], i);
    }
  }

  lemma {:induction false} StoredEventFrom(journal: seq<Write>, e: FetchEvent) returns (i: nat)
    requires e in StoredEvents(journal)
    ensures i < |journal| && journal[i] == StoredBars(e)
  {
    var n := |journal| - 1;
    if journal[n] == StoredBars(e) {
      i := n;
    } else {
      i := StoredEventFrom(journal[..n], e);
    }
  }

  lemma {:induction false} FetchedEventFrom(ws: seq<Write>, e: FetchEvent) returns (i: nat)
    requires e in FetchedEvents(ws)
    ensures i < |ws| && !ws[i].Credited? && ws[i].event == e
  {
    var n := |ws| - 1;
    if !ws[n].Credited? && ws[n].event == e {
      i := n;
    } else {
      i := FetchedEventFrom(ws[..n], e);
    }
  }

  /** Every fetch of a Get is of one of its planned ranges and carries its clock. */
  lemma GetEvent(st: KeyState, w: Window, env: Env, i: nat)
    requires i < |GetWrites(st, w, env)| && !GetWrites(st, w, env)[i].Credited?
    ensures i < |PlanSpec(st.intervals, w)|
    ensures GetWrites(st, w, env)[i].event.range == PlanSpec(st.intervals, w)[i]
    ensures GetWrites(st, w, env)[i].event.stamp == w.now
    ensures i < |env.outcomes| && env.outcomes[i].Fetched?
    ensures GetWrites(st, w, env)[i].event.bars == env.outcomes[i].bars
  {
  }

  // ---- which answer is served ----

  ghost function Replay(events: seq<FetchEvent>): BarMap {
    if events == [] then map[] else Replay(events[..|events| - 1]) + ToMap(events[|events| - 1].bars)
  }

  lemma {:induction false} StoreIsReplay(journal: seq<Write>)
    ensures After(journal).bars == Replay(StoredEvents(journal))
  {
    if journal != [] {
      var n := |journal| - 1;
      StoreIsReplay(journal[..n]);
      if journal[n].StoredBars? {
        var before := StoredEvents(journal[..n]);
        assert StoredEvents(journal)[..|before|] == before;
      } else {
        assert StoredEvents(journal) == StoredEvents(journal[..n]);
      }
    }
  }

  lemma {:induction false} ReplayFetched(events: seq<FetchEvent>, plan: seq<Range>, now: Time,
                                         outcomes: seq<RangeOutcome>, n: nat)
    requires AllFetched(plan, outcomes, n)
    ensures Replay(events + FetchedEvents(FetchWrites(plan, now, outcomes, n)))
         == Replay(events) + ToMap(FreshBars(outcomes, n))
  {
    if n == 0 {
      assert events + [] == events;
    } else {
      ReplayFetched(events, plan, now, outcomes, n - 1);
      FreshBarsAppend(outcomes, n);
      LastFetched(plan, now, outcomes, n);
      ReplayOne(events, FetchedEvents(FetchWrites(plan, now, outcomes, n - 1)), ToMap(FreshBars(outcomes, n - 1)),
        EventOf(plan[n - 1], now, outcomes[n - 1]));
    }
  }

  lemma ReplayOne(events: seq<FetchEvent>, prev: seq<FetchEvent>, got: BarMap, e: FetchEvent)
    requires Replay(events + prev) == Replay(events) + got
    ensures Replay(events + (prev + [e])) == Replay(events) + (got + ToMap(e.bars))
  {
    ReplayAppend(events + prev, e);
    EventsAssoc(events, prev, e);
    OverlayAssoc(Replay(events), got, ToMap(e.bars));
  }

  lemma EventsAssoc(a: seq<FetchEvent>, b: seq<FetchEvent>, e: FetchEvent)
    ensures a + b + [e] == a + (b + [e])
  {
  }

  lemma OverlayAssoc(a: BarMap, b: BarMap, c: BarMap)
    ensures a + b + c == a + (b + c)
  {
  }

  lemma FreshBarsAppend(outcomes: seq<RangeOutcome>, n: nat)
    requires 0 < n <= |outcomes| && forall i :: 0 <= i < n ==> outcomes[i].Fetched?
    ensures ToMap(FreshBars(outcomes, n)) == ToMap(FreshBars(outcomes, n - 1)) + ToMap(outcomes[n - 1].bars)
  {
    ToMapConcat(FreshBars(outcomes, n - 1), outcomes[n - 1].bars);
  }

  lemma LastFetched(plan: seq<Range>, now: Time, outcomes: seq<RangeOutcome>, n: nat)
    requires AllFetched(plan, outcomes, n) && n > 0
    ensures FetchedEvents(FetchWrites(plan, now, outcomes, n))
         == FetchedEvents(FetchWrites(plan, now, outcomes, n - 1)) + [EventOf(plan[n - 1], now, outcomes[n - 1])]
  {
    assert FetchWrites(plan, now, outcomes, n)[..n - 1] == FetchWrites(plan, now, outcomes, n - 1);
  }

  lemma ReplayAppend(events: seq<FetchEvent>, e: FetchEvent)
    ensures Replay(events + [e]) == Replay(events) + ToMap(e.bars)
  {
    assert (events + [e])[..|events|] == events;
  }

  lemma FetchedEventsOfGet(st: KeyState, w: Window, env: Env)
    requires env.intervalsOk
    ensures FetchedEvents(GetWrites(st, w, env))
         == FetchedEvents(FetchWrites(PlanSpec(st.intervals, w), w.now, env.outcomes, Fetches(st, w, env)))
  {
    var ws, n := GetWrites(st, w, env), Fetches(st, w, env);
    var fetches := FetchWrites(PlanSpec(st.intervals, w), w.now, env.outcomes, n);
    if CoverageCredited(st, w, env) {
      assert ws[..|ws| - 1] == fetches;
    } else {
      assert ws == fetches;
    }
  }

  /** The bars a Get can see are the replay of the visible fetches, in order. */
  lemma CompleteIsReplay(cfg: Config, steps: seq<Step>, s: Step)
    requires s.env.intervalsOk
    ensures Complete(StateOf(cfg, steps), WindowOf(cfg, s), s.env) == Replay(Visible(cfg, steps, s))
  {
    var st, w, env := StateOf(cfg, steps), WindowOf(cfg, s), s.env;
    var found := if env.readOk then StoredEvents(Run(cfg, steps)) else [];
    StoreIsReplay(Run(cfg, steps));
    FetchedEventsOfGet(st, w, env);
    ReplayFetched(found, PlanSpec(st.intervals, w), w.now, env.outcomes, Fetches(st, w, env));
    assert Replay(found) == if env.readOk then st.bars else map[];
  }

  function At(m: BarMap, t: Time): Option<Payload> {
    if t in m then Some(m[t]) else None
  }

  /** The fetch asks upstream for the time; both ends of a range are included. */
  predicate Asks(e: FetchEvent, t: Time) {
    e.range.from <= t <= e.range.to
  }

  /** Upstream answers each fetch with exactly its bars in the inclusive range; it may correct
      a bar between fetches but never retracts one. */
  ghost predicate Honest(events: seq<FetchEvent>, market: seq<BarMap>) {
    && |events| == |market|
    && (forall i :: 0 <= i < |events| ==>
          ToMap(events[i].bars) == Slice(market[i], events[i].range.from, events[i].range.to))
    && (forall i, j :: 0 <= i < j < |market| ==> market[i].Keys <= market[j].Keys)
  }

  /** Upstream's answer for a time at the latest fetch that asked for it. */
  ghost function LatestAnswer(events: seq<FetchEvent>, market: seq<BarMap>, t: Time): Option<Payload>
    requires |events| == |market|
  {
    if events == [] then
      None
    else
      var n := |events| - 1;
      if Asks(events[n], t) then At(market[n], t)
      else LatestAnswer(events[..n], market[..n], t)
  }

  lemma {:induction false} ReplayedIsKnown(events: seq<FetchEvent>, market: seq<BarMap>, t: Time)
    requires Honest(events, market) && t in Replay(events)
    ensures exists i :: 0 <= i < |events| && t in market[i]
  {
    var n := |events| - 1;
    if t in ToMap(events[n].bars) {
      assert t in market[n];
    } else {
      ReplayedIsKnown(events[..n], market[..n], t);
      var i :| 0 <= i < n && t in market[..n][i];
      assert t in market[i];
    }
  }

  lemma {:induction false} ReplayIsLatest(events: seq<FetchEvent>, market: seq<BarMap>, t: Time)
    requires Honest(events, market)
    ensures At(Replay(events), t) == LatestAnswer(events, market, t)
  {
    if events != [] {
      var n := |events| - 1;
      var e := events[n];
      ReplayIsLatest(events[..n], market[..n], t);
      assert t in ToMap(e.bars) <==> t in market[n] && Asks(e, t);
      if t in Replay(events[..n]) {
        ReplayedIsKnown(events[..n], market[..n], t);
        var i :| 0 <= i < n && t in market[..n][i];
        assert market[i].Keys <= market[n].Keys;
      }
    }
  }

  /** What a Get returns for one time: nothing when it fails. */
  ghost function ServedAt(cfg: Config, steps: seq<Step>, s: Step, t: Time): Option<Payload> {
    match GetResult(StateOf(cfg, steps), WindowOf(cfg, s), s.env)
    case Ok(bars) => At(ToMap(bars), t)
    case Failed => None
  }

  /** The cache agrees with upstream: a successful Get returns an ascending list which, at
      every time of the window, holds exactly upstream's answer at the latest visible fetch
      that asked for that time, and holds nothing outside the window. */
  lemma ServesLatestAnswers(cfg: Config, steps: seq<Step>, s: Step, market: seq<BarMap>)
    requires GetResult(StateOf(cfg, steps), WindowOf(cfg, s), s.env).Ok?
    requires Honest(Visible(cfg, steps, s), market)
    ensures var bars := GetResult(StateOf(cfg, steps), WindowOf(cfg, s), s.env).bars;
      && AscendingBars(bars)
      && (forall t :: s.start <= t <= s.end ==> At(ToMap(bars), t) == LatestAnswer(Visible(cfg, steps, s), market, t))
      && (forall i :: 0 <= i < |bars| ==> s.start <= bars[i].t <= s.end)
  {
    var st, w := StateOf(cfg, steps), WindowOf(cfg, s);
    ServesComplete(st, w, s.env);
    CompleteIsReplay(cfg, steps, s);
    var m := Slice(Complete(st, w, s.env), s.start, s.end);
    ListingExact(m);
    RepresentsToMap(Listing(m), m);
    forall t | s.start <= t <= s.end ensures At(m, t) == LatestAnswer(Visible(cfg, steps, s), market, t) {
      ReplayIsLatest(Visible(cfg, steps, s), market, t);
    }
  }

  /** Fetch i asks for the time and no later one does. */
  ghost predicate LastAsking(events: seq<FetchEvent>, t: Time, i: nat) {
    i < |events| && Asks(events[i], t) && forall j :: i < j < |events| ==> !Asks(events[j], t)
  }

  /** The latest answer is that of the last fetch asking for the time, which is fetch k or a
      later one for any k that asks. */
  lemma {:induction false} LastAnswers(events: seq<FetchEvent>, market: seq<BarMap>, t: Time, k: nat) returns (i: nat)
    requires |events| == |market| && k < |events| && Asks(events[k], t)
    ensures k <= i && LastAsking(events, t, i) && LatestAnswer(events, market, t) == At(market[i], t)
  {
    var n := |events| - 1;
    if Asks(events[n], t) {
      i := n;
    } else {
      i := LastAnswers(events[..n], market[..n], t, k);
    }
  }

  lemma {:induction false} NoAnswer(events: seq<FetchEvent>, market: seq<BarMap>, t: Time)
    requires |events| == |market| && forall i :: 0 <= i < |events| ==> !Asks(events[i], t)
    ensures LatestAnswer(events, market, t) == None
  {
    if events != [] {
      NoAnswer(events[..|events| - 1], market[..|events| - 1], t);
    }
  }

  // ---- when a bar is final ----

  /** Upstream answers for the time with v at fetch i and at every later one. */
  ghost predicate SettledFrom(market: seq<BarMap>, t: Time, i: nat, v: Option<Payload>) {
    forall j :: i <= j < |market| ==> At(market[j], t) == v
  }

  lemma {:induction false} LatestIsFinal(events: seq<FetchEvent>, market: seq<BarMap>, t: Time, i: nat,
                                         v: Option<Payload>)
    requires |events| == |market| && i < |events| && Asks(events[i], t)
    requires SettledFrom(market, t, i, v)
    ensures LatestAnswer(events, market, t) == v
  {
    var n := |events| - 1;
    if !Asks(events[n], t) {
      LatestIsFinal(events[..n], market[..n], t, i, v);
    }
  }

  /** Any other answer. */
  function Other(v: Option<Payload>): Option<Payload> {
    match v
    case None => Some(Payload(0.0, 0.0, 0.0, 0.0, 0, 0, 0.0))
    case Some(p) => Some(p.(v := p.v + 1))
  }

  /** The market that settles on another payload for the time from fetch i on. */
  ghost function Overwritten(market: seq<BarMap>, t: Time, i: nat, p: Payload): seq<BarMap> {
    seq(|market|, j requires 0 <= j < |market| => if j >= i then market[j][t := p] else market[j])
  }

  /** No fetch could have told the difference. */
  lemma OverwrittenHonest(events: seq<FetchEvent>, market: seq<BarMap>, t: Time, i: nat, p: Payload)
    requires Honest(events, market) && forall j :: i <= j < |events| ==> !Asks(events[j], t)
    ensures Honest(events, Overwritten(market, t, i, p))
  {
    var m := Overwritten(market, t, i, p);
    forall j | 0 <= j < |events|
      ensures ToMap(events[j].bars) == Slice(m[j], events[j].range.from, events[j].range.to)
    {
      if j >= i {
        SliceElsewhere(market[j], t, p, events[j].range.from, events[j].range.to);
      }
    }
    forall j, k | 0 <= j < k < |m| ensures m[j].Keys <= m[k].Keys {
      assert market[j].Keys <= market[k].Keys;
    }
  }

  lemma SliceElsewhere(m: BarMap, t: Time, p: Payload, from: Time, to: Time)
    requires !(from <= t <= to)
    ensures Slice(m[t := p], from, to) == Slice(m, from, to)
  {
  }

  /** When a served bar is final: what upstream has settled on for a time since fetch i is what a
      successful Get serves, in every market its fetches are compatible with, if and only if some
      visible fetch from i on asked for the time.  So ageing into history is not enough: a time
      last fetched while upstream could still change it keeps the answer of that fetch. */
  lemma ServesFinalAnswers(cfg: Config, steps: seq<Step>, s: Step, market: seq<BarMap>, t: Time, i: nat)
    requires GetResult(StateOf(cfg, steps), WindowOf(cfg, s), s.env).Ok?
    requires Honest(Visible(cfg, steps, s), market) && s.start <= t <= s.end
    ensures var events := Visible(cfg, steps, s);
      (forall m, v :: Honest(events, m) && SettledFrom(m, t, i, v) ==> ServedAt(cfg, steps, s, t) == v)
      <==> exists j :: i <= j < |events| && Asks(events[j], t)
  {
    var events := Visible(cfg, steps, s);
    if j :| i <= j < |events| && Asks(events[j], t) {
      forall m, v | Honest(events, m) && SettledFrom(m, t, i, v) ensures ServedAt(cfg, steps, s, t) == v {
        ServesLatestAnswers(cfg, steps, s, m);
        LatestIsFinal(events, m, t, j, v);
      }
    } else {
      var v := Other(ServedAt(cfg, steps, s, t));
      OverwrittenHonest(events, market, t, i, v.value);
      assert SettledFrom(Overwritten(market, t, i, v.value), t, i, v);
    }
  }
}
