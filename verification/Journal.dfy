/** One Get as its writes and its result: a function of the key's state, the request and every
    choice the outside world makes.  A key's state is what its journal of writes leaves. */
module Journal {
  import opened Timeline
  import opened Bars
  import opened Planner
  import opened Normalizer

  /** What a repository holds under one key. */
  datatype KeyState = KeyState(bars: BarMap, intervals: seq<Interval>)

  /** A successful upstream fetch: the range asked for, the clock of its Get and the answer. */
  datatype FetchEvent = FetchEvent(range: Range, stamp: Time, bars: seq<Bar>)

  /** A repository write attempted by Get.  LostBars is a PutBars that failed, without effect. */
  datatype Write =
    | StoredBars(event: FetchEvent)
    | LostBars(event: FetchEvent)
    | Credited(intervals: seq<Interval>)

  const EMPTY_STATE := KeyState(map[], [])

  function Apply(st: KeyState, write: Write): KeyState {
    match write
    case StoredBars(e) => st.(bars := st.bars + ToMap(e.bars))
    case LostBars(_) => st
    case Credited(ivs) => st.(intervals := ivs)
  }

  function ApplyAll(st: KeyState, writes: seq<Write>): KeyState {
    if writes == [] then
      st
    else
      var n := |writes| - 1;
      Apply(ApplyAll(st, writes[..n]), writes[n])
  }

  function After(journal: seq<Write>): KeyState {
    ApplyAll(EMPTY_STATE, journal)
  }

  lemma {:induction false} ApplyAllConcat(st: KeyState, a: seq<Write>, b: seq<Write>)
    ensures ApplyAll(st, a + b) == ApplyAll(ApplyAll(st, a), b)
  {
    if b == [] {
      assert a + b == a;
    } else {
      var n := |b| - 1;
      ApplyAllConcat(st, a, b[..n]);
      assert (a + b)[..|a + b| - 1] == a + b[..n];
    }
  }

  // ---- the outside world ----

  /** What became of one range: its fetch failed, or it returned bars that were or were not
      written. */
  datatype RangeOutcome = FetchFailed | Fetched(bars: seq<Bar>, stored: bool)

  /** Every choice the world makes during one Get. */
  datatype Env = Env(intervalsOk: bool, outcomes: seq<RangeOutcome>, creditOk: bool, readOk: bool)

  datatype Result = Ok(bars: seq<Bar>) | Failed

  // ---- one Get ----

  /** How many of the first k ranges are fetched before the first failure. */
  ghost function FetchedCount(outcomes: seq<RangeOutcome>, k: nat): (n: nat)
    ensures n <= k && n <= |outcomes|
    ensures forall i :: 0 <= i < n ==> outcomes[i].Fetched?
    ensures n < k ==> n == |outcomes| || outcomes[n].FetchFailed?
  {
    if k == 0 then
      0
    else
      var n := FetchedCount(outcomes, k - 1);
      if n == k - 1 && n < |outcomes| && outcomes[n].Fetched? then k else n
  }

  ghost predicate AllFetched(plan: seq<Range>, outcomes: seq<RangeOutcome>, n: nat) {
    n <= |plan| && n <= |outcomes| && forall i :: 0 <= i < n ==> outcomes[i].Fetched?
  }

  ghost predicate AllStored(outcomes: seq<RangeOutcome>, n: nat) {
    n <= |outcomes| && forall i :: 0 <= i < n ==> outcomes[i].Fetched? && outcomes[i].stored
  }

  function EventOf(r: Range, now: Time, o: RangeOutcome): FetchEvent
    requires o.Fetched?
  {
    FetchEvent(r, now, o.bars)
  }

  function WriteOf(r: Range, now: Time, o: RangeOutcome): Write
    requires o.Fetched?
  {
    if o.stored then StoredBars(EventOf(r, now, o)) else LostBars(EventOf(r, now, o))
  }

  ghost function FetchWrites(plan: seq<Range>, now: Time, outcomes: seq<RangeOutcome>, n: nat): (ws: seq<Write>)
    requires AllFetched(plan, outcomes, n)
    ensures |ws| == n
    ensures forall i :: 0 <= i < n ==> ws[i] == WriteOf(plan[i], now, outcomes[i])
  {
    seq(n, i requires 0 <= i < n => WriteOf(plan[i], now, outcomes[i]))
  }

  /** The intervals that n fetched ranges earn. */
  ghost function Credits(plan: seq<Range>, now: Time, n: nat): (ivs: seq<Interval>)
    requires n <= |plan|
    ensures |ivs| == n
    ensures forall i :: 0 <= i < n ==> ivs[i] == Interval(plan[i].from, plan[i].to, now)
  {
    seq(n, i requires 0 <= i < n => Interval(plan[i].from, plan[i].to, now))
  }

  ghost function FreshBars(outcomes: seq<RangeOutcome>, n: nat): seq<Bar>
    requires n <= |outcomes| && forall i :: 0 <= i < n ==> outcomes[i].Fetched?
  {
    if n == 0 then [] else FreshBars(outcomes, n - 1) + outcomes[n - 1].bars
  }

  ghost function Fetches(st: KeyState, w: Window, env: Env): (n: nat)
    ensures AllFetched(PlanSpec(st.intervals, w), env.outcomes, n)
  {
    FetchedCount(env.outcomes, |PlanSpec(st.intervals, w)|)
  }

  /** Whether the stored coverage is replaced: something was fetched and every bar write and
      the coverage write itself succeeded. */
  ghost predicate CoverageCredited(st: KeyState, w: Window, env: Env) {
    var n := Fetches(st, w, env);
    n > 0 && AllStored(env.outcomes, n) && env.creditOk
  }

  ghost function CreditedSet(st: KeyState, w: Window, n: nat): seq<Interval>
    requires n <= |PlanSpec(st.intervals, w)|
  {
    Normalized(st.intervals + Credits(PlanSpec(st.intervals, w), w.now, n), w.LiveStart())
  }

  /** The writes of one Get, in order. */
  ghost function GetWrites(st: KeyState, w: Window, env: Env): seq<Write> {
    if !env.intervalsOk then
      []
    else
      var plan, n := PlanSpec(st.intervals, w), Fetches(st, w, env);
      FetchWrites(plan, w.now, env.outcomes, n)
      + if CoverageCredited(st, w, env) then [Credited(CreditedSet(st, w, n))] else []
  }

  /** The result of one Get. */
  ghost function GetResult(st: KeyState, w: Window, env: Env): Result {
    var plan, n := PlanSpec(st.intervals, w), Fetches(st, w, env);
    var end := ApplyAll(st, GetWrites(st, w, env));
    var repoBars := if env.readOk then Slice(end.bars, w.start, w.end) else map[];
    if !env.intervalsOk || n < |plan| then
      Failed
    else if plan != [] && !CoverageCredited(st, w, env) then
      Ok(Clipped(Listing(repoBars + ToMap(FreshBars(env.outcomes, n))), w.start, w.end))
    else if env.readOk then
      Ok(Listing(repoBars))
    else
      Failed
  }

  // ---- how a Get unfolds ----

  lemma {:induction false} CountOf(outcomes: seq<RangeOutcome>, k: nat)
    requires |outcomes| <= k && forall i :: 0 <= i < |outcomes| ==> outcomes[i].Fetched?
    ensures FetchedCount(outcomes, k) == |outcomes|
  {
  }

  /** The writes of a Get that fetched the first |outcomes| ranges of its plan. */
  lemma MissWrites(st: KeyState, w: Window, outcomes: seq<RangeOutcome>, creditOk: bool, readOk: bool)
    requires AllFetched(PlanSpec(st.intervals, w), outcomes, |outcomes|)
    ensures var env, plan, n := Env(true, outcomes, creditOk, readOk), PlanSpec(st.intervals, w), |outcomes|;
      && Fetches(st, w, env) == n
      && GetWrites(st, w, env) == FetchWrites(plan, w.now, outcomes, n)
           + if n > 0 && AllStored(outcomes, n) && creditOk
             then [Credited(Normalized(st.intervals + Credits(plan, w.now, n), w.LiveStart()))]
             else []
  {
    CountOf(outcomes, |PlanSpec(st.intervals, w)|);
  }

  lemma MissResult(st: KeyState, w: Window, outcomes: seq<RangeOutcome>, creditOk: bool, readOk: bool, end: KeyState)
    requires AllFetched(PlanSpec(st.intervals, w), outcomes, |outcomes|)
    requires |outcomes| == |PlanSpec(st.intervals, w)| > 0
    requires end == ApplyAll(st, GetWrites(st, w, Env(true, outcomes, creditOk, false)))
    ensures GetWrites(st, w, Env(true, outcomes, creditOk, readOk))
         == GetWrites(st, w, Env(true, outcomes, creditOk, false))
    ensures var env, n := Env(true, outcomes, creditOk, readOk), |outcomes|;
      var repoBars := if readOk then Slice(end.bars, w.start, w.end) else map[];
      GetResult(st, w, env) ==
        if !(AllStored(outcomes, n) && creditOk) then
          Ok(Clipped(Listing(repoBars + ToMap(FreshBars(outcomes, n))), w.start, w.end))
        else if readOk then Ok(Listing(repoBars)) else Failed
  {
    MissWrites(st, w, outcomes, creditOk, readOk);
    MissWrites(st, w, outcomes, creditOk, false);
  }

  lemma PartialResult(st: KeyState, w: Window, outcomes: seq<RangeOutcome>, creditOk: bool, readOk: bool)
    requires AllFetched(PlanSpec(st.intervals, w), outcomes, |outcomes|)
    requires |outcomes| < |PlanSpec(st.intervals, w)|
    ensures GetResult(st, w, Env(true, outcomes, creditOk, readOk)) == Failed
  {
    CountOf(outcomes, |PlanSpec(st.intervals, w)|);
  }

  /** A Get whose plan is empty writes nothing and reads the repository as it is. */
  lemma HitResult(st: KeyState, w: Window, env: Env)
    requires env.intervalsOk && PlanSpec(st.intervals, w) == []
    ensures GetWrites(st, w, env) == []
    ensures GetResult(st, w, env) ==
      if env.readOk then Ok(Listing(Slice(st.bars, w.start, w.end))) else Failed
  {
    assert Fetches(st, w, env) == 0;
  }
}
