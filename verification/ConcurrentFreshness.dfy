/** What the results of concurrent Gets are worth: the staleness bounds of runs hold of every result
    in every interleaving. */
module ConcurrentFreshness {
  import opened Timeline
  import opened Journal
  import opened Runs
  import opened Answers
  import opened Staleness
  import opened Interleaving
  import opened Wrappers

  predicate LiveAt(cfg: Config, s: Step, p: Time) {
    s.start <= p < s.end && p >= s.now - cfg.live
  }

  /** Whatever upstream's market was, each live instant that no earlier Get took for history is
      served freshly by a Get after these. */
  ghost predicate StepFresh(cfg: Config, before: seq<Step>, s: Step) {
    forall market, p ::
      (&& LiveAt(cfg, s, p) && RealClocks(before) && LiveThroughout(cfg, before, p)
       && Honest(Visible(cfg, before, s), market))
      ==> ServedFreshly(cfg, before, s, market, p)
  }

  /** When the clocks follow the order, each live instant is served from a fresh fetch. */
  ghost predicate StepFreshInOrder(cfg: Config, before: seq<Step>, s: Step) {
    forall market, p ::
      LiveAt(cfg, s, p) && Clocked(before + [s]) && Honest(Visible(cfg, before, s), market)
      ==> ServedFromFresh(cfg, before, s, market, p)
  }

  lemma OkStepFresh(cfg: Config, before: seq<Step>, s: Step)
    requires cfg.ttl >= 0 && GetResult(StateOf(cfg, before), Runs.WindowOf(cfg, s), s.env).Ok?
    ensures StepFresh(cfg, before, s)
  {
    forall market, p |
      (&& LiveAt(cfg, s, p) && RealClocks(before) && LiveThroughout(cfg, before, p)
       && Honest(Visible(cfg, before, s), market))
      ensures ServedFreshly(cfg, before, s, market, p)
    {
      BoundedStaleness(cfg, before, s, market, p);
    }
  }

  lemma OkStepFreshInOrder(cfg: Config, before: seq<Step>, s: Step)
    requires cfg.ttl >= 0 && GetResult(StateOf(cfg, before), Runs.WindowOf(cfg, s), s.env).Ok?
    ensures StepFreshInOrder(cfg, before, s)
  {
    forall market, p | LiveAt(cfg, s, p) && Clocked(before + [s]) && Honest(Visible(cfg, before, s), market)
      ensures ServedFromFresh(cfg, before, s, market, p)
    {
      BoundedStalenessInLockOrder(cfg, before, s, market, p);
    }
  }

  /** The result is that of its Get after those before it in the order, and is as fresh. */
  ghost predicate FreshResult(cfg: Config, call: Call, res: Result, turn: nat, done: seq<Step>) {
    && InRun(cfg, call, res, turn, done)
    && StepFresh(cfg, done[..turn], done[turn])
    && StepFreshInOrder(cfg, done[..turn], done[turn])
  }

  lemma RunResultFresh(cfg: Config, call: Call, res: Result, turn: nat, done: seq<Step>)
    requires cfg.ttl >= 0 && InRun(cfg, call, res, turn, done) && res.Ok?
    ensures FreshResult(cfg, call, res, turn, done)
  {
    OkStepFresh(cfg, done[..turn], done[turn]);
    OkStepFreshInOrder(cfg, done[..turn], done[turn]);
  }

  /** The thread's Get returned bars, from a repository that was empty at the start. */
  predicate Succeeded(m: Machine, world: World, t: Locks.Tid) {
    && t in m.bodies && t in m.calls && m.bodies[t].Returned? && m.bodies[t].res.Ok?
    && world.disk(m.calls[t].key) == EMPTY_STATE && world.cfg(m.calls[t].key).ttl >= 0
  }

  ghost predicate ResultsFresh(m: Machine, world: World) {
    forall t :: Succeeded(m, world, t) ==>
      FreshResult(world.cfg(m.calls[t].key), m.calls[t], m.bodies[t].res, m.bodies[t].turn,
        Lookup(m.history, m.calls[t].key))
  }

  /** Bounded staleness of concurrent Gets: in every interleaving from an empty repository, each
      successful result is that of its Get in the run of the Gets before it, and so is bounded by
      the ttl as the theorems about runs say. */
  lemma ResultsAreFresh(world: World, actions: seq<Action>)
    ensures ResultsFresh(Execute(world, actions), world)
  {
    ResultsAreRuns(world, actions);
    RunResultsFresh(Execute(world, actions), world);
  }

  lemma RunResultsFresh(m: Machine, world: World)
    requires Aligned(m) && ResultsInRuns(m, world)
    ensures ResultsFresh(m, world)
  {
    forall t | Succeeded(m, world, t)
      ensures FreshResult(world.cfg(m.calls[t].key), m.calls[t], m.bodies[t].res, m.bodies[t].turn,
        Lookup(m.history, m.calls[t].key))
    {
      RunResultFresh(world.cfg(m.calls[t].key), m.calls[t], m.bodies[t].res, m.bodies[t].turn,
        Lookup(m.history, m.calls[t].key));
    }
  }
}
