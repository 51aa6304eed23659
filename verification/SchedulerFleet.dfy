/** Which workers are alive, over whole runs. Exits are matched by issue only, so the exit of a worker that was killed
    earlier can drop the handle of the one that has replaced it; here is exactly when that happens and what follows. */
module SchedulerFleet {
  import opened SchedulerTypes
  import opened SchedulerReduce
  import opened SchedulerDrain
  import opened SchedulerInvariant
  import opened SchedulerSafety
  import opened SchedulerRuns
  import opened SchedulerTheorems

  /** The issue a worker was started for. */
  function IssueOf(sh: Shell, h: nat): Id
    requires 0 < h <= |sh.spawns|
  {
    sh.spawns[h - 1].issue.id
  }

  /** Every live worker can be found under its issue. */
  predicate AllHeld(sh: Shell) {
    forall h | h in sh.fleet.live :: 0 < h <= |sh.spawns| && HeldBy(sh.workers, IssueOf(sh, h), h)
  }

  /** No two live workers work on the same issue. */
  predicate OneEach(sh: Shell) {
    forall g, h | g in sh.fleet.live && h in sh.fleet.live && 0 < g <= |sh.spawns| && 0 < h <= |sh.spawns|
                  && IssueOf(sh, g) == IssueOf(sh, h) :: g == h
  }

  /** An exit arrives for an issue that another worker has taken over. */
  predicate Stale(sh: Shell, input: Input) {
    input.WorkerDone? && input.exit.id in sh.workers && sh.workers[input.exit.id] != input.from
  }

  /** No issue has a worker again while a lost one still works on it. */
  predicate NoneReplaced(sh: Shell) {
    forall h | h in sh.fleet.live && h in sh.fleet.strays :: 0 < h <= |sh.spawns| && IssueOf(sh, h) !in sh.workers
  }

  // ---- drains leave the strays alone and revive nobody ----------------------

  predicate Ages(sh: Shell, sh': Shell) {
    && sh.spawns <= sh'.spawns
    && forall h | h in sh'.fleet.live && h <= |sh.spawns| :: h in sh.fleet.live
  }

  lemma StepStrays(w: World, sh: Shell, ev: Event)
    ensures Step(w, sh, ev).fleet.strays == sh.fleet.strays && Ages(sh, Step(w, sh, ev))
    decreases EventRank(ev)
  {
    var r := Reduce(sh.cur, ev, sh.cfg, w.now(|sh.trace|));
    ReduceBelow(sh.cur, ev, sh.cfg, w.now(|sh.trace|));
    ExecAllStrays(w, Folded(sh, ev, r.0), r.1, EventRank(ev));
  }

  lemma ExecAllStrays(w: World, sh: Shell, effs: seq<Effect>, rank: nat)
    requires Below(effs, rank)
    ensures ExecAll(w, sh, effs, rank).fleet.strays == sh.fleet.strays && Ages(sh, ExecAll(w, sh, effs, rank))
    decreases rank, |effs|
  {
    if effs != [] {
      ExecStrays(w, sh, effs[0]);
      ExecAllStrays(w, Exec(w, sh, effs[0]), effs[1..], rank);
    }
  }

  lemma ExecStrays(w: World, sh: Shell, eff: Effect)
    ensures Exec(w, sh, eff).fleet.strays == sh.fleet.strays && Ages(sh, Exec(w, sh, eff))
    decreases EffectRank(eff)
  {
    match eff
    case EffFetchCandidates =>
      if Wired(w) && w.candidates(|sh.trace|).Ok? {
        StepStrays(w, sh, EvCandidatesFetched(w.candidates(|sh.trace|).value));
      }
    case EffRefreshTracker(ids) =>
      if w.deps.refresher && w.deps.workspace && w.refresh(|sh.trace|, ids).Ok? {
        StepStrays(w, sh, EvTrackerRefreshed(ids, w.refresh(|sh.trace|, ids).value));
      }
    case EffRevalidate(issue, attempt) =>
      StepStrays(w, sh, EvRevalidated(issue, attempt, Revalidate(w, |sh.trace|, issue)));
    case EffRetryFetch(req) =>
      if Wired(w) {
        match w.candidates(|sh.trace|) {
          case Err(e) => StepStrays(w, sh, EvRetryResolved(req, [], Some(e)));
          case Ok(issues) => StepStrays(w, sh, EvRetryResolved(req, issues, None));
        }
      }
    case EffSpawn(issue, attempt) =>
      if w.deps.spawner {
        var called := sh.(spawns := sh.spawns + [SpawnCall(sh.cur, issue, attempt)]);
        match w.spawn(|sh.trace|, issue, attempt) {
          case Err(e) => StepStrays(w, called, EvSpawnFailed(issue, attempt, e));
          case Ok(res) => StepStrays(w, Hired(called, issue.id, res), EvSpawned(issue, attempt, res.session));
        }
      }
    case _ =>
  }

  lemma HandleStrays(w: World, sh: Shell, input: Input)
    ensures Handle(w, sh, input).fleet.strays
            == sh.fleet.strays + if Stale(sh, input) then {sh.workers[input.exit.id]} else {}
    ensures Ages(sh, Handle(w, sh, input))
  {
    match input
    case Tick(reload) => StepStrays(w, Reloaded(sh, reload), EvTick(reload.Some?));
    case TimerElapses(_) =>
    case RetryFire(k, reload) =>
      if k < |sh.fires| && reload.Some? {
        var taken := sh.(fires := Without(sh.fires, k), timers := sh.timers - {sh.fires[k].id});
        StepStrays(w, Reloaded(taken, reload), EvRetryDue(sh.fires[k]));
      }
    case WorkerDone(exit, from, reload) => StepStrays(w, Reloaded(Exited(sh, exit, from), reload), EvWorkerExit(exit));
    case Notified(a) => StepStrays(w, sh, EvCodexActivity(a));
  }

  // ---- whole runs -----------------------------------------------------------

  lemma RunCrew(w: World, cfg: Config, inputs: seq<Input>)
    ensures FleetOk(Run(w, Start(cfg), inputs))
  {
    StartKeeps(w, cfg);
    RunKeeps(w, Start(cfg), inputs, UNFROZEN);
    InvParts(w, Run(w, Start(cfg), inputs), NONE, UNFROZEN);
  }

  lemma NoStraysHeld(sh: Shell)
    requires FleetOk(sh) && sh.fleet.strays == {}
    ensures AllHeld(sh) && OneEach(sh)
  {
  }

  /** A stale exit leaves a live worker that no handle leads to. */
  lemma StaleLosesHandle(w: World, sh: Shell, input: Input)
    requires FleetOk(sh) && Stale(sh, input) && FleetOk(Handle(w, sh, input))
    ensures sh.workers[input.exit.id] in Handle(w, sh, input).fleet.live && !AllHeld(Handle(w, sh, input))
  {
    var h := sh.workers[input.exit.id];
    var sh1 := Reloaded(Exited(sh, input.exit, input.from), input.reload);
    var sh' := Handle(w, sh, input);
    HandleStrays(w, sh, input);
    ExitFleet(w, sh1, input.exit);
    assert h in sh'.fleet.live && h in sh'.fleet.strays;
  }

  lemma ExitFleet(w: World, sh: Shell, exit: Exit)
    ensures Step(w, sh, EvWorkerExit(exit)).fleet == sh.fleet
  {
    StepUnfolds(w, sh, EvWorkerExit(exit));
    if exit.id in sh.cur.running {
      ExitStep(w, sh, exit);
    }
  }

  predicate HoldsAt(w: World, cfg: Config, inputs: seq<Input>, holds: Shell -> bool, k: nat)
    requires k <= |inputs|
  {
    holds(Run(w, Start(cfg), inputs[..k]))
  }

  /** At every point of a run. */
  predicate Always(w: World, cfg: Config, inputs: seq<Input>, holds: Shell -> bool) {
    forall k: nat | k <= |inputs| :: HoldsAt(w, cfg, inputs, holds, k)
  }

  lemma HoldsAtEnd(w: World, cfg: Config, inputs: seq<Input>, holds: Shell -> bool)
    ensures HoldsAt(w, cfg, inputs, holds, |inputs|) == holds(Run(w, Start(cfg), inputs))
  {
    assert inputs[..|inputs|] == inputs;
  }

  lemma HoldsEarlier(w: World, cfg: Config, inputs: seq<Input>, holds: Shell -> bool, k: nat)
    requires k < |inputs|
    ensures HoldsAt(w, cfg, inputs, holds, k) == HoldsAt(w, cfg, inputs[..|inputs| - 1], holds, k)
  {
    assert inputs[..k] == inputs[..|inputs| - 1][..k];
  }

  lemma AlwaysSnoc(w: World, cfg: Config, inputs: seq<Input>, holds: Shell -> bool)
    requires inputs != []
    ensures Always(w, cfg, inputs, holds)
            <==> Always(w, cfg, inputs[..|inputs| - 1], holds) && HoldsAt(w, cfg, inputs, holds, |inputs|)
  {
    var front := inputs[..|inputs| - 1];
    forall k: nat | k <= |front|
      ensures HoldsAt(w, cfg, inputs, holds, k) == HoldsAt(w, cfg, front, holds, k)
    {
      HoldsEarlier(w, cfg, inputs, holds, k);
    }
  }

  predicate StaleAt(w: World, cfg: Config, inputs: seq<Input>, k: nat)
    requires k < |inputs|
  {
    Stale(Run(w, Start(cfg), inputs[..k]), inputs[k])
  }

  predicate NeverStale(w: World, cfg: Config, inputs: seq<Input>) {
    forall k: nat | k < |inputs| :: !StaleAt(w, cfg, inputs, k)
  }

  lemma StaleSnoc(w: World, cfg: Config, inputs: seq<Input>)
    requires inputs != []
    ensures var front := inputs[..|inputs| - 1];
            NeverStale(w, cfg, inputs) <==> NeverStale(w, cfg, front) && !StaleAt(w, cfg, inputs, |front|)
  {
    var front := inputs[..|inputs| - 1];
    forall k: nat | k < |front|
      ensures StaleAt(w, cfg, inputs, k) == StaleAt(w, cfg, front, k)
    {
      assert inputs[..k] == front[..k];
    }
  }

  lemma {:induction false} StraysExactly(w: World, cfg: Config, inputs: seq<Input>)
    ensures Run(w, Start(cfg), inputs).fleet.strays == {} <==> NeverStale(w, cfg, inputs)
    decreases |inputs|
  {
    if inputs != [] {
      var front := inputs[..|inputs| - 1];
      StraysExactly(w, cfg, front);
      StaleSnoc(w, cfg, inputs);
      HandleStrays(w, Run(w, Start(cfg), front), inputs[|inputs| - 1]);
    }
  }

  /** Over every run: each live worker stays within the scheduler's reach if and only if no exit ever arrives for an
      issue that another worker has taken over. */
  lemma {:induction false} HeldExactly(w: World, cfg: Config, inputs: seq<Input>)
    ensures Always(w, cfg, inputs, AllHeld) <==> NeverStale(w, cfg, inputs)
    decreases |inputs|
  {
    RunCrew(w, cfg, inputs);
    StraysExactly(w, cfg, inputs);
    if inputs != [] {
      var front := inputs[..|inputs| - 1];
      HeldExactly(w, cfg, front);
      AlwaysSnoc(w, cfg, inputs, AllHeld);
      HoldsAtEnd(w, cfg, inputs, AllHeld);
      StaleSnoc(w, cfg, inputs);
      RunCrew(w, cfg, front);
      if Stale(Run(w, Start(cfg), front), inputs[|inputs| - 1]) {
        StaleLosesHandle(w, Run(w, Start(cfg), front), inputs[|inputs| - 1]);
      } else if NeverStale(w, cfg, inputs) {
        NoStraysHeld(Run(w, Start(cfg), inputs));
      }
    }
  }

  /** Then no issue ever has two live workers. */
  lemma OneWorkerEach(w: World, cfg: Config, inputs: seq<Input>)
    requires NeverStale(w, cfg, inputs)
    ensures OneEach(Run(w, Start(cfg), inputs))
  {
    RunCrew(w, cfg, inputs);
    StraysExactly(w, cfg, inputs);
    NoStraysHeld(Run(w, Start(cfg), inputs));
  }

  lemma ReplacedCrowds(sh: Shell)
    requires FleetOk(sh) && OneEach(sh)
    ensures NoneReplaced(sh)
  {
  }

  lemma StaysApart(w: World, sh: Shell, input: Input)
    requires FleetOk(sh) && OneEach(sh) && NoneReplaced(sh)
    requires FleetOk(Handle(w, sh, input)) && NoneReplaced(Handle(w, sh, input))
    ensures OneEach(Handle(w, sh, input))
  {
    HandleStrays(w, sh, input);
  }

  /** Over every run: no issue ever has two live workers if and only if none is given a new one while a lost one still
      works on it. */
  lemma {:induction false} OneWorkerExactly(w: World, cfg: Config, inputs: seq<Input>)
    ensures Always(w, cfg, inputs, OneEach) <==> Always(w, cfg, inputs, NoneReplaced)
    decreases |inputs|
  {
    var sh' := Run(w, Start(cfg), inputs);
    RunCrew(w, cfg, inputs);
    if inputs != [] {
      var front := inputs[..|inputs| - 1];
      OneWorkerExactly(w, cfg, front);
      AlwaysSnoc(w, cfg, inputs, OneEach);
      AlwaysSnoc(w, cfg, inputs, NoneReplaced);
      HoldsAtEnd(w, cfg, inputs, OneEach);
      HoldsAtEnd(w, cfg, inputs, NoneReplaced);
      RunCrew(w, cfg, front);
      if OneEach(sh') {
        ReplacedCrowds(sh');
      } else if Always(w, cfg, inputs, NoneReplaced) {
        HoldsAtEnd(w, cfg, front, NoneReplaced);
        HoldsAtEnd(w, cfg, front, OneEach);
        StaysApart(w, Run(w, Start(cfg), front), inputs[|inputs| - 1]);
      }
    }
  }
}
