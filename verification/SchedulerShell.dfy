/** The scheduler object: its fields are updated in place, and every method is proved to
    do what the functions of SchedulerDrain say. */
module SchedulerShell {
  import opened SchedulerTypes
  import opened SchedulerReduce
  import D = SchedulerDrain
  import I = SchedulerInvariant
  import SchedulerLoops
  import SchedulerRuns

  class Scheduler {
    const world: D.World
    var cur: State
    var cfg: Config
    var lastGood: Config
    var workers: map<Id, nat>
    var timers: map<Id, nat>
    var armed: map<nat, FireReq>
    var fires: seq<FireReq>
    var nextTimer: nat
    var trace: seq<D.Fold>
    var spawns: seq<D.SpawnCall>
    var fleet: D.Fleet

    function View(): D.Shell
      reads this
    {
      D.Shell(cur, cfg, lastGood, workers, timers, armed, fires, nextTimer, trace, spawns, fleet)
    }

    /** What holds between two inputs. */
    ghost predicate Valid()
      reads this
    {
      I.Inv(world, View(), I.NONE, SchedulerRuns.UNFROZEN)
    }

    constructor (world: D.World, cfg: Config)
      ensures this.world == world && View() == D.Start(cfg) && Valid()
    {
      this.world := world;
      cur := EMPTY_STATE;
      this.cfg := cfg;
      lastGood := cfg;
      workers := map[];
      timers := map[];
      armed := map[];
      fires := [];
      nextTimer := 0;
      trace := [];
      spawns := [];
      fleet := D.Fleet({}, {});
      new;
      SchedulerRuns.StartKeeps(world, cfg);
    }

    method ArmTimer(req: FireReq)
      modifies this`timers, this`armed, this`nextTimer
      ensures View() == D.ArmTimer(old(View()), req)
    {
      if req.id in timers {
        armed := armed - {timers[req.id]};
      }
      armed := armed[nextTimer := req];
      timers := timers[req.id := nextTimer];
      nextTimer := nextTimer + 1;
    }

    method CancelTimer(id: Id)
      modifies this`timers, this`armed
      ensures View() == D.CancelTimer(old(View()), id)
    {
      if id in timers {
        armed := armed - {timers[id]};
        timers := timers - {id};
      }
    }

    /** step: fold one event, publish the new state, run its effects one after the other. */
    method Step(ev: Event)
      modifies this
      ensures View() == D.Step(world, old(View()), ev)
      decreases D.EventRank(ev)
    {
      var now := world.now(|trace|);
      D.ReduceBelow(cur, ev, cfg, now);
      var next, effs := SchedulerLoops.ReduceEvent(cur, ev, cfg, now);
      trace := trace + [D.Fold(cur, ev, cfg, next)];
      cur := next;
      var i := 0;
      ghost var rank := D.EventRank(ev);
      assert effs[0..] == effs;
      while i < |effs|
        invariant 0 <= i <= |effs|
        invariant D.Below(effs[i..], rank)
        invariant D.ExecAll(world, View(), effs[i..], rank) == D.Step(world, old(View()), ev)
        decreases |effs| - i
      {
        assert effs[i..][0] == effs[i] && effs[i..][1..] == effs[i + 1..];
        Exec(effs[i]);
        i := i + 1;
      }
    }

    /** exec: carry out one effect, feeding its result back through Step. */
    method Exec(eff: Effect)
      modifies this
      ensures View() == D.Exec(world, old(View()), eff)
      decreases D.EffectRank(eff)
    {
      match eff
      case EffFetchCandidates => FetchCandidates();
      case EffRefreshTracker(ids) => RefreshTracker(ids);
      case EffRevalidate(issue, attempt) =>
        var latest := D.Revalidate(world, |trace|, issue);
        Step(EvRevalidated(issue, attempt, latest));
      case EffRetryFetch(req) => RetryFetch(req);
      case EffSpawn(issue, attempt) => Spawn(issue, attempt);
      case EffKillWorker(id, _) => KillWorker(id);
      case EffRemoveWorkspace(_) =>
      case EffArmRetryTimer(req, _) => ArmTimer(req);
      case EffCancelRetryTimer(id) => CancelTimer(id);
    }

    method KillWorker(id: Id)
      modifies this`workers, this`fleet
      ensures View() == D.Killed(old(View()), id)
    {
      if id !in workers {
        return;
      }
      var h := workers[id];
      workers := workers - {id};
      fleet := fleet.(live := fleet.live - {h});
    }

    method FetchCandidates()
      modifies this
      ensures View() == D.Exec(world, old(View()), EffFetchCandidates)
      decreases D.EffectRank(EffFetchCandidates), 0
    {
      if !world.deps.candidateSource || !world.deps.spawner {
        return;
      }
      var answer := world.candidates(|trace|);
      if answer.Err? {
        return;
      }
      Step(EvCandidatesFetched(answer.value));
    }

    method RefreshTracker(ids: seq<Id>)
      modifies this
      ensures View() == D.Exec(world, old(View()), EffRefreshTracker(ids))
      decreases D.EffectRank(EffRefreshTracker(ids)), 0
    {
      if !world.deps.refresher || !world.deps.workspace {
        return;
      }
      var answer := world.refresh(|trace|, ids);
      if answer.Err? {
        return;
      }
      Step(EvTrackerRefreshed(ids, answer.value));
    }

    method RetryFetch(req: FireReq)
      modifies this
      ensures View() == D.Exec(world, old(View()), EffRetryFetch(req))
      decreases D.EffectRank(EffRetryFetch(req)), 0
    {
      if !world.deps.candidateSource || !world.deps.spawner {
        return;
      }
      var answer := world.candidates(|trace|);
      if answer.Err? {
        Step(EvRetryResolved(req, [], Some(answer.error)));
      } else {
        Step(EvRetryResolved(req, answer.value, None));
      }
    }

    method Spawn(issue: Issue, attempt: int)
      modifies this
      ensures View() == D.Exec(world, old(View()), EffSpawn(issue, attempt))
      decreases D.EffectRank(EffSpawn(issue, attempt)), 0
    {
      if !world.deps.spawner {
        return;
      }
      spawns := spawns + [D.SpawnCall(cur, issue, attempt)];
      var answer := world.spawn(|trace|, issue, attempt);
      if answer.Err? {
        Step(EvSpawnFailed(issue, attempt, answer.error));
        return;
      }
      if answer.value.hasWorker {
        workers := workers[issue.id := |spawns|];
        fleet := fleet.(live := fleet.live + {|spawns|});
      }
      Step(EvSpawned(issue, attempt, answer.value.session));
    }

    // ---- the branches of the Run loop ---------------------------------------

    method ReloadConfig(reload: Option<Config>) returns (resolved: Config, valid: bool)
      modifies this`lastGood
      ensures valid == reload.Some? && resolved == lastGood
      ensures lastGood == if reload.Some? then reload.value else old(lastGood)
    {
      if reload.None? {
        return lastGood, false;
      }
      lastGood := reload.value;
      return reload.value, true;
    }

    method Tick(reload: Option<Config>)
      modifies this
      ensures View() == D.Handle(world, old(View()), D.Tick(reload))
    {
      var valid;
      cfg, valid := ReloadConfig(reload);
      Step(EvTick(valid));
    }

    /** The runtime's clock lets a timer fire: its request goes to the retryFire channel. */
    method TimerElapses(t: nat)
      modifies this
      ensures View() == D.Handle(world, old(View()), D.TimerElapses(t))
    {
      if t in armed {
        fires := fires + [armed[t]];
        armed := armed - {t};
      }
    }

    /** The branch of handleRetryFire for an invalid workflow: the retry is pushed back. */
    method DeferRetry(req: FireReq)
      modifies this`cur, this`trace, this`timers, this`armed, this`nextTimer
      ensures View() == D.Defer(world, old(View()), req)
    {
      if req.id in cur.retries {
        var entry := cur.retries[req.id].(armedAt := world.now(|trace|), delay := OneSecond);
        var next := EnqueueRetry(cur, entry);
        trace := trace + [D.Deferred(cur, req, next)];
        cur := next;
      }
      ArmTimer(req);
    }

    method HandleRetryFire(k: nat, reload: Option<Config>)
      requires k < |fires|
      modifies this
      ensures View() == D.Handle(world, old(View()), D.RetryFire(k, reload))
    {
      var req := fires[k];
      fires := D.Without(fires, k);
      timers := timers - {req.id};
      var resolved, valid := ReloadConfig(reload);
      if !valid {
        DeferRetry(req);
      } else {
        cfg := resolved;
        Step(EvRetryDue(req));
      }
    }

    /** `from` is recorded only. */
    method WorkerDone(exit: Exit, from: nat, reload: Option<Config>)
      modifies this
      ensures View() == D.Handle(world, old(View()), D.WorkerDone(exit, from, reload))
    {
      fleet := D.Exited(View(), exit, from).fleet;
      workers := workers - {exit.id};
      var valid;
      cfg, valid := ReloadConfig(reload);
      Step(EvWorkerExit(exit));
    }

    method CodexActivity(a: Activity)
      modifies this
      ensures View() == D.Handle(world, old(View()), D.Notified(a))
    {
      Step(EvCodexActivity(a));
    }

    /** One turn of the select in Run. */
    method Turn(input: D.Input)
      requires Valid()
      modifies this
      ensures View() == D.Handle(world, old(View()), input) && Valid()
    {
      SchedulerRuns.HandleKeeps(world, View(), input, SchedulerRuns.UNFROZEN);
      match input
      case Tick(reload) => Tick(reload);
      case TimerElapses(t) => TimerElapses(t);
      case RetryFire(k, reload) =>
        if k < |fires| {
          HandleRetryFire(k, reload);
        }
      case WorkerDone(exit, from, reload) => WorkerDone(exit, from, reload);
      case Notified(a) => CodexActivity(a);
    }

    /** Run: whatever arrives, in whatever order, is handled one after the other. */
    method Run(inputs: seq<D.Input>)
      requires Valid()
      modifies this
      ensures View() == D.Run(world, old(View()), inputs) && Valid()
    {
      for i := 0 to |inputs|
        invariant View() == D.Run(world, old(View()), inputs[..i]) && Valid()
      {
        assert inputs[..i + 1][..i] == inputs[..i];
        Turn(inputs[i]);
      }
      assert inputs[..|inputs|] == inputs;
    }
  }
}
