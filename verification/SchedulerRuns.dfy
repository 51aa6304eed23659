/** Whole runs of the scheduler: any inputs, in any order, against any world. */
module SchedulerRuns {
  import opened SchedulerTypes
  import opened SchedulerReduce
  import opened SchedulerDrain
  import opened SchedulerInvariant
  import opened SchedulerFolds
  import opened SchedulerSafety

  const UNFROZEN := Frozen(map[], 0)

  // ---- every input keeps the invariant --------------------------------------

  lemma ReloadedKeeps(w: World, sh: Shell, front: Pending, frozen: Frozen, reload: Option<Config>)
    requires Ready(w, sh, front, NONE, frozen)
    ensures Ready(w, Reloaded(sh, reload), front, NONE, frozen)
  {
    InvParts(w, sh, Join(front, NONE), frozen);
    InvFrom(w, Reloaded(sh, reload), Join(front, NONE), frozen);
  }

  lemma ElapseSchedule(sh: Shell, t: nat)
    requires ScheduleOk(sh) && t in sh.armed
    ensures var sh' := sh.(armed := sh.armed - {t}, fires := sh.fires + [sh.armed[t]]);
            ScheduleOk(sh') && Scheduled(sh') == Scheduled(sh)
  {
    var req := sh.armed[t];
    var armed' := sh.armed - {t};
    var fires' := sh.fires + [req];
    assert ArmedIds(armed') == ArmedIds(sh.armed) - {req.id} by {
      forall u | u in sh.armed && sh.armed[u].id != req.id ensures sh.armed[u].id in ArmedIds(armed') {
        assert armed'[u] == sh.armed[u];
      }
    }
    assert FireIds(fires') == FireIds(sh.fires) + {req.id} by {
      assert fires'[|sh.fires|] == req;
      forall k | 0 <= k < |sh.fires| ensures sh.fires[k].id in FireIds(fires') {
        assert fires'[k] == sh.fires[k];
      }
    }
    assert req.id in ArmedIds(sh.armed);
    forall k | 0 <= k < |sh.fires| ensures sh.fires[k].id != req.id {
      assert sh.fires[k].id in FireIds(sh.fires);
    }
  }

  lemma WithoutAt(fires: seq<FireReq>, k: nat)
    requires k < |fires|
    ensures |Without(fires, k)| == |fires| - 1
    ensures forall j | 0 <= j < |fires| - 1 :: Without(fires, k)[j] == fires[if j < k then j else j + 1]
  {
  }

  lemma WithoutFireIds(fires: seq<FireReq>, k: nat)
    requires k < |fires| && (forall i, j | 0 <= i < j < |fires| :: fires[i].id != fires[j].id)
    ensures FireIds(Without(fires, k)) == FireIds(fires) - {fires[k].id}
  {
    var fires' := Without(fires, k);
    WithoutAt(fires, k);
    forall j | 0 <= j < |fires| && j != k ensures fires[j].id in FireIds(fires') {
      assert fires'[if j < k then j else j - 1] == fires[j];
    }
    forall j | 0 <= j < |fires'| ensures fires'[j].id in FireIds(fires) && fires'[j].id != fires[k].id {
      assert fires'[j] == fires[if j < k then j else j + 1];
    }
  }

  lemma TakeFireSchedule(sh: Shell, k: nat)
    requires ScheduleOk(sh) && k < |sh.fires|
    ensures var sh' := sh.(fires := Without(sh.fires, k), timers := sh.timers - {sh.fires[k].id});
            ScheduleOk(sh') && Scheduled(sh') == Scheduled(sh) - {sh.fires[k].id}
    ensures sh.fires[k].id in Scheduled(sh)
  {
    WithoutAt(sh.fires, k);
    WithoutFireIds(sh.fires, k);
    assert sh.fires[k].id in FireIds(sh.fires);
  }

  /** Taking the k-th waiting fire off the channel leaves its request as a token. */
  lemma TakeFire(sh: Shell, k: nat, frozen: Frozen)
    requires TimersOk(sh, map[], frozen) && k < |sh.fires|
    ensures TimersOk(sh.(fires := Without(sh.fires, k), timers := sh.timers - {sh.fires[k].id}),
                     Token(sh.fires[k]).tokens, frozen)
  {
    TakeFireSchedule(sh, k);
    assert Token(sh.fires[k]).tokens.Keys == {sh.fires[k].id};
  }

  lemma TakeFireReady(w: World, sh: Shell, k: nat, frozen: Frozen)
    requires Inv(w, sh, NONE, frozen) && k < |sh.fires|
    ensures var req := sh.fires[k];
            Ready(w, sh.(fires := Without(sh.fires, k), timers := sh.timers - {req.id}), Token(req), NONE, frozen)
  {
    InvParts(w, sh, NONE, frozen);
    TakeFire(sh, k, frozen);
    assert Join(Token(sh.fires[k]), NONE) == Token(sh.fires[k]);
    InvFrom(w, sh.(fires := Without(sh.fires, k), timers := sh.timers - {sh.fires[k].id}), Token(sh.fires[k]), frozen);
  }

  /** Pushing back the due time of the token's own entry. */
  lemma RetimeKeeps(w: World, sh: Shell, sh': Shell, req: FireReq, entry: RetryEntry, frozen: Frozen)
    requires Inv(w, sh, Token(req), frozen) && Matches(sh.cur, req)
    requires entry == sh.cur.retries[req.id].(armedAt := entry.armedAt, delay := OneSecond)
    requires sh' == sh.(cur := EnqueueRetry(sh.cur, entry),
                        trace := sh.trace + [Deferred(sh.cur, req, EnqueueRetry(sh.cur, entry))])
    ensures Inv(w, sh', Token(req), frozen)
  {
    InvParts(w, sh, Token(req), frozen);
    assert req.id in Token(req).tokens && entry.id == req.id;
    assert sh'.cur.retries.Keys == sh.cur.retries.Keys;
    assert TokensOk(sh'.cur, Scheduled(sh), Token(req).tokens, frozen);
    assert ScheduleOk(sh');
    assert Tracked(sh'.cur) == Tracked(sh.cur) && Orphans(sh'.cur) == Orphans(sh.cur);
    TraceExtends(sh.trace, Deferred(sh.cur, req, sh'.cur));
    InvFrom(w, sh', Token(req), frozen);
  }

  lemma TokenQueued(w: World, sh: Shell, req: FireReq, frozen: Frozen)
    requires Inv(w, sh, Token(req), frozen)
    ensures Matches(sh.cur, req)
  {
    InvParts(w, sh, Token(req), frozen);
    assert req.id in Token(req).tokens;
  }

  lemma DeferKeeps(w: World, sh: Shell, req: FireReq, frozen: Frozen)
    requires Ready(w, sh, Token(req), NONE, frozen)
    ensures Inv(w, Defer(w, sh, req), NONE, frozen)
  {
    NothingAhead(Token(req));
    TokenQueued(w, sh, req, frozen);
    var entry := sh.cur.retries[req.id].(armedAt := w.now(|sh.trace|), delay := OneSecond);
    var next := EnqueueRetry(sh.cur, entry);
    var sh' := sh.(cur := next, trace := sh.trace + [Deferred(sh.cur, req, next)]);
    RetimeKeeps(w, sh, sh', req, entry, frozen);
    ArmKeeps(w, sh', req, NONE, frozen);
  }

  lemma ExitHandles(w: World, sh: Shell, exit: Exit, from: nat)
    requires HandlesOk(w, sh, NONE)
    ensures HandlesOk(w, Exited(sh, exit, from), NONE.(gone := {exit.id}))
  {
  }

  lemma ExitCrew(sh: Shell, exit: Exit, from: nat)
    requires FleetOk(sh)
    ensures FleetOk(Exited(sh, exit, from))
  {
  }

  lemma ExitReady(w: World, sh: Shell, exit: Exit, from: nat, frozen: Frozen)
    requires Inv(w, sh, NONE, frozen)
    ensures Inv(w, Exited(sh, exit, from), NONE.(gone := {exit.id}), frozen)
  {
    InvParts(w, sh, NONE, frozen);
    ExitHandles(w, sh, exit, from);
    ExitCrew(sh, exit, from);
    InvFrom(w, Exited(sh, exit, from), NONE.(gone := {exit.id}), frozen);
  }

  lemma ExitPrepared(w: World, sh: Shell, exit: Exit, from: nat, reload: Option<Config>, frozen: Frozen)
    requires Inv(w, sh, NONE, frozen)
    ensures Ready(w, Reloaded(Exited(sh, exit, from), reload), NONE.(gone := {exit.id}), NONE, frozen)
  {
    ExitReady(w, sh, exit, from, frozen);
    NothingAhead(NONE.(gone := {exit.id}));
    ReloadedKeeps(w, Exited(sh, exit, from), NONE.(gone := {exit.id}), frozen, reload);
  }

  lemma WorkerDoneKeeps(w: World, sh: Shell, exit: Exit, from: nat, reload: Option<Config>, frozen: Frozen)
    requires Inv(w, sh, NONE, frozen)
    ensures Inv(w, Step(w, Reloaded(Exited(sh, exit, from), reload), EvWorkerExit(exit)), NONE, frozen)
  {
    ExitPrepared(w, sh, exit, from, reload, frozen);
    StepKeeps(w, Reloaded(Exited(sh, exit, from), reload), EvWorkerExit(exit), NONE, frozen);
  }

  lemma TickKeeps(w: World, sh: Shell, reload: Option<Config>, frozen: Frozen)
    requires Inv(w, sh, NONE, frozen)
    ensures Inv(w, Step(w, Reloaded(sh, reload), EvTick(reload.Some?)), NONE, frozen)
  {
    NothingAhead(NONE);
    ReloadedKeeps(w, sh, NONE, frozen, reload);
    StepKeeps(w, Reloaded(sh, reload), EvTick(reload.Some?), NONE, frozen);
  }

  lemma NotifiedKeeps(w: World, sh: Shell, a: Activity, frozen: Frozen)
    requires Inv(w, sh, NONE, frozen)
    ensures Inv(w, Step(w, sh, EvCodexActivity(a)), NONE, frozen)
  {
    NothingAhead(NONE);
    StepKeeps(w, sh, EvCodexActivity(a), NONE, frozen);
  }

  lemma ElapseKeeps(w: World, sh: Shell, t: nat, frozen: Frozen)
    requires Inv(w, sh, NONE, frozen) && t in sh.armed
    ensures Inv(w, sh.(armed := sh.armed - {t}, fires := sh.fires + [sh.armed[t]]), NONE, frozen)
  {
    InvParts(w, sh, NONE, frozen);
    ElapseSchedule(sh, t);
    InvFrom(w, sh.(armed := sh.armed - {t}, fires := sh.fires + [sh.armed[t]]), NONE, frozen);
  }

  lemma HandleKeeps(w: World, sh: Shell, input: Input, frozen: Frozen)
    requires Inv(w, sh, NONE, frozen)
    ensures Inv(w, Handle(w, sh, input), NONE, frozen)
  {
    match input
    case Tick(reload) => TickKeeps(w, sh, reload, frozen);
    case TimerElapses(t) =>
      if t in sh.armed {
        ElapseKeeps(w, sh, t, frozen);
      }
    case RetryFire(k, reload) =>
      if k < |sh.fires| {
        RetryFireKeeps(w, sh, k, reload, frozen);
      }
    case WorkerDone(exit, from, reload) => WorkerDoneKeeps(w, sh, exit, from, reload, frozen);
    case Notified(a) => NotifiedKeeps(w, sh, a, frozen);
  }

  lemma RetryFireKeeps(w: World, sh: Shell, k: nat, reload: Option<Config>, frozen: Frozen)
    requires Inv(w, sh, NONE, frozen) && k < |sh.fires|
    ensures Inv(w, HandleRetryFire(w, sh.(fires := Without(sh.fires, k)), sh.fires[k], reload), NONE, frozen)
  {
    var req := sh.fires[k];
    TakeFireReady(w, sh, k, frozen);
    var sh' := sh.(fires := Without(sh.fires, k), timers := sh.timers - {req.id});
    if reload.None? {
      DeferKeeps(w, sh', req, frozen);
    } else {
      ReloadedKeeps(w, sh', Token(req), frozen, reload);
      StepKeeps(w, Reloaded(sh', reload), EvRetryDue(req), NONE, frozen);
    }
  }

  lemma {:induction false} RunKeeps(w: World, sh: Shell, inputs: seq<Input>, frozen: Frozen)
    requires Inv(w, sh, NONE, frozen)
    ensures Inv(w, Run(w, sh, inputs), NONE, frozen)
  {
    if inputs != [] {
      RunKeeps(w, sh, inputs[..|inputs| - 1], frozen);
      HandleKeeps(w, Run(w, sh, inputs[..|inputs| - 1]), inputs[|inputs| - 1], frozen);
    }
  }

  lemma StartKeeps(w: World, cfg: Config)
    ensures Inv(w, Start(cfg), NONE, UNFROZEN)
  {
    InvFrom(w, Start(cfg), NONE, UNFROZEN);
  }
}
