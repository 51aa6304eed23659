/** The imperative shell as a function: Step folds one event and runs its effects
    depth-first, feeding each result back. World stands for everything outside the
    loop (tracker, spawner, clock); quantifying over it covers every answer. */
module SchedulerDrain {
  import opened SchedulerTypes
  import opened SchedulerReduce

  datatype Answer<+T> = Ok(value: T) | Err(error: string)

  datatype SpawnResult = SpawnResult(session: LiveSession, hasWorker: bool)

  /** Which injected dependencies are present. */
  datatype Deps = Deps(candidateSource: bool, spawner: bool, refresher: bool, workspace: bool)

  /** Answers are indexed by the number of folds so far, so no two calls need agree. */
  datatype World = World(
    deps: Deps,
    candidates: nat -> Answer<seq<Issue>>,
    refresh: (nat, seq<Id>) -> Answer<seq<Issue>>,
    spawn: (nat, Issue, int) -> Answer<SpawnResult>,
    now: nat -> int)

  /** One published state: a folded event, or a due time pushed back while the workflow is invalid. */
  datatype Fold =
    | Fold(before: State, ev: Event, cfg: Config, after: State)
    | Deferred(before: State, req: FireReq, after: State)

  /** A call of the spawner, with the state in force at that moment. */
  datatype SpawnCall = SpawnCall(at: State, issue: Issue, attempt: int)

  /** The history of the worker processes, by handle: `live` are those started and neither killed nor gone, `strays`
      those whose handle was dropped on another worker's exit. */
  datatype Fleet = Fleet(live: set<nat>, strays: set<nat>)

  /** `armed` are the timers still running, by handle; `timers` is the source's
      map from issue to handle, which may hold the handle of a timer that has fired.
      A worker's handle is the number of spawns made when it was started. */
  datatype Shell = Shell(
    cur: State, cfg: Config, lastGood: Config,
    workers: map<Id, nat>, timers: map<Id, nat>,
    armed: map<nat, FireReq>, fires: seq<FireReq>, nextTimer: nat,
    trace: seq<Fold>, spawns: seq<SpawnCall>, fleet: Fleet)

  predicate Wired(w: World) {
    w.deps.candidateSource && w.deps.spawner
  }

  function ArmTimer(sh: Shell, req: FireReq): Shell {
    var running := if req.id in sh.timers then sh.armed - {sh.timers[req.id]} else sh.armed;
    sh.(timers := sh.timers[req.id := sh.nextTimer],
        armed := running[sh.nextTimer := req],
        nextTimer := sh.nextTimer + 1)
  }

  function CancelTimer(sh: Shell, id: Id): Shell {
    if id in sh.timers then sh.(armed := sh.armed - {sh.timers[id]}, timers := sh.timers - {id}) else sh
  }

  function EventRank(ev: Event): nat {
    match ev
    case EvTick(_) => 7
    case EvCandidatesFetched(_) => 5
    case EvRetryDue(_) => 5
    case EvRevalidated(_, _, _) => 3
    case EvRetryResolved(_, _, _) => 3
    case EvTrackerRefreshed(_, _) => 1
    case EvSpawnFailed(_, _, _) => 1
    case EvWorkerExit(_) => 1
    case EvSpawned(_, _, _) => 0
    case EvCodexActivity(_) => 0
  }

  function EffectRank(eff: Effect): nat {
    match eff
    case EffFetchCandidates => 6
    case EffRefreshTracker(_) => 2
    case EffRevalidate(_, _) => 4
    case EffRetryFetch(_) => 4
    case EffSpawn(_, _) => 2
    case _ => 0
  }

  predicate Below(effs: seq<Effect>, rank: nat) {
    forall i | 0 <= i < |effs| :: EffectRank(effs[i]) < rank
  }

  lemma {:induction false} StallBelow(s: State, ids: seq<Id>, cfg: Config, now: int)
    ensures Below(StallAll(s, ids, cfg, now).1, 1)
    decreases ids
  {
    if ids != [] {
      StallBelow(StallOne(s, ids[0], cfg, now).0, ids[1..], cfg, now);
    }
  }

  lemma {:induction false} RefreshBelow(s: State, ids: seq<Id>, issues: seq<Issue>, cfg: Config, now: int)
    ensures Below(RefreshAll(s, ids, issues, cfg, now).1, 1)
    decreases ids
  {
    if ids != [] {
      RefreshBelow(RefreshOne(s, ids[0], issues, cfg, now).0, ids[1..], issues, cfg, now);
    }
  }

  /** Every effect ranks below the event that emits it, so a drain cannot go on forever. */
  lemma ReduceBelow(s: State, ev: Event, cfg: Config, now: int)
    ensures Below(Reduce(s, ev, cfg, now).1, EventRank(ev))
  {
    match ev {
      case EvTick(valid) => TickBelow(s, valid, cfg, now);
      case EvTrackerRefreshed(requested, issues) => RefreshBelow(s, SortIds(requested), issues, cfg, now);
      case EvCandidatesFetched(issues) => RevalidationsBelow(Winners(s, issues, cfg).1);
      case EvRetryResolved(req, issues, err) =>
        VerdictBelow(s, req, RetryVerdict(s, req.id, issues, err, cfg), cfg, now);
      case EvWorkerExit(exit) => ExitBelow(s, exit, cfg, now);
      case _ =>
    }
  }

  lemma ExitBelow(s: State, exit: Exit, cfg: Config, now: int)
    ensures Below(ReduceWorkerExit(s, exit, cfg, now).1, 1)
  {
  }

  lemma RevalidationsBelow(ws: seq<Issue>)
    ensures Below(Revalidations(ws), 5)
  {
  }

  lemma VerdictBelow(s: State, req: FireReq, v: Verdict, cfg: Config, now: int)
    ensures Below(ActOnVerdict(s, req, v, cfg, now).1, 3)
  {
  }

  lemma TickBelow(s: State, valid: bool, cfg: Config, now: int)
    ensures Below(ReduceTick(s, valid, cfg, now).1, 7)
  {
    StallBelow(s, Order.Sorted(s.running.Keys), cfg, now);
    var (s', effs) := ReduceStall(s, cfg, now);
    var refresh := if s'.running != map[] then [EffRefreshTracker(Order.Sorted(s'.running.Keys))] else [];
    BelowAppend(effs, refresh, if valid then [EffFetchCandidates] else []);
  }

  lemma BelowAppend(a: seq<Effect>, b: seq<Effect>, c: seq<Effect>)
    requires Below(a, 1) && Below(b, 3) && Below(c, 7)
    ensures Below(a + b + c, 7)
  {
  }

  /** step in scheduler.go. */
  function Step(w: World, sh: Shell, ev: Event): Shell
    decreases EventRank(ev)
  {
    var (next, effs) := Reduce(sh.cur, ev, sh.cfg, w.now(|sh.trace|));
    ReduceBelow(sh.cur, ev, sh.cfg, w.now(|sh.trace|));
    ExecAll(w, Folded(sh, ev, next), effs, EventRank(ev))
  }

  function Folded(sh: Shell, ev: Event, next: State): Shell {
    sh.(cur := next, trace := sh.trace + [Fold(sh.cur, ev, sh.cfg, next)])
  }

  function ExecAll(w: World, sh: Shell, effs: seq<Effect>, rank: nat): Shell
    requires Below(effs, rank)
    decreases rank, |effs|
  {
    if effs == [] then sh
    else ExecAll(w, Exec(w, sh, effs[0]), effs[1..], rank)
  }

  /** exec in effects_exec.go. */
  function Exec(w: World, sh: Shell, eff: Effect): Shell
    decreases EffectRank(eff)
  {
    match eff
    case EffFetchCandidates =>
      if !Wired(w) then sh else
      (match w.candidates(|sh.trace|)
       case Err(_) => sh
       case Ok(issues) => Step(w, sh, EvCandidatesFetched(issues)))
    case EffRefreshTracker(ids) =>
      if !w.deps.refresher || !w.deps.workspace then sh else
      (match w.refresh(|sh.trace|, ids)
       case Err(_) => sh
       case Ok(issues) => Step(w, sh, EvTrackerRefreshed(ids, issues)))
    case EffRevalidate(issue, attempt) =>
      Step(w, sh, EvRevalidated(issue, attempt, Revalidate(w, |sh.trace|, issue)))
    case EffRetryFetch(req) =>
      if !Wired(w) then sh else
      (match w.candidates(|sh.trace|)
       case Err(e) => Step(w, sh, EvRetryResolved(req, [], Some(e)))
       case Ok(issues) => Step(w, sh, EvRetryResolved(req, issues, None)))
    case EffSpawn(issue, attempt) =>
      if !w.deps.spawner then sh else
      (var called := sh.(spawns := sh.spawns + [SpawnCall(sh.cur, issue, attempt)]);
       match w.spawn(|sh.trace|, issue, attempt)
       case Err(e) => Step(w, called, EvSpawnFailed(issue, attempt, e))
       case Ok(res) => Step(w, Hired(called, issue.id, res), EvSpawned(issue, attempt, res.session)))
    case EffKillWorker(id, _) => Killed(sh, id)
    case EffRemoveWorkspace(_) => sh
    case EffArmRetryTimer(req, _) => ArmTimer(sh, req)
    case EffCancelRetryTimer(id) => CancelTimer(sh, id)
  }

  /** The worker handle is kept when the spawner returned one. */
  function Hired(sh: Shell, id: Id, res: SpawnResult): Shell {
    if res.hasWorker
    then sh.(workers := sh.workers[id := |sh.spawns|], fleet := sh.fleet.(live := sh.fleet.live + {|sh.spawns|}))
    else sh
  }

  /** execKillWorker: the handle is dropped and its worker told to stop. */
  function Killed(sh: Shell, id: Id): Shell {
    if id !in sh.workers then sh else
    sh.(workers := sh.workers - {id}, fleet := sh.fleet.(live := sh.fleet.live - {sh.workers[id]}))
  }

  predicate HiredFor(spawns: seq<SpawnCall>, h: nat, id: Id) { 0 < h <= |spawns| && spawns[h - 1].issue.id == id }

  /** The loop drops the handle of the issue a worker reports, whichever worker it belongs to. */
  function Exited(sh: Shell, exit: Exit, from: nat): Shell {
    var live := if HiredFor(sh.spawns, from, exit.id) then sh.fleet.live - {from} else sh.fleet.live;
    var strays := if exit.id in sh.workers && sh.workers[exit.id] != from then {sh.workers[exit.id]} else {};
    sh.(workers := sh.workers - {exit.id}, fleet := Fleet(live, sh.fleet.strays + strays))
  }

  /** The issue as the tracker has it now; None when it is missing or cannot be fetched. */
  function Revalidate(w: World, n: nat, issue: Issue): Option<Issue> {
    if !w.deps.refresher then Some(issue) else
    match w.refresh(n, [issue.id])
    case Err(_) => None
    case Ok(issues) => FindIssue(issues, issue.id)
  }

  // ---- top-level steps of the Run loop --------------------------------------

  /** `reload` is the configuration read from the workflow file, None when it is invalid; `from` is the worker that
      reports its exit, which the report itself does not say. */
  datatype Input =
    | Tick(reload: Option<Config>)
    | TimerElapses(timer: nat)
    | RetryFire(index: nat, reload: Option<Config>)
    | WorkerDone(exit: Exit, from: nat, reload: Option<Config>)
    | Notified(activity: Activity)

  function Reloaded(sh: Shell, reload: Option<Config>): Shell {
    if reload.Some? then sh.(cfg := reload.value, lastGood := reload.value) else sh.(cfg := sh.lastGood)
  }

  /** Pushes back a retry that fired while the workflow is invalid. */
  function Defer(w: World, sh: Shell, req: FireReq): Shell {
    var sh' :=
      if req.id in sh.cur.retries then
        var next := EnqueueRetry(sh.cur, sh.cur.retries[req.id].(armedAt := w.now(|sh.trace|), delay := OneSecond));
        sh.(cur := next, trace := sh.trace + [Deferred(sh.cur, req, next)])
      else sh;
    ArmTimer(sh', req)
  }

  function HandleRetryFire(w: World, sh: Shell, req: FireReq, reload: Option<Config>): Shell {
    var sh1 := sh.(timers := sh.timers - {req.id});
    if reload.None? then Defer(w, sh1, req)
    else Step(w, Reloaded(sh1, reload), EvRetryDue(req))
  }

  function Without(fires: seq<FireReq>, k: nat): seq<FireReq>
    requires k < |fires|
  {
    fires[..k] + fires[k + 1..]
  }

  function Handle(w: World, sh: Shell, input: Input): Shell {
    match input
    case Tick(reload) => Step(w, Reloaded(sh, reload), EvTick(reload.Some?))
    case TimerElapses(t) =>
      if t in sh.armed then sh.(armed := sh.armed - {t}, fires := sh.fires + [sh.armed[t]]) else sh
    case RetryFire(k, reload) =>
      if k < |sh.fires| then
        HandleRetryFire(w, sh.(fires := Without(sh.fires, k)), sh.fires[k], reload)
      else sh
    case WorkerDone(exit, from, reload) => Step(w, Reloaded(Exited(sh, exit, from), reload), EvWorkerExit(exit))
    case Notified(a) => Step(w, sh, EvCodexActivity(a))
  }

  function Start(cfg: Config): Shell {
    Shell(EMPTY_STATE, cfg, cfg, map[], map[], map[], [], 0, [], [], Fleet({}, {}))
  }

  /** The shell after a whole run. */
  function Run(w: World, sh: Shell, inputs: seq<Input>): Shell {
    if inputs == [] then sh
    else Handle(w, Run(w, sh, inputs[..|inputs| - 1]), inputs[|inputs| - 1])
  }
}
