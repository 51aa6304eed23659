/** Runs that reach what the theorems warn of: a stranded retry, and an issue with two live workers. The tracker lists
    one eligible issue throughout and is not asked again before a spawn. */
module SchedulerWitness {
  import opened SchedulerTypes
  import opened SchedulerReduce
  import opened SchedulerDrain
  import opened SchedulerInvariant
  import opened SchedulerTheorems
  import opened SchedulerStateCaps
  import opened SchedulerFleet
  import Order

  /** One issue, always listed, eligible from the start, and room for it. */
  ghost predicate Lone(w: World, issue: Issue, cfg: Config) {
    && Wired(w) && !w.deps.refresher && (forall n :: w.candidates(n) == Ok([issue]))
    && Eligible(issue, EMPTY_STATE, cfg) && cfg.maxAgents >= 1 && CapacityOf(Lower(issue.state), cfg) >= 1
  }

  lemma RunOne(w: World, cfg: Config, inputs: seq<Input>, input: Input)
    ensures Run(w, Start(cfg), inputs + [input]) == Handle(w, Run(w, Start(cfg), inputs), input)
  {
    assert (inputs + [input])[..|inputs|] == inputs;
  }

  // ---- the first dispatch ---------------------------------------------------

  /** Nothing but the claim has happened. */
  predicate Claimed(sh: Shell, id: Id, cfg: Config) {
    && sh.cur == EMPTY_STATE.(claimed := {id}) && sh.cfg == cfg
    && sh.workers == map[] && sh.timers == map[] && sh.armed == map[] && sh.fires == []
    && sh.spawns == [] && sh.nextTimer == 0
    && sh.fleet == Fleet({}, {})
  }

  lemma NoStalls(s: State, cfg: Config, now: int)
    requires s.running == map[]
    ensures ReduceStall(s, cfg, now) == (s, [])
  {
    Order.SortedIs({});
    assert s.running.Keys == {};
  }

  lemma OneWinner(issue: Issue, cfg: Config)
    requires Eligible(issue, EMPTY_STATE, cfg) && cfg.maxAgents >= 1 && CapacityOf(Lower(issue.state), cfg) >= 1
    ensures Winners(EMPTY_STATE, [issue], cfg) == (EMPTY_STATE.(claimed := {issue.id}), [issue])
  {
    var s := EMPTY_STATE;
    assert [issue][1..] == [] && [issue][..0] == [];
    assert FilterEligible([issue], s, cfg) == [issue];
    assert SortCandidates([issue]) == [issue];
    assert Queued(s) == {} && AvailableGlobalSlots(s, cfg) >= 1;
    var used, norm, claimed := UsedByState(s), Lower(issue.state), s.(claimed := {issue.id});
    assert UsedIn(used, norm) == 0 && Takes(s, issue, used, cfg);
    assert Claim(s, issue.id).value == claimed;
    var rest := Allocate(claimed, [issue][1..], AvailableGlobalSlots(s, cfg) - 1, used[norm := UsedIn(used, norm) + 1],
                         cfg);
    assert rest == (claimed, []) && [issue] + [] == [issue];
    assert Allocate(s, [issue], AvailableGlobalSlots(s, cfg), used, cfg) == (claimed, [issue] + rest.1);
  }

  lemma OneListed(issue: Issue, s: State, cfg: Config)
    requires !Eligible(issue, s, cfg)
    ensures Winners(s, [issue], cfg) == (s, [])
  {
    assert [issue][1..] == [] && FilterEligible([issue], s, cfg) == [] && SortCandidates([]) == [];
  }

  /** A tick on a fresh scheduler gets as far as the spawn. */
  lemma FirstTick(w: World, issue: Issue, cfg: Config) returns (sh: Shell)
    requires Lone(w, issue, cfg)
    ensures Claimed(sh, issue.id, cfg)
    ensures Handle(w, Start(cfg), Tick(Some(cfg))) == Exec(w, sh, EffSpawn(issue, 0))
  {
    var reload := Some(cfg);
    TickUnfolds(w, Start(cfg), reload);
    NoStalls(EMPTY_STATE, cfg, w.now(0));
    var sh1 := AfterRefresh(w, AfterStall(w, Start(cfg), reload));
    assert sh1 == Folded(Start(cfg), EvTick(true), EMPTY_STATE);
    sh := FetchOne(w, sh1, issue, cfg);
  }

  lemma FetchOne(w: World, sh1: Shell, issue: Issue, cfg: Config) returns (sh: Shell)
    requires Lone(w, issue, cfg) && sh1.cur == EMPTY_STATE && sh1.cfg == cfg
    ensures sh == sh1.(cur := EMPTY_STATE.(claimed := {issue.id}), trace := sh.trace)
    ensures Exec(w, sh1, EffFetchCandidates) == Exec(w, sh, EffSpawn(issue, 0))
  {
    var ev := EvCandidatesFetched([issue]);
    OneWinner(issue, cfg);
    StepUnfolds(w, sh1, ev);
    var sh2 := Folded(sh1, ev, EMPTY_STATE.(claimed := {issue.id}));
    assert Revalidations([issue]) == [EffRevalidate(issue, 0)];
    ExecOne(w, sh2, EffRevalidate(issue, 0), EventRank(ev));
    sh := RevalidateOne(w, sh2, issue, 0, cfg);
  }

  lemma RevalidateOne(w: World, sh2: Shell, issue: Issue, attempt: int, cfg: Config) returns (sh: Shell)
    requires !w.deps.refresher && Dispatchable(issue.state, cfg) && sh2.cfg == cfg
    ensures sh == sh2.(trace := sh.trace)
    ensures Exec(w, sh2, EffRevalidate(issue, attempt)) == Exec(w, sh, EffSpawn(issue, attempt))
  {
    var ev := EvRevalidated(issue, attempt, Some(issue));
    StepUnfolds(w, sh2, ev);
    sh := Folded(sh2, ev, sh2.cur);
    ExecOne(w, sh, EffSpawn(issue, attempt), EventRank(ev));
  }

  // ---- a stranded retry -----------------------------------------------------

  /** The retry of an issue whose spawn failed: queued without its claim, one timer running. */
  predicate Unclaimed(sh: Shell, id: Id, t: nat) {
    && sh.cur.running == map[] && sh.cur.claimed == {} && sh.cur.retries.Keys == {id}
    && sh.armed.Keys == {t} && sh.armed[t].id == id && sh.fires == []
  }

  lemma SpawnFails(w: World, sh: Shell, issue: Issue, cfg: Config)
    requires Claimed(sh, issue.id, cfg) && w.deps.spawner && w.spawn(|sh.trace|, issue, 0).Err?
    ensures Unclaimed(Exec(w, sh, EffSpawn(issue, 0)), issue.id, sh.nextTimer)
  {
    var err := w.spawn(|sh.trace|, issue, 0).error;
    var called := sh.(spawns := sh.spawns + [SpawnCall(sh.cur, issue, 0)]);
    var ev := EvSpawnFailed(issue, 0, err);
    var r := ReduceSpawnFailed(called.cur, issue, 0, err, cfg, w.now(|called.trace|));
    StepUnfolds(w, called, ev);
    ExecOne(w, Folded(called, ev, r.0), r.1[0], EventRank(ev));
  }

  lemma FiresDispatch(w: World, sh: Shell, issue: Issue, cfg: Config)
    requires Lone(w, issue, cfg) && sh.cur.running == map[] && sh.cur.retries.Keys == {issue.id}
    requires |sh.fires| == 1 && sh.fires[0].id == issue.id
    ensures FireVerdict(w, sh, 0, cfg) == Dispatch(issue)
  {
    assert Queued(sh.cur) == {issue.id} && RunningIn(sh.cur, Lower(issue.state)) == {};
  }

  /** A tick whose spawn fails, the timer, and the fire: the issue is stranded. */
  lemma StrandedHappens(w: World, issue: Issue, cfg: Config)
    requires Lone(w, issue, cfg) && forall n, i, a :: w.spawn(n, i, a).Err?
    ensures var inputs := [] + [Tick(Some(cfg))] + [TimerElapses(0)] + [RetryFire(0, Some(cfg))];
            issue.id in Stranded(Run(w, Start(cfg), inputs))
  {
    var one := [] + [Tick(Some(cfg))];
    var two := one + [TimerElapses(0)];
    RunOne(w, cfg, [], Tick(Some(cfg)));
    RunOne(w, cfg, one, TimerElapses(0));
    RunOne(w, cfg, two, RetryFire(0, Some(cfg)));
    var sh := FirstTick(w, issue, cfg);
    SpawnFails(w, sh, issue, cfg);
    var fired := Run(w, Start(cfg), two);
    RunSafe(w, cfg, two);
    FiresDispatch(w, fired, issue, cfg);
    assert issue.id in Orphans(fired.cur);
    OrphanFate(w, fired, 0, cfg);
  }

  const ISSUE := Issue("i", "I-1", "a title", "todo", None, 0, [])

  const CONFIG := Config(1, map[], 0, 1, ["todo"], [])

  /** The workers of this world start at time 1 and never report; its clock stands well past that. */
  function WorldWith(spawn: Answer<SpawnResult>): World {
    World(Deps(true, true, false, false), n => Ok([ISSUE]), (n, ids) => Err(""), (n, issue, attempt) => spawn,
          n => LATE)
  }

  const LATE := 1_000_000_000

  lemma WorldLone(spawn: Answer<SpawnResult>)
    ensures Lone(WorldWith(spawn), ISSUE, CONFIG)
  {
    assert CONFIG.active[0] == "todo" && Lower("todo") in NormSet(CONFIG.active);
  }

  /** With a spawner that fails, the first issue of a fresh scheduler is stranded by its first retry. */
  lemma StrandedExample()
    ensures var inputs := [] + [Tick(Some(CONFIG))] + [TimerElapses(0)] + [RetryFire(0, Some(CONFIG))];
            "i" in Stranded(Run(WorldWith(Err("no worker")), Start(CONFIG), inputs))
  {
    WorldLone(Err("no worker"));
    StrandedHappens(WorldWith(Err("no worker")), ISSUE, CONFIG);
  }

  // ---- two live workers -----------------------------------------------------

  /** Spawns give a worker that started at time 1, and by now it counts as stalled. */
  ghost predicate Hiring(w: World, issue: Issue, cfg: Config) {
    && Lone(w, issue, cfg) && (forall n, i, a :: w.spawn(n, i, a) == Ok(SpawnResult(LiveSession("", 1), true)))
    && cfg.stallTimeoutMs > 0 && (forall n :: w.now(n) - 1 > cfg.stallTimeoutMs * 1_000_000)
  }

  /** The issue runs, and a handle leads to its worker. */
  predicate Working(sh: Shell, issue: Issue, cfg: Config, h: nat, fleet: Fleet, n: nat) {
    && sh.cur.running.Keys == {issue.id} && sh.cur.claimed == {issue.id} && sh.cur.retries == map[] && sh.cfg == cfg
    && sh.cur.running[issue.id].startedAt == 1 && sh.cur.running[issue.id].lastTimestamp == 0
    && sh.armed == map[] && sh.fires == [] && sh.workers == map[issue.id := h] && sh.fleet == fleet && sh.nextTimer == n
    && |sh.spawns| == h && forall k | 0 <= k < h :: sh.spawns[k].issue.id == issue.id
  }

  /** The issue is queued with its claim, and one timer runs. */
  predicate Resting(sh: Shell, issue: Issue, cfg: Config, h: nat, fleet: Fleet, n: nat) {
    && sh.cur.running == map[] && sh.cur.claimed == {issue.id} && sh.cur.retries.Keys == {issue.id} && sh.cfg == cfg
    && sh.nextTimer == n + 1 && sh.armed.Keys == {n} && sh.armed[n].id == issue.id
    && sh.fires == [] && sh.workers == map[] && sh.fleet == fleet
    && |sh.spawns| == h && forall k | 0 <= k < h :: sh.spawns[k].issue.id == issue.id
  }

  /** As Resting, with the timer gone off. */
  predicate Due(sh: Shell, issue: Issue, cfg: Config, h: nat, fleet: Fleet, n: nat) {
    && sh.cur.running == map[] && sh.cur.claimed == {issue.id} && sh.cur.retries.Keys == {issue.id} && sh.cfg == cfg
    && sh.armed == map[] && |sh.fires| == 1 && sh.fires[0].id == issue.id && sh.workers == map[] && sh.fleet == fleet
    && sh.nextTimer == n && |sh.spawns| == h && forall k | 0 <= k < h :: sh.spawns[k].issue.id == issue.id
  }

  function Joined(fleet: Fleet, h: nat): Fleet { fleet.(live := fleet.live + {h}) }

  lemma SpawnWorks(w: World, sh: Shell, issue: Issue, attempt: int, cfg: Config, h: nat, fleet: Fleet, n: nat)
    requires Hiring(w, issue, cfg) && sh.cur.running == map[] && sh.cur.claimed == {issue.id} && sh.cur.retries == map[]
    requires sh.cfg == cfg && sh.armed == map[] && sh.fires == [] && sh.workers == map[] && sh.fleet == fleet
    requires sh.nextTimer == n
    requires |sh.spawns| == h && forall k | 0 <= k < h :: sh.spawns[k].issue.id == issue.id
    ensures Working(Exec(w, sh, EffSpawn(issue, attempt)), issue, cfg, h + 1, Joined(fleet, h + 1), n)
  {
    var res := SpawnResult(LiveSession("", 1), true);
    var called := sh.(spawns := sh.spawns + [SpawnCall(sh.cur, issue, attempt)]);
    assert w.spawn(|sh.trace|, issue, attempt) == Ok(res);
    StepUnfolds(w, Hired(called, issue.id, res), EvSpawned(issue, attempt, res.session));
  }

  lemma StartWorks(w: World, issue: Issue, cfg: Config)
    requires Hiring(w, issue, cfg)
    ensures Working(Handle(w, Start(cfg), Tick(Some(cfg))), issue, cfg, 1, Fleet({1}, {}), 0)
  {
    var sh := FirstTick(w, issue, cfg);
    SpawnWorks(w, sh, issue, 0, cfg, 0, Fleet({}, {}), 0);
  }

  lemma StallKills(s: State, id: Id, cfg: Config, now: int)
    requires s.running.Keys == {id} && cfg.stallTimeoutMs > 0 && Stalled(s.running[id], cfg, now)
    ensures ReduceStall(s, cfg, now) == KillRetry(s, id, s.running[id].attempt, ERR_STALL, "stall", cfg, now)
  {
    Order.SortedIs({id});
    var ids := Order.Sorted(s.running.Keys);
    assert |ids| == 1 && ids[0] in ids && ids == [id] && [id][1..] == [];
    var kill := KillRetry(s, id, s.running[id].attempt, ERR_STALL, "stall", cfg, now);
    assert StallAll(kill.0, [], cfg, now) == (kill.0, []) && kill.1 + [] == kill.1;
  }

  lemma TwoEffects(w: World, sh: Shell, e: Effect, f: Effect, rank: nat)
    requires EffectRank(e) < rank && EffectRank(f) < rank
    ensures Below([e, f], rank) && ExecAll(w, sh, [e, f], rank) == Exec(w, Exec(w, sh, e), f)
  {
    assert [e, f][1..] == [f];
    ExecOne(w, Exec(w, sh, e), f, rank);
  }

  lemma KilledRests(sh: Shell, issue: Issue, cfg: Config, h: nat, fleet: Fleet, n: nat, req: FireReq)
    requires sh.cur.running == map[] && sh.cur.claimed == {issue.id} && sh.cur.retries.Keys == {issue.id}
    requires sh.cfg == cfg
    requires sh.armed == map[] && sh.fires == [] && sh.workers == map[issue.id := h] && sh.fleet == fleet
    requires sh.nextTimer == n
    requires |sh.spawns| == h && forall k | 0 <= k < h :: sh.spawns[k].issue.id == issue.id
    requires req.id == issue.id
    ensures Resting(ArmTimer(Killed(sh, issue.id), req), issue, cfg, h, fleet.(live := fleet.live - {h}), n)
  {
    assert Killed(sh, issue.id).workers == map[];
  }

  /** The stall pass kills the worker and queues the issue. */
  lemma StallRests(w: World, sh: Shell, issue: Issue, cfg: Config, h: nat, fleet: Fleet, n: nat)
    requires Hiring(w, issue, cfg) && Working(sh, issue, cfg, h, fleet, n)
    ensures Resting(AfterStall(w, sh, Some(cfg)), issue, cfg, h, fleet.(live := fleet.live - {h}), n)
  {
    var shr, now, run := Reloaded(sh, Some(cfg)), w.now(|sh.trace|), sh.cur.running[issue.id];
    assert now - 1 > cfg.stallTimeoutMs * 1_000_000;
    StallKills(sh.cur, issue.id, cfg, now);
    var (next, effs) := ReduceStall(shr.cur, cfg, now);
    var sh1 := Folded(shr, EvTick(true), next);
    var req := FireReq(issue.id, run.issue.identifier, run.attempt + 1);
    TwoEffects(w, sh1, EffKillWorker(issue.id, "stall"),
               EffArmRetryTimer(req, AfterBackoff(req.attempt, cfg.maxBackoffMs)), 7);
    assert effs
           == [EffKillWorker(issue.id, "stall"), EffArmRetryTimer(req, AfterBackoff(req.attempt, cfg.maxBackoffMs))];
    KilledRests(sh1, issue, cfg, h, fleet, n, req);
  }

  lemma TickRests(w: World, sh: Shell, issue: Issue, cfg: Config, h: nat, fleet: Fleet, n: nat)
    requires Hiring(w, issue, cfg) && Working(sh, issue, cfg, h, fleet, n)
    ensures Resting(Handle(w, sh, Tick(Some(cfg))), issue, cfg, h, fleet.(live := fleet.live - {h}), n)
  {
    TickUnfolds(w, sh, Some(cfg));
    StallRests(w, sh, issue, cfg, h, fleet, n);
    var sh1 := AfterStall(w, sh, Some(cfg));
    OneListed(issue, sh1.cur, cfg);
    StepUnfolds(w, sh1, EvCandidatesFetched([issue]));
  }

  lemma TimerFires(w: World, sh: Shell, issue: Issue, cfg: Config, h: nat, fleet: Fleet, n: nat)
    requires Resting(sh, issue, cfg, h, fleet, n)
    ensures Due(Handle(w, sh, TimerElapses(n)), issue, cfg, h, fleet, n + 1)
  {
  }

  /** The retry takes its claim up again and spawns the next worker. */
  lemma RetryWorks(w: World, sh: Shell, issue: Issue, cfg: Config, h: nat, fleet: Fleet, n: nat)
    requires Hiring(w, issue, cfg) && Due(sh, issue, cfg, h, fleet, n)
    ensures Working(Handle(w, sh, RetryFire(0, Some(cfg))), issue, cfg, h + 1, Joined(fleet, h + 1), n)
  {
    FireUnfolds(w, sh, 0, cfg);
    FiresDispatch(w, sh, issue, cfg);
    var ev, req := FireEvent(w, sh, 0), sh.fires[0];
    var sh1 := Firing(sh, 0, cfg);
    var sh2 := Folded(sh1, ev, sh.cur.(retries := sh.cur.retries - {req.id}));
    ExecOne(w, sh2, EffSpawn(issue, req.attempt), EventRank(ev));
    SpawnWorks(w, sh2, issue, req.attempt, cfg, h, fleet, n);
  }

  lemma ExitQueues(s: State, exit: Exit, cfg: Config, now: int)
    requires s.running.Keys == {exit.id} && s.retries == map[]
    ensures var r := ReduceWorkerExit(s, exit, cfg, now);
            && r.0.running == map[] && r.0.claimed == s.claimed && r.0.retries.Keys == {exit.id}
            && |r.1| == 1 && r.1[0].EffArmRetryTimer? && r.1[0].req.id == exit.id
  {
  }

  lemma ArmRests(sh: Shell, issue: Issue, cfg: Config, h: nat, fleet: Fleet, n: nat, req: FireReq)
    requires sh.cur.running == map[] && sh.cur.claimed == {issue.id} && sh.cur.retries.Keys == {issue.id}
    requires sh.cfg == cfg
    requires sh.armed == map[] && sh.fires == [] && sh.workers == map[] && sh.fleet == fleet && sh.nextTimer == n
    requires |sh.spawns| == h && forall k | 0 <= k < h :: sh.spawns[k].issue.id == issue.id
    requires req.id == issue.id
    ensures Resting(ArmTimer(sh, req), issue, cfg, h, fleet, n)
  {
  }

  lemma StaleDrops(sh: Shell, issue: Issue, cfg: Config, h: nat, fleet: Fleet, n: nat, exit: Exit, from: nat)
    requires Working(sh, issue, cfg, h, fleet, n) && 0 < from < h && exit.id == issue.id
    ensures Stale(sh, WorkerDone(exit, from, Some(cfg)))
    ensures Exited(sh, exit, from) == sh.(workers := map[], fleet := Fleet(fleet.live - {from}, fleet.strays + {h}))
  {
    assert sh.workers - {issue.id} == map[];
  }

  lemma ExitIs(w: World, sh: Shell, exit: Exit)
    requires sh.cur.running.Keys == {exit.id} && sh.cur.retries == map[]
    ensures exists next, req :: Step(w, sh, EvWorkerExit(exit)) == ArmTimer(Folded(sh, EvWorkerExit(exit), next), req)
              && req.id == exit.id && next.running == map[] && next.claimed == sh.cur.claimed
              && next.retries.Keys == {exit.id}
  {
    var ev := EvWorkerExit(exit);
    StepUnfolds(w, sh, ev);
    var r := ReduceWorkerExit(sh.cur, exit, sh.cfg, w.now(|sh.trace|));
    ExitQueues(sh.cur, exit, sh.cfg, w.now(|sh.trace|));
    assert r.1 == [r.1[0]];
    ExecOne(w, Folded(sh, ev, r.0), r.1[0], EventRank(ev));
    assert Step(w, sh, ev) == ArmTimer(Folded(sh, ev, r.0), r.1[0].req);
  }

  lemma ExitRests(w: World, sh: Shell, issue: Issue, cfg: Config, h: nat, fleet: Fleet, n: nat, exit: Exit)
    requires sh.cur.running.Keys == {issue.id} && sh.cur.claimed == {issue.id} && sh.cur.retries == map[]
    requires sh.cfg == cfg
    requires sh.armed == map[] && sh.fires == [] && sh.workers == map[] && sh.fleet == fleet && sh.nextTimer == n
    requires |sh.spawns| == h && forall k | 0 <= k < h :: sh.spawns[k].issue.id == issue.id
    requires exit.id == issue.id
    ensures Resting(Step(w, sh, EvWorkerExit(exit)), issue, cfg, h, fleet, n)
  {
    ExitIs(w, sh, exit);
    var next, req :| Step(w, sh, EvWorkerExit(exit)) == ArmTimer(Folded(sh, EvWorkerExit(exit), next), req)
              && req.id == exit.id && next.running == map[] && next.claimed == sh.cur.claimed
              && next.retries.Keys == {exit.id};
    ArmRests(Folded(sh, EvWorkerExit(exit), next), issue, cfg, h, fleet, n, req);
  }

  /** The exit of a worker killed earlier queues the issue and drops the handle of its present worker. */
  lemma StaleRests(w: World, sh: Shell, issue: Issue, cfg: Config, h: nat, fleet: Fleet, n: nat, exit: Exit, from: nat)
    requires Working(sh, issue, cfg, h, fleet, n) && 0 < from < h && exit.id == issue.id
    ensures Resting(Handle(w, sh, WorkerDone(exit, from, Some(cfg))), issue, cfg, h,
                    Fleet(fleet.live - {from}, fleet.strays + {h}), n)
  {
    StaleDrops(sh, issue, cfg, h, fleet, n, exit, from);
    var sh1 := Reloaded(Exited(sh, exit, from), Some(cfg));
    ExitRests(w, sh1, issue, cfg, h, sh1.fleet, n, exit);
  }

  /** A tick spawns the first worker; a stall kills it; its retry spawns the second; the first one's exit arrives late;
      the next retry spawns the third. */
  function Crowd(issue: Issue, cfg: Config): seq<Input> {
    [] + [Tick(Some(cfg))] + [Tick(Some(cfg))] + [TimerElapses(0)] + [RetryFire(0, Some(cfg))]
    + [WorkerDone(Exit(issue.id, Some("killed"), 0), 1, Some(cfg))] + [TimerElapses(1)] + [RetryFire(0, Some(cfg))]
  }

  lemma CrowdUnfolds(w: World, issue: Issue, cfg: Config)
    ensures var s0 := Start(cfg);
            var s1 := Handle(w, s0, Tick(Some(cfg)));
            var s2 := Handle(w, s1, Tick(Some(cfg)));
            var s3 := Handle(w, s2, TimerElapses(0));
            var s4 := Handle(w, s3, RetryFire(0, Some(cfg)));
            var s5 := Handle(w, s4, WorkerDone(Exit(issue.id, Some("killed"), 0), 1, Some(cfg)));
            Run(w, s0, Crowd(issue, cfg)) == Handle(w, Handle(w, s5, TimerElapses(1)), RetryFire(0, Some(cfg)))
  {
    var late := WorkerDone(Exit(issue.id, Some("killed"), 0), 1, Some(cfg));
    var i1 := [] + [Tick(Some(cfg))];
    var i2 := i1 + [Tick(Some(cfg))];
    var i3 := i2 + [TimerElapses(0)];
    var i4 := i3 + [RetryFire(0, Some(cfg))];
    var i5 := i4 + [late];
    var i6 := i5 + [TimerElapses(1)];
    RunOne(w, cfg, [], Tick(Some(cfg)));
    RunOne(w, cfg, i1, Tick(Some(cfg)));
    RunOne(w, cfg, i2, TimerElapses(0));
    RunOne(w, cfg, i3, RetryFire(0, Some(cfg)));
    RunOne(w, cfg, i4, late);
    RunOne(w, cfg, i5, TimerElapses(1));
    RunOne(w, cfg, i6, RetryFire(0, Some(cfg)));
  }

  /** The first four inputs: the second worker runs and the first has been killed. */
  lemma SecondWorker(w: World, issue: Issue, cfg: Config)
    requires Hiring(w, issue, cfg)
    ensures var s2 := Handle(w, Handle(w, Start(cfg), Tick(Some(cfg))), Tick(Some(cfg)));
            Working(Handle(w, Handle(w, s2, TimerElapses(0)), RetryFire(0, Some(cfg))), issue, cfg, 2, Fleet({2}, {}),
                    1)
  {
    var s1 := Handle(w, Start(cfg), Tick(Some(cfg)));
    StartWorks(w, issue, cfg);
    TickRests(w, s1, issue, cfg, 1, Fleet({1}, {}), 0);
    var s2 := Handle(w, s1, Tick(Some(cfg)));
    assert Fleet({1}, {}).(live := {1} - {1}) == Fleet({}, {});
    TimerFires(w, s2, issue, cfg, 1, Fleet({}, {}), 0);
    RetryWorks(w, Handle(w, s2, TimerElapses(0)), issue, cfg, 1, Fleet({}, {}), 1);
  }

  /** The last three: the late exit, the timer and the retry. */
  lemma ThirdWorker(w: World, s4: Shell, issue: Issue, cfg: Config)
    requires Hiring(w, issue, cfg) && Working(s4, issue, cfg, 2, Fleet({2}, {}), 1)
    ensures var s5 := Handle(w, s4, WorkerDone(Exit(issue.id, Some("killed"), 0), 1, Some(cfg)));
            Working(Handle(w, Handle(w, s5, TimerElapses(1)), RetryFire(0, Some(cfg))), issue, cfg, 3,
                    Fleet({2, 3}, {2}), 2)
  {
    var exit := Exit(issue.id, Some("killed"), 0);
    StaleRests(w, s4, issue, cfg, 2, Fleet({2}, {}), 1, exit, 1);
    var s5 := Handle(w, s4, WorkerDone(exit, 1, Some(cfg)));
    assert Fleet({2} - {1}, {} + {2}) == Fleet({2}, {2});
    TimerFires(w, s5, issue, cfg, 2, Fleet({2}, {2}), 1);
    RetryWorks(w, Handle(w, s5, TimerElapses(1)), issue, cfg, 2, Fleet({2}, {2}), 2);
    assert Joined(Fleet({2}, {2}), 3) == Fleet({2, 3}, {2});
  }

  /** The second and the third worker are both alive, for the same issue. */
  lemma TwoLiveWorkers(w: World, issue: Issue, cfg: Config)
    requires Hiring(w, issue, cfg)
    ensures var sh := Run(w, Start(cfg), Crowd(issue, cfg));
            && sh.fleet.live == {2, 3} && |sh.spawns| == 3 && IssueOf(sh, 2) == IssueOf(sh, 3) == issue.id
            && !OneEach(sh) && sh.workers == map[issue.id := 3]
  {
    CrowdUnfolds(w, issue, cfg);
    SecondWorker(w, issue, cfg);
    var s2 := Handle(w, Handle(w, Start(cfg), Tick(Some(cfg))), Tick(Some(cfg)));
    ThirdWorker(w, Handle(w, Handle(w, s2, TimerElapses(0)), RetryFire(0, Some(cfg))), issue, cfg);
  }

  lemma CrowdExample()
    ensures var w := WorldWith(Ok(SpawnResult(LiveSession("", 1), true)));
            Run(w, Start(CONFIG), Crowd(ISSUE, CONFIG)).fleet.live == {2, 3}
  {
    var w := WorldWith(Ok(SpawnResult(LiveSession("", 1), true)));
    WorldLone(Ok(SpawnResult(LiveSession("", 1), true)));
    TwoLiveWorkers(w, ISSUE, CONFIG);
  }
}
