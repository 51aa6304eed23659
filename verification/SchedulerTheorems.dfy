/** The promises of the scheduler, stated over every run from a fresh start. */
module SchedulerTheorems {
  import opened SchedulerTypes
  import opened SchedulerReduce
  import opened SchedulerDrain
  import opened SchedulerInvariant
  import opened SchedulerFolds
  import opened SchedulerSafety
  import opened SchedulerRuns

  // ---- where every issue is between two inputs ------------------------------

  /** Issues that are queued but that no timer and no waiting fire will ever bring back. */
  function Stranded(sh: Shell): set<Id> { sh.cur.retries.Keys - Scheduled(sh) }

  predicate Settled(s: State) {
    && s.running.Keys <= s.claimed <= s.running.Keys + s.retries.Keys
    && s.running.Keys !! s.retries.Keys
  }

  /** After any inputs: Running <= Claimed <= Running + RetryAttempts with Running and RetryAttempts
      disjoint; worker handles are those of Running; each timer and fire is for the entry now queued,
      one per issue; every spawn was of an issue claimed, not running and not queued; and only
      an unclaimed queued issue can be stranded. */
  lemma RunSafe(w: World, cfg: Config, inputs: seq<Input>)
    ensures var sh := Run(w, Start(cfg), inputs);
            && Settled(sh.cur)
            && sh.workers.Keys <= sh.cur.running.Keys
            && (AlwaysHandles(w) ==> sh.workers.Keys == sh.cur.running.Keys)
            && ScheduleOk(sh) && Scheduled(sh) <= sh.cur.retries.Keys
            && (forall k | 0 <= k < |sh.spawns| :: CallOk(sh.spawns[k]))
            && Stranded(sh) <= Orphans(sh.cur)
  {
    var sh := Run(w, Start(cfg), inputs);
    StartKeeps(w, cfg);
    RunKeeps(w, Start(cfg), inputs, UNFROZEN);
    InvParts(w, Run(w, Start(cfg), inputs), NONE, UNFROZEN);
    forall id | id in Scheduled(sh) ensures id in sh.cur.retries {
      ScheduledQueued(sh, id);
    }
  }

  // ---- retry claims ---------------------------------------------------------

  predicate SpawnFailedIn(trace: seq<Fold>) {
    exists k :: 0 <= k < |trace| && trace[k].Fold? && trace[k].ev.EvSpawnFailed?
  }

  predicate Retained(trace: seq<Fold>) {
    forall k | 0 <= k < |trace| :: Orphans(trace[k].after) == {}
  }

  lemma RetainedSnoc(front: seq<Fold>, f: Fold)
    ensures Retained(front + [f]) <==> Retained(front) && Orphans(f.after) == {}
  {
    var trace := front + [f];
    assert trace[|front|] == f;
    assert forall k | 0 <= k < |front| :: trace[k] == front[k];
  }

  lemma SpawnFailedSnoc(front: seq<Fold>, f: Fold)
    ensures SpawnFailedIn(front + [f]) <==> SpawnFailedIn(front) || (f.Fold? && f.ev.EvSpawnFailed?)
  {
    var trace := front + [f];
    assert trace[|front|] == f;
    assert forall k | 0 <= k < |front| :: trace[k] == front[k];
    if SpawnFailedIn(front) {
      var k :| 0 <= k < |front| && front[k].Fold? && front[k].ev.EvSpawnFailed?;
      assert trace[k].Fold? && trace[k].ev.EvSpawnFailed?;
    }
  }

  lemma RetainedLast(front: seq<Fold>)
    requires Retained(front)
    ensures Orphans(LastState(front)) == {}
  {
  }

  /** Every queued issue keeps its claim through a whole trace exactly when no spawn in it failed. */
  lemma {:induction false} RetainedExactly(trace: seq<Fold>)
    requires FoldsOk(trace)
    ensures Retained(trace) <==> !SpawnFailedIn(trace)
    decreases |trace|
  {
    if trace != [] {
      var front, f := trace[..|trace| - 1], trace[|trace| - 1];
      FoldsOkLast(trace);
      RetainedExactly(front);
      assert trace == front + [f];
      RetainedSnoc(front, f);
      SpawnFailedSnoc(front, f);
      if Retained(front) {
        RetainedLast(front);
        LastFoldOrphans(f);
      }
    }
  }

  lemma LastFoldOrphans(f: Fold)
    requires OrphansOk(f) && Orphans(f.before) == {}
    ensures Orphans(f.after) == {} <==> !(f.Fold? && f.ev.EvSpawnFailed?)
  {
    if f.Fold? && f.ev.EvSpawnFailed? {
      assert f.ev.issue.id in Orphans(f.after);
    }
  }

  /** Retry claim retention over whole runs: it holds in every published state if and only if no
      spawn failed, and then every queued issue is claimed and has exactly one timer or waiting fire. */
  lemma RetentionOverRuns(w: World, cfg: Config, inputs: seq<Input>)
    ensures var sh := Run(w, Start(cfg), inputs);
            && (Retained(sh.trace) <==> !SpawnFailedIn(sh.trace))
            && (!SpawnFailedIn(sh.trace) ==>
                sh.cur.retries.Keys <= sh.cur.claimed && Scheduled(sh) == sh.cur.retries.Keys)
  {
    var sh := Run(w, Start(cfg), inputs);
    StartKeeps(w, cfg);
    RunKeeps(w, Start(cfg), inputs, UNFROZEN);
    InvParts(w, Run(w, Start(cfg), inputs), NONE, UNFROZEN);
    RunSafe(w, cfg, inputs);
    RetainedExactly(sh.trace);
    if !SpawnFailedIn(sh.trace) {
      assert Orphans(sh.cur) == {};
      assert Stranded(sh) == {};
    }
  }

  /** A stranded issue stays queued with the very same entry through any further run: it is never
      claimed, running, scheduled, released or spawned again. */
  lemma StrandedForever(w: World, cfg: Config, inputs: seq<Input>, more: seq<Input>, id: Id)
    requires id in Stranded(Run(w, Start(cfg), inputs))
    ensures var sh := Run(w, Start(cfg), inputs);
            var sh' := Run(w, sh, more);
            && id in Stranded(sh') && sh'.cur.retries[id] == sh.cur.retries[id]
            && id !in sh'.cur.claimed && id !in sh'.cur.running
            && (forall k | |sh.spawns| <= k < |sh'.spawns| :: sh'.spawns[k].issue.id != id)
  {
    var sh := Run(w, Start(cfg), inputs);
    StartKeeps(w, cfg);
    RunKeeps(w, Start(cfg), inputs, UNFROZEN);
    InvParts(w, Run(w, Start(cfg), inputs), NONE, UNFROZEN);
    RunSafe(w, cfg, inputs);
    var frozen := Frozen(map[id := sh.cur.retries[id]], |sh.spawns|);
    FreezeStranded(w, sh, id, frozen);
    RunKeeps(w, sh, more, frozen);
    FrozenStranded(w, Run(w, sh, more), id, frozen);
  }

  lemma FreezeStranded(w: World, sh: Shell, id: Id, frozen: Frozen)
    requires Inv(w, sh, NONE, UNFROZEN) && id in Stranded(sh) && id in Orphans(sh.cur)
    requires frozen == Frozen(map[id := sh.cur.retries[id]], |sh.spawns|)
    ensures Inv(w, sh, NONE, frozen)
  {
    InvParts(w, sh, NONE, UNFROZEN);
    InvFrom(w, sh, NONE, frozen);
  }

  lemma FrozenStranded(w: World, sh: Shell, id: Id, frozen: Frozen)
    requires Inv(w, sh, NONE, frozen) && id in frozen.entries
    ensures id in Stranded(sh) && sh.cur.retries[id] == frozen.entries[id]
    ensures id !in sh.cur.claimed && id !in sh.cur.running
    ensures forall k | frozen.since <= k < |sh.spawns| :: sh.spawns[k].issue.id != id
  {
    InvParts(w, sh, NONE, frozen);
  }

  /** Each stranded issue takes one global slot away for good. */
  lemma StrandedUseSlots(w: World, sh: Shell)
    requires Inv(w, sh, NONE, UNFROZEN)
    ensures AvailableGlobalSlots(sh.cur, sh.cfg) <= Max(0, sh.cfg.maxAgents - |Stranded(sh)|)
  {
    InvParts(w, sh, NONE, UNFROZEN);
    assert Stranded(sh) <= Queued(sh.cur);
    SubsetSize(Stranded(sh), Queued(sh.cur));
  }

  // ---- what happens to an orphan when its timer fires -----------------------

  /** The shell in which the retry for the k-th waiting fire is resolved. */
  function Firing(sh: Shell, k: nat, cfg: Config): Shell
    requires k < |sh.fires|
  {
    var req := sh.fires[k];
    var taken := sh.(fires := Without(sh.fires, k), timers := sh.timers - {req.id}, cfg := cfg, lastGood := cfg);
    Folded(taken, EvRetryDue(req), taken.cur)
  }

  function FireVerdict(w: World, sh: Shell, k: nat, cfg: Config): Verdict
    requires k < |sh.fires|
  {
    match w.candidates(|sh.trace| + 1)
    case Err(e) => RetryVerdict(sh.cur, sh.fires[k].id, [], Some(e), cfg)
    case Ok(issues) => RetryVerdict(sh.cur, sh.fires[k].id, issues, None, cfg)
  }

  function FireEvent(w: World, sh: Shell, k: nat): Event
    requires k < |sh.fires|
  {
    match w.candidates(|sh.trace| + 1)
    case Err(e) => EvRetryResolved(sh.fires[k], [], Some(e))
    case Ok(issues) => EvRetryResolved(sh.fires[k], issues, None)
  }

  lemma ExecOne(w: World, sh: Shell, eff: Effect, rank: nat)
    requires EffectRank(eff) < rank
    ensures Below([eff], rank) && ExecAll(w, sh, [eff], rank) == Exec(w, sh, eff)
  {
    assert [eff][1..] == [];
  }

  lemma StepUnfolds(w: World, sh: Shell, ev: Event)
    ensures var r := Reduce(sh.cur, ev, sh.cfg, w.now(|sh.trace|));
            && Below(r.1, EventRank(ev))
            && Step(w, sh, ev) == ExecAll(w, Folded(sh, ev, r.0), r.1, EventRank(ev))
            && (r.1 == [] ==> Step(w, sh, ev) == Folded(sh, ev, r.0))
  {
    ReduceBelow(sh.cur, ev, sh.cfg, w.now(|sh.trace|));
  }

  /** Firing a retry with a valid workflow acts on one verdict. */
  lemma FireUnfolds(w: World, sh: Shell, k: nat, cfg: Config)
    requires k < |sh.fires| && Wired(w)
    ensures var sh1 := Firing(sh, k, cfg);
            var r := ActOnVerdict(sh.cur, sh.fires[k], FireVerdict(w, sh, k, cfg), cfg, w.now(|sh1.trace|));
            var ev := FireEvent(w, sh, k);
            && Below(r.1, EventRank(ev))
            && Handle(w, sh, RetryFire(k, Some(cfg))) == ExecAll(w, Folded(sh1, ev, r.0), r.1, EventRank(ev))
  {
    var req := sh.fires[k];
    var sh1 := Firing(sh, k, cfg);
    var taken := sh.(fires := Without(sh.fires, k), timers := sh.timers - {req.id}, cfg := cfg, lastGood := cfg);
    ReduceBelow(sh1.cur, FireEvent(w, sh, k), cfg, w.now(|sh1.trace|));
    ExecOne(w, sh1, EffRetryFetch(req), EventRank(EvRetryDue(req)));
    assert Handle(w, sh, RetryFire(k, Some(cfg))) == Step(w, taken, EvRetryDue(req));
  }

  /** The fate of an orphan whose timer fires: stranded exactly when the tracker still has it active and
      a slot is free, rescheduled one attempt on when the fetch fails or no slot is free, else released. */
  lemma OrphanFate(w: World, sh: Shell, k: nat, cfg: Config)
    requires Wired(w) && ScheduleOk(sh) && k < |sh.fires| && sh.fires[k].id in Orphans(sh.cur)
    ensures var id := sh.fires[k].id;
            var sh' := Handle(w, sh, RetryFire(k, Some(cfg)));
            && (id in Stranded(sh') <==> FireVerdict(w, sh, k, cfg).Dispatch?)
            && (FireVerdict(w, sh, k, cfg).Dispatch? ==> sh'.spawns == sh.spawns && sh'.cur == sh.cur)
            && (FireVerdict(w, sh, k, cfg).Again? ==>
                  id in Orphans(sh'.cur) * Scheduled(sh') && sh'.cur.retries[id].attempt == sh.fires[k].attempt + 1)
            && (FireVerdict(w, sh, k, cfg).GiveUp? ==> id !in sh'.cur.claimed + sh'.cur.retries.Keys)
  {
    var req := sh.fires[k];
    FireUnfolds(w, sh, k, cfg);
    TakeFireSchedule(sh, k);
    VerdictFate(w, Firing(sh, k, cfg), req, FireVerdict(w, sh, k, cfg), FireEvent(w, sh, k));
  }

  lemma VerdictFate(w: World, sh: Shell, req: FireReq, v: Verdict, ev: Event)
    requires req.id in Orphans(sh.cur) - Scheduled(sh) && ev.EvRetryResolved?
    requires Below(ActOnVerdict(sh.cur, req, v, sh.cfg, w.now(|sh.trace|)).1, EventRank(ev))
    ensures var r := ActOnVerdict(sh.cur, req, v, sh.cfg, w.now(|sh.trace|));
            var sh' := ExecAll(w, Folded(sh, ev, r.0), r.1, EventRank(ev));
            && (req.id in Stranded(sh') <==> v.Dispatch?)
            && (v.Dispatch? ==> sh'.spawns == sh.spawns && sh'.cur == sh.cur)
            && (v.Again? ==>
                req.id in Orphans(sh'.cur) * Scheduled(sh') && sh'.cur.retries[req.id].attempt == req.attempt + 1)
            && (v.GiveUp? ==> req.id !in sh'.cur.claimed + sh'.cur.retries.Keys)
  {
    if v.Again? {
      var r := ActOnVerdict(sh.cur, req, v, sh.cfg, w.now(|sh.trace|));
      ExecOne(w, Folded(sh, ev, r.0), r.1[0], EventRank(ev));
      ArmMakesScheduled(Folded(sh, ev, r.0), FireReq(req.id, req.identifier, req.attempt + 1));
    }
  }

  lemma ArmMakesScheduled(sh: Shell, req: FireReq)
    ensures req.id in Scheduled(ArmTimer(sh, req))
  {
    assert ArmTimer(sh, req).armed[sh.nextTimer] == req;
  }

  // ---- the global cap -------------------------------------------------------

  /** The largest limit any fold ran under, and at least 0. */
  function HighestLimit(trace: seq<Fold>): int {
    if trace == [] then 0 else
    var (front, f) := (trace[..|trace| - 1], trace[|trace| - 1]);
    if f.Fold? then Max(HighestLimit(front), f.cfg.maxAgents) else HighestLimit(front)
  }

  /** No published state tracks more issues than the highest limit in force so far, across reloads. */
  lemma {:induction false} TraceCapped(trace: seq<Fold>)
    requires FoldsOk(trace)
    ensures Size(Tracked(LastState(trace))) <= HighestLimit(trace)
  {
    if trace == [] {
      assert Tracked(EMPTY_STATE) == {};
    } else {
      FoldsOkLast(trace);
      TraceCapped(trace[..|trace| - 1]);
    }
  }

  /** No published state tracks more issues than the one before it, unless the limit in force allows it. */
  lemma FoldCapped(w: World, cfg: Config, inputs: seq<Input>, k: nat)
    requires k < |Run(w, Start(cfg), inputs).trace|
    ensures var f := Run(w, Start(cfg), inputs).trace[k];
            |Tracked(f.after)| <= if f.Fold? then Max(|Tracked(f.before)|, f.cfg.maxAgents) else |Tracked(f.before)|
  {
    var trace := Run(w, Start(cfg), inputs).trace;
    StartKeeps(w, cfg);
    RunKeeps(w, Start(cfg), inputs, UNFROZEN);
    InvParts(w, Run(w, Start(cfg), inputs), NONE, UNFROZEN);
    FoldCappedAt(trace, k);
  }

  lemma FoldCappedAt(trace: seq<Fold>, k: nat)
    requires FoldsOk(trace) && k < |trace|
    ensures var f := trace[k];
            |Tracked(f.after)| <= if f.Fold? then Max(|Tracked(f.before)|, f.cfg.maxAgents) else |Tracked(f.before)|
  {
    assert FoldOk(trace, k);
    SizeIsCardinality(Tracked(trace[k].after));
    SizeIsCardinality(Tracked(trace[k].before));
  }

  lemma RunCapped(w: World, cfg: Config, inputs: seq<Input>, k: nat)
    requires k < |Run(w, Start(cfg), inputs).trace|
    ensures var trace := Run(w, Start(cfg), inputs).trace;
            |Tracked(trace[k].after)| <= HighestLimit(trace[..k + 1])
  {
    var trace := Run(w, Start(cfg), inputs).trace;
    StartKeeps(w, cfg);
    RunKeeps(w, Start(cfg), inputs, UNFROZEN);
    InvParts(w, Run(w, Start(cfg), inputs), NONE, UNFROZEN);
    FoldsOkPrefix(trace, k + 1);
    TraceCapped(trace[..k + 1]);
    SizeIsCardinality(Tracked(trace[k].after));
  }

  lemma OnlyStateFull(s: State, id: Id, issues: seq<Issue>, cfg: Config)
    requires GlobalReclaimOk(s, cfg, id) && RetryVerdict(s, id, issues, None, cfg).Again?
    ensures var found := FindIssue(issues, id); found.Some? && AvailablePerStateSlots(found.value.state, s, cfg) == 0
  {
  }

  lemma RunReclaims(w: World, cfg: Config, inputs: seq<Input>, k: nat, now: Config)
    requires var sh := Run(w, Start(cfg), inputs); k < |sh.fires| && HighestLimit(sh.trace) <= now.maxAgents
    ensures var sh := Run(w, Start(cfg), inputs); GlobalReclaimOk(sh.cur, now, sh.fires[k].id)
  {
    var sh := Run(w, Start(cfg), inputs);
    StartKeeps(w, cfg);
    RunKeeps(w, Start(cfg), inputs, UNFROZEN);
    InvParts(w, sh, NONE, UNFROZEN);
    TraceCapped(sh.trace);
    CappedReclaims(sh.cur, now, sh.fires[k].id);
  }

  /** A retry that fires under a limit as high as any before it passes the global slot test, whatever was reloaded with
      it; it is put off for want of a slot only when its own state is full. */
  lemma ReclaimNeverStarved(w: World, cfg: Config, inputs: seq<Input>, k: nat, now: Config)
    requires var sh := Run(w, Start(cfg), inputs); k < |sh.fires| && HighestLimit(sh.trace) <= now.maxAgents
    ensures var sh := Run(w, Start(cfg), inputs);
            var answer := w.candidates(|sh.trace| + 1);
            && GlobalReclaimOk(sh.cur, now, sh.fires[k].id)
            && (answer.Ok? && FireVerdict(w, sh, k, now).Again? ==>
                  var found := FindIssue(answer.value, sh.fires[k].id);
                  found.Some? && AvailablePerStateSlots(found.value.state, sh.cur, now) == 0)
  {
    var sh := Run(w, Start(cfg), inputs);
    RunReclaims(w, cfg, inputs, k, now);
    var answer := w.candidates(|sh.trace| + 1);
    if answer.Ok? && FireVerdict(w, sh, k, now).Again? {
      OnlyStateFull(sh.cur, sh.fires[k].id, answer.value, now);
    }
  }

  lemma CappedReclaims(s: State, cfg: Config, id: Id)
    requires ClaimsOk(s, {}) && Size(Tracked(s)) <= cfg.maxAgents && id in s.retries
    ensures GlobalReclaimOk(s, cfg, id)
  {
    AllTrackedUsed(s);
    SizeIsCardinality(Tracked(s));
  }

  // ---- late exits -----------------------------------------------------------

  lemma ExitFold(s: State, e: Exit, cfg: Config, now: int)
    requires e.id in s.running
    ensures var r := ReduceWorkerExit(s, e, cfg, now);
            && e.id !in r.0.running && e.id in r.0.retries && |r.1| == 1 && r.1[0].EffArmRetryTimer?
            && (r.0.retries[e.id].attempt == s.running[e.id].attempt + 1
                <==> e.err.None? || e.attempt == s.running[e.id].attempt)
  {
  }

  lemma ExitStep(w: World, sh: Shell, exit: Exit)
    requires exit.id in sh.cur.running
    ensures var sh' := Step(w, sh, EvWorkerExit(exit));
            sh'.cur == ReduceWorkerExit(sh.cur, exit, sh.cfg, w.now(|sh.trace|)).0 && sh'.workers == sh.workers
            && sh'.fleet == sh.fleet
  {
    var ev := EvWorkerExit(exit);
    StepUnfolds(w, sh, ev);
    var r := ReduceWorkerExit(sh.cur, exit, sh.cfg, w.now(|sh.trace|));
    ExitFold(sh.cur, exit, sh.cfg, w.now(|sh.trace|));
    assert r.1 == [r.1[0]];
    ExecOne(w, Folded(sh, ev, r.0), r.1[0], EventRank(ev));
  }

  /** A worker exit is matched by issue only. Whatever attempt it reports, it takes the running attempt out of
      Running without a kill; the queued attempt is the successor of the running one if and only if the
      exit was clean or really was the running attempt's. */
  lemma ExitIgnoresAttempt(w: World, sh: Shell, exit: Exit, from: nat, reload: Option<Config>)
    requires exit.id in sh.cur.running
    ensures var sh' := Handle(w, sh, WorkerDone(exit, from, reload));
            && exit.id !in sh'.cur.running && exit.id in sh'.cur.retries && sh'.workers == sh.workers - {exit.id}
            && (sh'.cur.retries[exit.id].attempt == sh.cur.running[exit.id].attempt + 1
                <==> exit.err.None? || exit.attempt == sh.cur.running[exit.id].attempt)
  {
    var sh1 := Reloaded(Exited(sh, exit, from), reload);
    ExitStep(w, sh1, exit);
    ExitFold(sh1.cur, exit, sh1.cfg, w.now(|sh1.trace|));
  }
}
