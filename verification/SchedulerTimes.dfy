/** Times and configurations over whole runs: how long each queued retry waits, when a silent worker counts as stalled,
    what a worker's report records, and which configuration is in force. */
module SchedulerTimes {
  import opened SchedulerTypes
  import opened SchedulerReduce
  import opened SchedulerDrain
  import opened SchedulerInvariant
  import opened SchedulerSafety
  import opened SchedulerRuns
  import opened SchedulerTheorems
  import opened SchedulerReconcile
  import SchedulerDispatch
  import B = Backoff
  import Order

  // ---- how long a retry waits -----------------------------------------------

  /** A second without an error, or the backoff of the entry's own attempt with one. */
  predicate Timed(e: RetryEntry, cfg: Config) {
    match e.kind
    case Continuation => e.err.None? && Nanoseconds(e.delay) == 1_000_000_000
    case Backoff => e.err.Some? && Nanoseconds(e.delay) == B.BackoffDelay(e.attempt, cfg.maxBackoffMs)
  }

  /** The entry of an issue is not the one it was. */
  predicate Requeues(s: State, s': State, id: Id) {
    id in s'.retries && (id !in s.retries || s'.retries[id] != s.retries[id])
  }

  predicate TimedAt(e: RetryEntry, cfg: Config, now: int) { Timed(e, cfg) && e.armedAt == now }

  lemma TickTimed(s: State, valid: bool, cfg: Config, now: int, id: Id)
    requires Requeues(s, ReduceTick(s, valid, cfg, now).0, id)
    ensures var e := ReduceTick(s, valid, cfg, now).0.retries[id]; TimedAt(e, cfg, now) && e.kind == Backoff
  {
    StallByRule(s, cfg, now, id);
  }

  lemma RuleTimed(t: Track, id: Id, reported: Option<Issue>, cfg: Config, now: int)
    ensures var t' := RefreshRule(t, id, reported, cfg, now).0;
            || t'.retry.None? || t'.retry == t.retry
            || (TimedAt(t'.retry.value, cfg, now) && t'.retry.value.kind == Backoff)
  {
  }

  lemma RefreshTimed(s: State, requested: seq<Id>, issues: seq<Issue>, cfg: Config, now: int, id: Id)
    requires Requeues(s, RefreshAll(s, SortIds(requested), issues, cfg, now).0, id)
    ensures var e := RefreshAll(s, SortIds(requested), issues, cfg, now).0.retries[id];
            TimedAt(e, cfg, now) && e.kind == Backoff
  {
    RefreshByRule(s, requested, issues, cfg, now, id);
    RuleTimed(TrackOf(s, id), id, LastById(issues, id), cfg, now);
    assert TrackOf(Reduce(s, EvTrackerRefreshed(requested, issues), cfg, now).0, id).retry.Some?;
  }

  lemma ExitTimed(s: State, exit: Exit, cfg: Config, now: int, id: Id)
    requires Requeues(s, ReduceWorkerExit(s, exit, cfg, now).0, id)
    ensures var e := ReduceWorkerExit(s, exit, cfg, now).0.retries[id];
            TimedAt(e, cfg, now) && exit.id == id && (e.kind == Continuation <==> exit.err.None?)
  {
  }

  lemma VerdictTimed(s: State, req: FireReq, v: Verdict, cfg: Config, now: int, id: Id)
    requires Requeues(s, ActOnVerdict(s, req, v, cfg, now).0, id)
    ensures var e := ActOnVerdict(s, req, v, cfg, now).0.retries[id]; TimedAt(e, cfg, now) && e.kind == Backoff
  {
  }

  lemma SpawnFailedTimed(s: State, issue: Issue, attempt: int, err: string, cfg: Config, now: int, id: Id)
    requires Requeues(s, ReduceSpawnFailed(s, issue, attempt, err, cfg, now).0, id)
    ensures var e := ReduceSpawnFailed(s, issue, attempt, err, cfg, now).0.retries[id];
            TimedAt(e, cfg, now) && e.kind == Backoff
  {
  }

  lemma DispatchQueues(s: State, issues: seq<Issue>, cfg: Config)
    ensures ReduceCandidates(s, issues, cfg).0.retries == s.retries
  {
    SchedulerDispatch.GreedyDispatch(s, issues, cfg);
  }

  /** Whatever event queues an issue, it waits as long as its entry says it must, from the time of the event; only a
      clean exit of its worker makes it a continuation. */
  lemma QueuedTimed(s: State, ev: Event, cfg: Config, now: int, id: Id)
    requires Requeues(s, Reduce(s, ev, cfg, now).0, id)
    ensures var e := Reduce(s, ev, cfg, now).0.retries[id];
            && TimedAt(e, cfg, now)
            && (e.kind == Continuation <==> ev.EvWorkerExit? && ev.exit.id == id && ev.exit.err.None?)
  {
    match ev
    case EvTick(valid) => TickTimed(s, valid, cfg, now, id);
    case EvTrackerRefreshed(requested, issues) => RefreshTimed(s, requested, issues, cfg, now, id);
    case EvCandidatesFetched(issues) => DispatchQueues(s, issues, cfg);
    case EvRetryResolved(req, issues, err) =>
      VerdictTimed(s, req, RetryVerdict(s, req.id, issues, err, cfg), cfg, now, id);
    case EvSpawnFailed(issue, attempt, err) => SpawnFailedTimed(s, issue, attempt, err, cfg, now, id);
    case EvWorkerExit(exit) => ExitTimed(s, exit, cfg, now, id);
    case _ =>
  }

  /** The issue's timer is armed for exactly the entry: its attempt, and its delay. */
  ghost predicate ArmedAs(effs: seq<Effect>, id: Id, e: RetryEntry) {
    forall eff :: eff in Concerning(effs, id) && eff.EffArmRetryTimer?
                  <==> eff == EffArmRetryTimer(FireReq(id, e.identifier, e.attempt), e.delay)
  }

  lemma OneArm(eff: Effect, id: Id, e: RetryEntry)
    requires eff == EffArmRetryTimer(FireReq(id, e.identifier, e.attempt), e.delay)
    ensures ArmedAs([eff], id, e)
  {
    assert [eff][1..] == [];
    assert Concerning([eff], id) == [eff] + [];
    assert [eff][0] == eff;
  }

  lemma KillThenArm(effs: seq<Effect>, kill: Effect, eff: Effect, id: Id, e: RetryEntry)
    requires Concerning(effs, id) == [kill, eff] && kill.EffKillWorker?
    requires eff == EffArmRetryTimer(FireReq(id, e.identifier, e.attempt), e.delay)
    ensures ArmedAs(effs, id, e)
  {
    assert [kill, eff][1] == eff;
  }

  lemma TickArms(s: State, valid: bool, cfg: Config, now: int, id: Id)
    requires Requeues(s, ReduceTick(s, valid, cfg, now).0, id)
    ensures ArmedAs(ReduceTick(s, valid, cfg, now).1, id, ReduceTick(s, valid, cfg, now).0.retries[id])
  {
    var (s', effs) := ReduceStall(s, cfg, now);
    var refresh := if s'.running != map[] then [EffRefreshTracker(Order.Sorted(s'.running.Keys))] else [];
    var fetch := if valid then [EffFetchCandidates] else [];
    StallByRule(s, cfg, now, id);
    Unconcerned(refresh, id);
    Unconcerned(fetch, id);
    ConcerningAppend(effs, refresh, id);
    ConcerningAppend(effs + refresh, fetch, id);
    var own := Concerning(effs, id);
    assert Concerning(effs + refresh + fetch, id) == own;
    KillThenArm(effs + refresh + fetch, own[0], own[1], id, s'.retries[id]);
  }

  lemma {:induction false} Unconcerned(effs: seq<Effect>, id: Id)
    requires forall k | 0 <= k < |effs| :: !effs[k].EffKillWorker? && !effs[k].EffArmRetryTimer?
    ensures Concerning(effs, id) == []
    decreases |effs|
  {
    if effs != [] {
      Unconcerned(effs[1..], id);
    }
  }

  lemma RefreshArms(s: State, requested: seq<Id>, issues: seq<Issue>, cfg: Config, now: int, id: Id)
    requires Requeues(s, RefreshAll(s, SortIds(requested), issues, cfg, now).0, id)
    ensures var r := RefreshAll(s, SortIds(requested), issues, cfg, now); ArmedAs(r.1, id, r.0.retries[id])
  {
    var r := RefreshAll(s, SortIds(requested), issues, cfg, now);
    RefreshByRule(s, requested, issues, cfg, now, id);
    assert TrackOf(r.0, id).retry == Some(r.0.retries[id]);
    var own := Concerning(r.1, id);
    assert own == RefreshRule(TrackOf(s, id), id, LastById(issues, id), cfg, now).1;
    KillThenArm(r.1, own[0], own[1], id, r.0.retries[id]);
  }

  lemma ArmRetryArms(s: State, entry: RetryEntry)
    ensures ArmedAs(ArmRetry(s, entry).1, entry.id, entry)
  {
    OneArm(ArmRetry(s, entry).1[0], entry.id, entry);
  }

  lemma VerdictArms(s: State, req: FireReq, v: Verdict, cfg: Config, now: int, id: Id)
    requires Requeues(s, ActOnVerdict(s, req, v, cfg, now).0, id)
    ensures var r := ActOnVerdict(s, req, v, cfg, now); ArmedAs(r.1, id, r.0.retries[id])
  {
    ArmRetryArms(s, ActOnVerdict(s, req, v, cfg, now).0.retries[id]);
  }

  lemma FailureArms(s: State, issue: Issue, attempt: int, err: string, cfg: Config, now: int, id: Id)
    requires Requeues(s, ReduceSpawnFailed(s, issue, attempt, err, cfg, now).0, id)
    ensures var r := ReduceSpawnFailed(s, issue, attempt, err, cfg, now); ArmedAs(r.1, id, r.0.retries[id])
  {
    ArmRetryArms(ReleaseClaim(s, issue.id), ReduceSpawnFailed(s, issue, attempt, err, cfg, now).0.retries[id]);
  }

  lemma ExitArms(s: State, exit: Exit, cfg: Config, now: int, id: Id)
    requires Requeues(s, ReduceWorkerExit(s, exit, cfg, now).0, id)
    ensures var r := ReduceWorkerExit(s, exit, cfg, now); ArmedAs(r.1, id, r.0.retries[id])
  {
    ArmRetryArms(Demote(s, exit.id), ReduceWorkerExit(s, exit, cfg, now).0.retries[id]);
  }

  /** Whatever event queues an issue also arms its timer, once and for that entry: the attempt it is queued for and the
      delay it waits. */
  lemma ArmedAsQueued(s: State, ev: Event, cfg: Config, now: int, id: Id)
    requires Requeues(s, Reduce(s, ev, cfg, now).0, id)
    ensures ArmedAs(Reduce(s, ev, cfg, now).1, id, Reduce(s, ev, cfg, now).0.retries[id])
  {
    match ev
    case EvTick(valid) => TickArms(s, valid, cfg, now, id);
    case EvTrackerRefreshed(requested, issues) => RefreshArms(s, requested, issues, cfg, now, id);
    case EvCandidatesFetched(issues) => DispatchQueues(s, issues, cfg);
    case EvRetryResolved(req, issues, err) =>
      VerdictArms(s, req, RetryVerdict(s, req.id, issues, err, cfg), cfg, now, id);
    case EvSpawnFailed(issue, attempt, err) => FailureArms(s, issue, attempt, err, cfg, now, id);
    case EvWorkerExit(exit) => ExitArms(s, exit, cfg, now, id);
    case _ =>
  }

  /** The k-th published state queued the entry, with the wait that its configuration asks for; or it pushed the entry
      back by a second and left it as it was otherwise. */
  predicate QueuedBy(f: Fold, id: Id, e: RetryEntry) {
    && id in f.after.retries && f.after.retries[id] == e
    && match f
       case Fold(before, ev, cfg, _) =>
         && Timed(e, cfg)
         && (e.kind == Continuation <==> ev.EvWorkerExit? && ev.exit.id == id && ev.exit.err.None?)
       case Deferred(before, _, _) =>
         && id in before.retries && e == before.retries[id].(armedAt := e.armedAt, delay := e.delay)
         && Nanoseconds(e.delay) == 1_000_000_000
  }

  lemma LastQueued(f: Fold, id: Id)
    requires Reduced(f) && Requeues(f.before, f.after, id)
    ensures QueuedBy(f, id, f.after.retries[id])
  {
    if f.Fold? {
      var now :| f.after == Reduce(f.before, f.ev, f.cfg, now).0;
      QueuedTimed(f.before, f.ev, f.cfg, now, id);
    }
  }

  lemma {:induction false} TraceTimed(trace: seq<Fold>, id: Id) returns (k: nat)
    requires FoldsOk(trace) && id in LastState(trace).retries
    ensures k < |trace| && QueuedBy(trace[k], id, LastState(trace).retries[id])
    decreases |trace|
  {
    var f := trace[|trace| - 1];
    FoldsOkLast(trace);
    if Requeues(f.before, f.after, id) {
      LastQueued(f, id);
      k := |trace| - 1;
    } else {
      k := TraceTimed(trace[..|trace| - 1], id);
    }
  }

  /** After any run every queued retry waits as long as it should: some fold of the run queued it as it is, with the
      backoff of its own attempt under the configuration of that fold, a second if its worker had ended cleanly, or a
      second because it was pushed back. */
  lemma DelaysOverRuns(w: World, cfg: Config, inputs: seq<Input>, id: Id)
    requires id in Run(w, Start(cfg), inputs).cur.retries
    ensures var sh := Run(w, Start(cfg), inputs);
            exists k :: 0 <= k < |sh.trace| && QueuedBy(sh.trace[k], id, sh.cur.retries[id])
  {
    var sh := Run(w, Start(cfg), inputs);
    StartKeeps(w, cfg);
    RunKeeps(w, Start(cfg), inputs, UNFROZEN);
    InvParts(w, sh, NONE, UNFROZEN);
    var k := TraceTimed(sh.trace, id);
  }

  // ---- reports and stalls ---------------------------------------------------

  /** The last sign of life of a running attempt: its last report, else its start; 0 when there is neither. */
  function LastSign(run: RunAttempt): int { if run.lastTimestamp != 0 then run.lastTimestamp else run.startedAt }

  predicate Kills(effs: seq<Effect>, id: Id) {
    exists k :: 0 <= k < |effs| && effs[k].EffKillWorker? && effs[k].id == id
  }

  lemma {:induction false} KillsConcern(effs: seq<Effect>, id: Id)
    ensures Kills(effs, id) <==> Kills(Concerning(effs, id), id)
    decreases |effs|
  {
    if effs != [] {
      var rest := effs[1..];
      KillsConcern(rest, id);
      var own, tail := About(effs[0], id), Concerning(rest, id);
      assert effs == [effs[0]] + rest;
      if k :| 0 <= k < |rest| && rest[k].EffKillWorker? && rest[k].id == id {
        assert effs[k + 1] == rest[k];
      }
      if k :| 0 <= k < |tail| && tail[k].EffKillWorker? && tail[k].id == id {
        assert (own + tail)[|own| + k] == tail[k];
      }
      if own != [] {
        assert own == [effs[0]] && (own + tail)[0] == effs[0];
      }
      if k :| 0 <= k < |own + tail| && (own + tail)[k].EffKillWorker? && (own + tail)[k].id == id {
        assert k < |own| || (own + tail)[k] == tail[k - |own|];
      }
      if k :| 0 <= k < |effs| && effs[k].EffKillWorker? && effs[k].id == id {
        assert k == 0 || effs[k] == rest[k - 1];
      }
    }
  }

  lemma TickKills(s: State, valid: bool, cfg: Config, now: int, id: Id)
    ensures Kills(ReduceTick(s, valid, cfg, now).1, id) <==> Kills(ReduceStall(s, cfg, now).1, id)
  {
    var (s', effs) := ReduceStall(s, cfg, now);
    var all := ReduceTick(s, valid, cfg, now).1;
    assert forall k | 0 <= k < |effs| :: all[k] == effs[k];
    assert forall k | |effs| <= k < |all| :: !all[k].EffKillWorker?;
  }

  /** A tick kills a worker exactly when the stall timeout is on, the worker has given a sign of life, and that was
      longer ago than the timeout; its issue then leaves Running, and otherwise stays. */
  lemma StallsExactly(s: State, valid: bool, cfg: Config, now: int, id: Id)
    requires id in s.running
    ensures var (s', effs) := Reduce(s, EvTick(valid), cfg, now);
            var stalls := cfg.stallTimeoutMs > 0 && LastSign(s.running[id]) != 0
                          && now - LastSign(s.running[id]) > cfg.stallTimeoutMs * 1_000_000;
            (Kills(effs, id) <==> stalls) && (id !in s'.running <==> stalls)
  {
    StallByRule(s, cfg, now, id);
    TickKills(s, valid, cfg, now, id);
    var effs := ReduceStall(s, cfg, now).1;
    KillsConcern(effs, id);
    if Concerning(effs, id) != [] {
      assert Concerning(effs, id)[0].EffKillWorker?;
    }
  }

  /** Where every issue is, and the records of the running ones without their accounts. */
  datatype View = View(running: map<Id, RunAttempt>, claimed: set<Id>, retries: map<Id, RetryEntry>)

  function Face(run: RunAttempt): RunAttempt { run.(totals := Totals(0, 0, 0), totalRuntime := 0) }

  function ViewOf(s: State): View { View(map id | id in s.running :: Face(s.running[id]), s.claimed, s.retries) }

  /** The report's event and time, its message if there is one. */
  function Noted(v: View, a: Activity): View
    requires a.id in v.running
  {
    var run := v.running[a.id];
    v.(running := v.running[a.id := run.(lastEvent := a.event, lastTimestamp := a.timestamp,
                                         lastMessage := if a.message == "" then run.lastMessage else a.message)])
  }

  function Limited(v: View, a: Activity): View
    requires a.id in v.running
  {
    if a.rateLimit.None? then v else v.(running := v.running[a.id := v.running[a.id].(rateLimit := a.rateLimit)])
  }

  function Turned(v: View, a: Activity): View
    requires a.id in v.running
  {
    if !a.turnCompleted then v else
    v.(running := v.running[a.id := v.running[a.id].(turns := v.running[a.id].turns + 1)])
  }

  lemma NotedView(s: State, a: Activity)
    requires a.id in s.running
    ensures ViewOf(UpdateActivity(s, a)) == Noted(ViewOf(s), a)
  {
    assert ViewOf(UpdateActivity(s, a)).running == Noted(ViewOf(s), a).running;
  }

  lemma UsageView(s: State, id: Id, u: Usage)
    ensures ViewOf(RecordUsage(s, id, u)) == ViewOf(s)
  {
    assert ViewOf(RecordUsage(s, id, u)).running == ViewOf(s).running;
  }

  lemma LimitView(s: State, a: Activity)
    requires a.id in s.running && a.rateLimit.Some?
    ensures ViewOf(RecordRateLimit(s, a.id, a.rateLimit.value)) == Limited(ViewOf(s), a)
  {
    assert ViewOf(RecordRateLimit(s, a.id, a.rateLimit.value)).running == Limited(ViewOf(s), a).running;
  }

  lemma RuntimeView(s: State, id: Id, d: int)
    ensures ViewOf(AddRuntime(s, id, d)) == ViewOf(s)
  {
    assert ViewOf(AddRuntime(s, id, d)).running == ViewOf(s).running;
  }

  lemma TurnView(s: State, a: Activity)
    requires a.id in s.running && a.turnCompleted
    ensures ViewOf(IncrementTurns(s, a.id)) == Turned(ViewOf(s), a)
  {
    assert ViewOf(IncrementTurns(s, a.id)).running == Turned(ViewOf(s), a).running;
  }

  /** Apart from the accounts, a report for a running issue records its event, time and message, its rate limit and a
      finished turn, in that issue's record only; one for any other issue changes nothing. */
  lemma ReportRecorded(s: State, a: Activity, cfg: Config, now: int)
    ensures var (s', effs) := Reduce(s, EvCodexActivity(a), cfg, now);
            && effs == []
            && ViewOf(s') == if a.id in s.running then Turned(Limited(Noted(ViewOf(s), a), a), a) else ViewOf(s)
  {
    if a.id in s.running {
      var s1 := UpdateActivity(s, a);
      NotedView(s, a);
      var s2 := if a.usage.Some? then RecordUsage(s1, a.id, a.usage.value) else s1;
      if a.usage.Some? {
        UsageView(s1, a.id, a.usage.value);
      }
      var s3 := if a.rateLimit.Some? then RecordRateLimit(s2, a.id, a.rateLimit.value) else s2;
      if a.rateLimit.Some? {
        LimitView(s2, a);
      }
      var s4 := if a.turnDuration.Some? then AddRuntime(s3, a.id, a.turnDuration.value) else s3;
      if a.turnDuration.Some? {
        RuntimeView(s3, a.id, a.turnDuration.value);
      }
      if a.turnCompleted {
        TurnView(s4, a);
      }
    }
  }

  /** A report at a time other than zero puts the stall off: a later tick kills the worker exactly when the report is
      longer ago than a positive timeout. */
  lemma ReportPutsOffStall(s: State, a: Activity, cfg: Config, at: int, valid: bool, cfg': Config, now: int)
    requires a.id in s.running && a.timestamp != 0 && cfg'.stallTimeoutMs > 0
    ensures var s1 := Reduce(s, EvCodexActivity(a), cfg, at).0;
            Kills(Reduce(s1, EvTick(valid), cfg', now).1, a.id)
            <==> now - a.timestamp > cfg'.stallTimeoutMs * 1_000_000
  {
    ReportRecorded(s, a, cfg, at);
    assert ViewOf(Reduce(s, EvCodexActivity(a), cfg, at).0).running[a.id].lastTimestamp == a.timestamp;
    StallsExactly(Reduce(s, EvCodexActivity(a), cfg, at).0, valid, cfg', now, a.id);
  }

  // ---- the configuration in force -------------------------------------------

  /** A drain: the configuration stays, and everything it folds is folded under it. */
  predicate Under(sh: Shell, sh': Shell) {
    && sh'.cfg == sh.cfg && sh'.lastGood == sh.lastGood && sh.trace <= sh'.trace
    && forall k | |sh.trace| <= k < |sh'.trace| && sh'.trace[k].Fold? :: sh'.trace[k].cfg == sh.cfg
  }

  lemma StepUnder(w: World, sh: Shell, ev: Event)
    ensures Under(sh, Step(w, sh, ev))
    decreases EventRank(ev)
  {
    var r := Reduce(sh.cur, ev, sh.cfg, w.now(|sh.trace|));
    ReduceBelow(sh.cur, ev, sh.cfg, w.now(|sh.trace|));
    ExecAllUnder(w, Folded(sh, ev, r.0), r.1, EventRank(ev));
  }

  lemma ExecAllUnder(w: World, sh: Shell, effs: seq<Effect>, rank: nat)
    requires Below(effs, rank)
    ensures Under(sh, ExecAll(w, sh, effs, rank))
    decreases rank, |effs|
  {
    if effs != [] {
      ExecUnder(w, sh, effs[0]);
      ExecAllUnder(w, Exec(w, sh, effs[0]), effs[1..], rank);
    }
  }

  lemma ExecUnder(w: World, sh: Shell, eff: Effect)
    ensures Under(sh, Exec(w, sh, eff))
    decreases EffectRank(eff)
  {
    match eff
    case EffFetchCandidates =>
      if Wired(w) && w.candidates(|sh.trace|).Ok? {
        StepUnder(w, sh, EvCandidatesFetched(w.candidates(|sh.trace|).value));
      }
    case EffRefreshTracker(ids) =>
      if w.deps.refresher && w.deps.workspace && w.refresh(|sh.trace|, ids).Ok? {
        StepUnder(w, sh, EvTrackerRefreshed(ids, w.refresh(|sh.trace|, ids).value));
      }
    case EffRevalidate(issue, attempt) =>
      StepUnder(w, sh, EvRevalidated(issue, attempt, Revalidate(w, |sh.trace|, issue)));
    case EffRetryFetch(req) =>
      if Wired(w) {
        match w.candidates(|sh.trace|) {
          case Err(e) => StepUnder(w, sh, EvRetryResolved(req, [], Some(e)));
          case Ok(issues) => StepUnder(w, sh, EvRetryResolved(req, issues, None));
        }
      }
    case EffSpawn(issue, attempt) =>
      if w.deps.spawner {
        var called := sh.(spawns := sh.spawns + [SpawnCall(sh.cur, issue, attempt)]);
        match w.spawn(|sh.trace|, issue, attempt) {
          case Err(e) => StepUnder(w, called, EvSpawnFailed(issue, attempt, e));
          case Ok(res) => StepUnder(w, Hired(called, issue.id, res), EvSpawned(issue, attempt, res.session));
        }
      }
    case _ =>
  }

  /** The configuration an input brings with it, if its workflow file was read and valid. */
  function Brought(sh: Shell, input: Input): Option<Config> {
    match input
    case Tick(reload) => reload
    case RetryFire(k, reload) => if k < |sh.fires| then reload else None
    case WorkerDone(_, _, reload) => reload
    case _ => None
  }

  /** The last valid configuration read, else the one the scheduler was started with. */
  function InForce(w: World, cfg: Config, inputs: seq<Input>): Config {
    if inputs == [] then cfg else
    var front := inputs[..|inputs| - 1];
    var brought := Brought(Run(w, Start(cfg), front), inputs[|inputs| - 1]);
    if brought.Some? then brought.value else InForce(w, cfg, front)
  }

  lemma HandleUnder(w: World, sh: Shell, input: Input)
    requires sh.cfg == sh.lastGood
    ensures var cfg := if Brought(sh, input).Some? then Brought(sh, input).value else sh.cfg;
            Under(sh.(cfg := cfg, lastGood := cfg), Handle(w, sh, input))
  {
    match input
    case Tick(reload) => StepUnder(w, Reloaded(sh, reload), EvTick(reload.Some?));
    case RetryFire(k, reload) =>
      if k < |sh.fires| && reload.Some? {
        var taken := sh.(fires := Without(sh.fires, k), timers := sh.timers - {sh.fires[k].id});
        StepUnder(w, Reloaded(taken, reload), EvRetryDue(sh.fires[k]));
      }
    case WorkerDone(exit, from, reload) => StepUnder(w, Reloaded(Exited(sh, exit, from), reload), EvWorkerExit(exit));
    case Notified(a) => StepUnder(w, sh, EvCodexActivity(a));
    case TimerElapses(_) =>
  }

  /** After any run the configuration is the last valid one read, and everything that handling the last input folded
      was folded under it. */
  lemma {:induction false} ConfigOverRuns(w: World, cfg: Config, inputs: seq<Input>)
    ensures var sh := Run(w, Start(cfg), inputs);
            && sh.cfg == sh.lastGood == InForce(w, cfg, inputs)
            && (inputs != [] ==> forall k ::
                  |Run(w, Start(cfg), inputs[..|inputs| - 1]).trace| <= k < |sh.trace| && sh.trace[k].Fold?
                  ==> sh.trace[k].cfg == InForce(w, cfg, inputs))
    decreases |inputs|
  {
    if inputs != [] {
      ConfigOverRuns(w, cfg, inputs[..|inputs| - 1]);
      HandleUnder(w, Run(w, Start(cfg), inputs[..|inputs| - 1]), inputs[|inputs| - 1]);
    }
  }
}
