/** What a worker's exit, a spawn, a fired retry, a fresh dispatch and a refresh do to one issue, stated on the
    tracker's answers, the counts and the clock. */
module SchedulerRetries {
  import opened SchedulerTypes
  import opened SchedulerReduce
  import opened SchedulerDrain
  import opened SchedulerInvariant
  import opened SchedulerSafety
  import opened SchedulerRuns
  import opened SchedulerTheorems
  import opened SchedulerReconcile
  import opened SchedulerFields
  import SchedulerStateCaps
  import B = Backoff

  // ---- queued entries -------------------------------------------------------

  /** Armed at `now` for the given attempt, after an error and with the backoff of that attempt. */
  predicate BacksOff(e: RetryEntry, id: Id, identifier: string, attempt: int, err: string, cfg: Config, now: int) {
    && e.id == id && e.identifier == identifier && e.attempt == attempt
    && e.kind == Backoff && e.err == Some(err) && e.armedAt == now
    && Nanoseconds(e.delay) == B.BackoffDelay(attempt, cfg.maxBackoffMs)
    && DueAtMs(e) == (now + B.BackoffDelay(attempt, cfg.maxBackoffMs)) / 1_000_000
  }

  /** Armed at `now` for the next attempt of a worker that ended cleanly, due in a second. */
  predicate Continues(e: RetryEntry, id: Id, identifier: string, attempt: int, now: int) {
    && e.id == id && e.identifier == identifier && e.attempt == attempt
    && e.kind == Continuation && e.err == None && e.armedAt == now
    && Nanoseconds(e.delay) == 1_000_000_000 && DueAtMs(e) == (now + 1_000_000_000) / 1_000_000
  }

  /** The issue's one effect is a timer for the entry. */
  predicate ArmsOnly(effs: seq<Effect>, e: RetryEntry) {
    effs == [EffArmRetryTimer(FireReq(e.id, e.identifier, e.attempt), e.delay)]
  }

  lemma ConcerningOne(e: Effect, id: Id)
    ensures Concerning([e], id) == About(e, id)
  {
    assert [e][1..] == [];
  }

  // ---- worker exits ---------------------------------------------------------

  /** An exit of a running issue: the issue keeps its claim and waits, a second after a clean exit and the backoff of
      the exit's next attempt after a failure. Nothing else changes, and an exit of any other issue does nothing. */
  lemma ExitByRule(s: State, e: Exit, cfg: Config, now: int, id: Id)
    ensures var (s', effs) := Reduce(s, EvWorkerExit(e), cfg, now);
            var t, t' := TrackOf(s, id), TrackOf(s', id);
            if id != e.id || t.run.None? then t' == t && Concerning(effs, id) == []
            else
              && t'.run.None? && t'.claimed == t.claimed
              && t'.retry.Some? && ArmsOnly(Concerning(effs, id), t'.retry.value)
              && var identifier := t.run.value.issue.identifier;
                 if e.err.None? then Continues(t'.retry.value, id, identifier, t.run.value.attempt + 1, now)
                 else BacksOff(t'.retry.value, id, identifier, e.attempt + 1, e.err.value, cfg, now)
  {
    var effs := Reduce(s, EvWorkerExit(e), cfg, now).1;
    if e.id in s.running {
      ConcerningOne(effs[0], id);
      assert effs == [effs[0]];
    }
  }

  /** A failed spawn: the issue gives up its claim and waits with the backoff of the next attempt. */
  lemma SpawnFailedByRule(s: State, issue: Issue, attempt: int, err: string, cfg: Config, now: int, id: Id)
    ensures var (s', effs) := Reduce(s, EvSpawnFailed(issue, attempt, err), cfg, now);
            var t, t' := TrackOf(s, id), TrackOf(s', id);
            if id != issue.id then t' == t && Concerning(effs, id) == []
            else
              && t'.run.None? && !t'.claimed && t'.retry.Some? && ArmsOnly(Concerning(effs, id), t'.retry.value)
              && BacksOff(t'.retry.value, id, issue.identifier, attempt + 1, err, cfg, now)
  {
    var effs := Reduce(s, EvSpawnFailed(issue, attempt, err), cfg, now).1;
    ConcerningOne(effs[0], id);
    assert effs == [effs[0]];
  }

  /** A spawn that worked: the issue runs the attempt asked for, from the time its session started. */
  lemma SpawnedByRule(s: State, issue: Issue, attempt: int, session: LiveSession, cfg: Config, now: int, id: Id)
    ensures var (s', effs) := Reduce(s, EvSpawned(issue, attempt, session), cfg, now);
            var t, t' := TrackOf(s, id), TrackOf(s', id);
            && effs == [] && t'.claimed == t.claimed && t'.retry == t.retry
            && if id != issue.id then t'.run == t.run
               else
                 && t'.run.Some? && t'.run.value.issue == issue && t'.run.value.attempt == attempt
                 && t'.run.value.session == session && t'.run.value.startedAt == session.startedAt
                 && t'.run.value.lastTimestamp == 0 && t'.run.value.turns == 0
  {
  }

  // ---- a fired retry --------------------------------------------------------

  /** The first issue of the list with the ID. */
  predicate First(issues: seq<Issue>, id: Id, i: int) {
    0 <= i < |issues| && issues[i].id == id && forall j | 0 <= j < i :: issues[j].id != id
  }

  /** The list has the issue, and its first entry for it is workable. */
  ghost predicate Wanted(issues: seq<Issue>, id: Id, cfg: Config) {
    exists i :: First(issues, id, i) && Workable(issues[i].state, cfg)
  }

  lemma {:induction false} FindIssueIs(issues: seq<Issue>, id: Id)
    ensures FindIssue(issues, id).Some? <==> exists i :: First(issues, id, i)
    ensures forall i | First(issues, id, i) :: FindIssue(issues, id) == Some(issues[i])
    decreases |issues|
  {
    if issues != [] {
      var rest := issues[1..];
      FindIssueIs(rest, id);
      if issues[0].id == id {
        assert First(issues, id, 0);
      } else {
        forall i | First(issues, id, i) ensures First(rest, id, i - 1) && rest[i - 1] == issues[i] {
          assert forall j | 0 <= j < i - 1 :: rest[j] == issues[j + 1];
        }
        if i :| First(rest, id, i) {
          assert forall j | 1 <= j < i + 1 :: issues[j] == rest[j - 1];
          assert First(issues, id, i + 1);
        }
      }
    }
  }

  lemma WantedIs(issues: seq<Issue>, id: Id, cfg: Config)
    ensures Wanted(issues, id, cfg)
            <==> FindIssue(issues, id).Some? && Dispatchable(FindIssue(issues, id).value.state, cfg)
  {
    FindIssueIs(issues, id);
    if i :| First(issues, id, i) {
      WorkableIs(issues[i].state, cfg);
    }
    if i :| First(issues, id, i) && Workable(issues[i].state, cfg) {
      WorkableIs(issues[i].state, cfg);
    }
  }

  /** Without the issue's own place the scheduler is full, or its state is. */
  predicate Crowded(s: State, id: Id, state: string, cfg: Config) {
    || Busy(s) - (if id in s.retries then 1 else 0) >= cfg.maxAgents
    || BusyIn(s, state) >= StateCap(state, cfg)
  }

  lemma CrowdedIs(s: State, id: Id, state: string, cfg: Config)
    ensures Crowded(s, id, state, cfg) <==> !RetryReclaimHasSlot(s, cfg, id, state)
  {
    BusyIs(s);
    BusyInIs(s, state);
    StateCapIs(state, cfg);
  }

  /** The retry is queued again one attempt on, with its claim as it was, and everything else is as before. */
  predicate PutOff(s: State, req: FireReq, err: string, cfg: Config, now: int, s': State) {
    && req.id in s'.retries && s' == s.(retries := s.retries[req.id := s'.retries[req.id]])
    && BacksOff(s'.retries[req.id], req.id, req.identifier, req.attempt + 1, err, cfg, now)
  }

  /** The issue is forgotten and no other is affected. */
  ghost predicate Forgotten(s: State, id: Id, s': State) {
    forall x :: TrackOf(s', x) == if x == id then GONE else TrackOf(s, x)
  }

  lemma ReleasedForgets(s: State, id: Id)
    ensures Forgotten(s, id, ReleaseClaim(s, id))
  {
    forall x ensures TrackOf(ReleaseClaim(s, id), x) == if x == id then GONE else TrackOf(s, x) {
      ReleaseTrack(s, id, x);
    }
  }

  /** What is to become of a retry whose issues have been fetched, or failed to be. */
  datatype Fate = Later(err: string) | Over | Now(issue: Issue)

  ghost predicate Fated(s: State, id: Id, answer: Answer<seq<Issue>>, cfg: Config, fate: Fate) {
    match answer
    case Err(e) => fate == Later(e)
    case Ok(issues) =>
      if !Wanted(issues, id, cfg) then fate == Over else
      exists i :: First(issues, id, i)
        && fate == if Crowded(s, id, issues[i].state, cfg) then Later("no available orchestrator slots")
                   else Now(issues[i])
  }

  function FateOf(v: Verdict): Fate {
    match v
    case Again(err) => Later(err)
    case GiveUp => Over
    case Dispatch(issue) => Now(issue)
  }

  lemma VerdictFated(s: State, id: Id, answer: Answer<seq<Issue>>, cfg: Config)
    ensures var v := match answer
                     case Err(e) => RetryVerdict(s, id, [], Some(e), cfg)
                     case Ok(issues) => RetryVerdict(s, id, issues, None, cfg);
            Fated(s, id, answer, cfg, FateOf(v))
  {
    if answer.Ok? {
      WantedIs(answer.value, id, cfg);
      FindIssueIs(answer.value, id);
      if i :| First(answer.value, id, i) {
        CrowdedIs(s, id, answer.value[i].state, cfg);
      }
    }
  }

  // ---- spawns ---------------------------------------------------------------

  /** What a call of the spawner for a claimed issue leads to. */
  predicate Took(s: State, issue: Issue, attempt: int, answer: Answer<SpawnResult>, cfg: Config, now: int, s': State) {
    match answer
    case Ok(res) =>
      && issue.id in s'.running && s' == s.(running := s.running[issue.id := s'.running[issue.id]])
      && var run := s'.running[issue.id];
         run.issue == issue && run.attempt == attempt && run.session == res.session
         && run.startedAt == res.session.startedAt && run.lastTimestamp == 0
    case Err(e) =>
      && s'.running == s.running - {issue.id} && s'.claimed == s.claimed - {issue.id}
      && issue.id in s'.retries && s'.retries == s.retries[issue.id := s'.retries[issue.id]]
      && BacksOff(s'.retries[issue.id], issue.id, issue.identifier, attempt + 1, e, cfg, now)
  }

  /** The timer of a retry is running for the given attempt. */
  predicate Waiting(sh: Shell, req: FireReq) { exists t :: t in sh.armed && sh.armed[t] == req }

  lemma ArmedWaits(sh: Shell, req: FireReq)
    ensures Waiting(ArmTimer(sh, req), req)
  {
    assert ArmTimer(sh, req).armed[sh.nextTimer] == req;
  }

  lemma FailedTook(s: State, issue: Issue, attempt: int, err: string, cfg: Config, now: int)
    ensures Took(s, issue, attempt, Err(err), cfg, now, ReduceSpawnFailed(s, issue, attempt, err, cfg, now).0)
  {
    var s' := ReduceSpawnFailed(s, issue, attempt, err, cfg, now).0;
    assert s'.retries == s.retries[issue.id := s'.retries[issue.id]];
  }

  /** An event whose only effect is a timer. */
  lemma ArmsStep(w: World, sh: Shell, ev: Event, next: State, req: FireReq, delay: Delay)
    requires Reduce(sh.cur, ev, sh.cfg, w.now(|sh.trace|)) == (next, [EffArmRetryTimer(req, delay)])
    ensures Step(w, sh, ev) == ArmTimer(Folded(sh, ev, next), req)
  {
    StepUnfolds(w, sh, ev);
    ExecOne(w, Folded(sh, ev, next), EffArmRetryTimer(req, delay), EventRank(ev));
  }

  lemma SpawnFails(w: World, sh: Shell, issue: Issue, attempt: int, err: string)
    ensures var sh' := Step(w, sh, EvSpawnFailed(issue, attempt, err));
            && sh'.cur == ReduceSpawnFailed(sh.cur, issue, attempt, err, sh.cfg, w.now(|sh.trace|)).0
            && sh'.spawns == sh.spawns && sh'.workers == sh.workers
            && Waiting(sh', FireReq(issue.id, issue.identifier, attempt + 1))
  {
    var ev := EvSpawnFailed(issue, attempt, err);
    var req := FireReq(issue.id, issue.identifier, attempt + 1);
    var next := ReduceSpawnFailed(sh.cur, issue, attempt, err, sh.cfg, w.now(|sh.trace|)).0;
    ArmsStep(w, sh, ev, next, req, AfterBackoff(attempt + 1, sh.cfg.maxBackoffMs));
    ArmedWaits(Folded(sh, ev, next), req);
  }

  lemma SpawnLands(w: World, sh: Shell, issue: Issue, attempt: int, session: LiveSession)
    ensures var ev := EvSpawned(issue, attempt, session);
            Step(w, sh, ev) == Folded(sh, ev, MarkRunning(sh.cur, issue, attempt, session))
  {
    StepUnfolds(w, sh, EvSpawned(issue, attempt, session));
  }

  lemma LandedTook(s: State, issue: Issue, attempt: int, res: SpawnResult, cfg: Config, now: int)
    ensures Took(s, issue, attempt, Ok(res), cfg, now, MarkRunning(s, issue, attempt, res.session))
  {
  }

  function Called(sh: Shell, issue: Issue, attempt: int): Shell {
    sh.(spawns := sh.spawns + [SpawnCall(sh.cur, issue, attempt)])
  }

  lemma SpawnUnfolds(w: World, sh: Shell, issue: Issue, attempt: int)
    requires w.deps.spawner
    ensures var sh', called := Exec(w, sh, EffSpawn(issue, attempt)), Called(sh, issue, attempt);
            var answer := w.spawn(|sh.trace|, issue, attempt);
            if answer.Err? then sh' == Step(w, called, EvSpawnFailed(issue, attempt, answer.error))
            else sh' == Step(w, Hired(called, issue.id, answer.value), EvSpawned(issue, attempt, answer.value.session))
  {
  }

  /** The handles and calls after a spawn. */
  predicate Manning(sh: Shell, sh': Shell, issue: Issue, attempt: int, answer: Answer<SpawnResult>) {
    && sh'.spawns == sh.spawns + [SpawnCall(sh.cur, issue, attempt)]
    && match answer
       case Ok(res) => sh'.workers == if res.hasWorker then sh.workers[issue.id := |sh'.spawns|] else sh.workers
       case Err(_) => sh'.workers == sh.workers && Waiting(sh', FireReq(issue.id, issue.identifier, attempt + 1))
  }

  /** Carrying out a spawn: one call, its worker's handle kept, the issue running or waiting to try again. */
  lemma SpawnFate(w: World, sh: Shell, issue: Issue, attempt: int)
    requires w.deps.spawner
    ensures var sh' := Exec(w, sh, EffSpawn(issue, attempt));
            var answer := w.spawn(|sh.trace|, issue, attempt);
            && Took(sh.cur, issue, attempt, answer, sh.cfg, w.now(|sh.trace|), sh'.cur)
            && Manning(sh, sh', issue, attempt, answer)
  {
    var called := Called(sh, issue, attempt);
    SpawnUnfolds(w, sh, issue, attempt);
    match w.spawn(|sh.trace|, issue, attempt)
    case Ok(res) =>
      SpawnLands(w, Hired(called, issue.id, res), issue, attempt, res.session);
      LandedTook(sh.cur, issue, attempt, res, sh.cfg, w.now(|sh.trace|));
    case Err(e) =>
      SpawnFails(w, called, issue, attempt, e);
      FailedTook(sh.cur, issue, attempt, e, sh.cfg, w.now(|sh.trace|));
  }

  // ---- a fire, over whole runs ----------------------------------------------

  /** The retry goes on waiting; nobody is spawned. */
  predicate Postponed(sh: Shell, sh': Shell, req: FireReq, err: string, cfg: Config, now: int) {
    && PutOff(sh.cur, req, err, cfg, now, sh'.cur) && sh'.spawns == sh.spawns && sh'.workers == sh.workers
    && Waiting(sh', FireReq(req.id, req.identifier, req.attempt + 1))
  }

  ghost predicate Dropped(sh: Shell, sh': Shell, id: Id) {
    Forgotten(sh.cur, id, sh'.cur) && sh'.spawns == sh.spawns && sh'.workers == sh.workers && id !in Scheduled(sh')
  }

  /** The retry is taken off the queue and spawned, once, at the attempt it was armed for. */
  predicate Relaunched(w: World, sh: Shell, sh': Shell, issue: Issue, attempt: int, cfg: Config) {
    var s := sh.cur.(retries := sh.cur.retries - {issue.id});
    var n := |sh.trace| + 2;
    && sh'.spawns == sh.spawns + [SpawnCall(s, issue, attempt)]
    && Took(s, issue, attempt, w.spawn(n, issue, attempt), cfg, w.now(n), sh'.cur)
  }

  lemma LaterFate(w: World, sh: Shell, req: FireReq, err: string, ev: Event)
    requires ev.EvRetryResolved?
    requires Below(ActOnVerdict(sh.cur, req, Again(err), sh.cfg, w.now(|sh.trace|)).1, EventRank(ev))
    ensures var r := ActOnVerdict(sh.cur, req, Again(err), sh.cfg, w.now(|sh.trace|));
            Postponed(sh, ExecAll(w, Folded(sh, ev, r.0), r.1, EventRank(ev)), req, err, sh.cfg, w.now(|sh.trace|))
  {
    var r := ActOnVerdict(sh.cur, req, Again(err), sh.cfg, w.now(|sh.trace|));
    assert r.1 == [r.1[0]];
    ExecOne(w, Folded(sh, ev, r.0), r.1[0], EventRank(ev));
    ArmedWaits(Folded(sh, ev, r.0), FireReq(req.id, req.identifier, req.attempt + 1));
  }

  lemma OverFate(w: World, sh: Shell, req: FireReq, ev: Event)
    requires ev.EvRetryResolved? && req.id !in Scheduled(sh)
    ensures var r := ActOnVerdict(sh.cur, req, GiveUp, sh.cfg, w.now(|sh.trace|));
            Below(r.1, EventRank(ev)) && Dropped(sh, ExecAll(w, Folded(sh, ev, r.0), r.1, EventRank(ev)), req.id)
  {
    ReleasedForgets(sh.cur, req.id);
  }

  lemma NowFate(w: World, sh: Shell, req: FireReq, issue: Issue, ev: Event)
    requires ev.EvRetryResolved? && issue.id == req.id && w.deps.spawner
    requires req.id in sh.cur.retries && req.id !in sh.cur.running && req.id in sh.cur.claimed
    requires Below(ActOnVerdict(sh.cur, req, Dispatch(issue), sh.cfg, w.now(|sh.trace|)).1, EventRank(ev))
    ensures var r := ActOnVerdict(sh.cur, req, Dispatch(issue), sh.cfg, w.now(|sh.trace|));
            var sh' := ExecAll(w, Folded(sh, ev, r.0), r.1, EventRank(ev));
            var s := sh.cur.(retries := sh.cur.retries - {issue.id});
            var n := |sh.trace| + 1;
            && sh'.spawns == sh.spawns + [SpawnCall(s, issue, req.attempt)]
            && Took(s, issue, req.attempt, w.spawn(n, issue, req.attempt), sh.cfg, w.now(n), sh'.cur)
  {
    var r := ActOnVerdict(sh.cur, req, Dispatch(issue), sh.cfg, w.now(|sh.trace|));
    var mid := Folded(sh, ev, r.0);
    assert r.1 == [EffSpawn(issue, req.attempt)];
    ExecOne(w, mid, EffSpawn(issue, req.attempt), EventRank(ev));
    SpawnFate(w, mid, issue, req.attempt);
  }

  lemma FireQueued(w: World, sh: Shell, k: nat)
    requires Inv(w, sh, NONE, UNFROZEN) && k < |sh.fires|
    ensures Wired(w) && ScheduleOk(sh) && sh.fires[k].id in sh.cur.retries && sh.fires[k].id !in sh.cur.running
  {
    InvParts(w, sh, NONE, UNFROZEN);
    assert EntryFor(sh.cur.retries, sh.fires[k]);
    assert !Idle(sh);
  }

  lemma FireReady(w: World, cfg: Config, inputs: seq<Input>, k: nat)
    requires k < |Run(w, Start(cfg), inputs).fires|
    ensures var sh := Run(w, Start(cfg), inputs);
            && Wired(w) && ScheduleOk(sh)
            && sh.fires[k].id in sh.cur.retries && sh.fires[k].id !in sh.cur.running
  {
    StartKeeps(w, cfg);
    RunKeeps(w, Start(cfg), inputs, UNFROZEN);
    FireQueued(w, Run(w, Start(cfg), inputs), k);
  }

  /** A retry that fires under a valid workflow, after any run, by the tracker's answer alone. A failed fetch puts it
      off. An issue that is missing, finished or not active is forgotten. A crowded scheduler puts it off. Otherwise a
      claimed one is spawned once, as the tracker has it now, and an unclaimed one is left where it is. */
  lemma RetryFate(w: World, cfg0: Config, inputs: seq<Input>, k: nat, cfg: Config)
    requires k < |Run(w, Start(cfg0), inputs).fires|
    ensures var sh := Run(w, Start(cfg0), inputs);
            var req := sh.fires[k];
            var sh' := Handle(w, sh, RetryFire(k, Some(cfg)));
            var now := w.now(|sh.trace| + 1);
            match w.candidates(|sh.trace| + 1)
            case Err(e) => Postponed(sh, sh', req, e, cfg, now)
            case Ok(issues) =>
              if !Wanted(issues, req.id, cfg) then Dropped(sh, sh', req.id) else
              exists i :: First(issues, req.id, i) &&
                if Crowded(sh.cur, req.id, issues[i].state, cfg)
                then Postponed(sh, sh', req, "no available orchestrator slots", cfg, now)
                else if req.id in sh.cur.claimed then Relaunched(w, sh, sh', issues[i], req.attempt, cfg)
                else sh'.cur == sh.cur && sh'.spawns == sh.spawns
  {
    var sh := Run(w, Start(cfg0), inputs);
    var req := sh.fires[k];
    var answer := w.candidates(|sh.trace| + 1);
    var sh1 := Firing(sh, k, cfg);
    var v, ev := FireVerdict(w, sh, k, cfg), FireEvent(w, sh, k);
    FireReady(w, cfg0, inputs, k);
    FireUnfolds(w, sh, k, cfg);
    TakeFireSchedule(sh, k);
    VerdictFated(sh.cur, req.id, answer, cfg);
    match v {
      case Again(err) => LaterFate(w, sh1, req, err, ev);
      case GiveUp => OverFate(w, sh1, req, ev);
      case Dispatch(issue) =>
        if req.id in sh.cur.claimed {
          NowFate(w, sh1, req, issue, ev);
        }
    }
  }

  /** A retry that fires under an invalid workflow waits another second, otherwise unchanged, under the same timer
      request and the configuration in force. */
  lemma DeferFate(w: World, cfg: Config, inputs: seq<Input>, k: nat)
    requires k < |Run(w, Start(cfg), inputs).fires|
    ensures var sh := Run(w, Start(cfg), inputs);
            var id := sh.fires[k].id;
            var sh' := Handle(w, sh, RetryFire(k, None));
            && id in sh.cur.retries && id in sh'.cur.retries
            && sh'.cur == sh.cur.(retries := sh.cur.retries[id := sh'.cur.retries[id]])
            && (var e, e' := sh.cur.retries[id], sh'.cur.retries[id];
                && e'.attempt == e.attempt && e'.identifier == e.identifier && e'.kind == e.kind && e'.err == e.err
                && DueAtMs(e') == (w.now(|sh.trace|) + 1_000_000_000) / 1_000_000)
            && Waiting(sh', sh.fires[k]) && sh'.spawns == sh.spawns && sh'.workers == sh.workers && sh'.cfg == sh.cfg
  {
    var sh := Run(w, Start(cfg), inputs);
    var req := sh.fires[k];
    FireReady(w, cfg, inputs, k);
    var entry := sh.cur.retries[req.id].(armedAt := w.now(|sh.trace|), delay := OneSecond);
    var next := EnqueueRetry(sh.cur, entry);
    var taken := sh.(fires := Without(sh.fires, k), timers := sh.timers - {req.id});
    ArmedWaits(taken.(cur := next, trace := sh.trace + [Deferred(sh.cur, req, next)]), req);
  }

  // ---- a fresh dispatch -----------------------------------------------------

  /** A second look at a claimed issue: the tracker is asked again, unless there is no way to ask. */
  ghost predicate StillWanted(w: World, n: nat, issue: Issue, cfg: Config) {
    if !w.deps.refresher then Workable(issue.state, cfg) else
    var answer := w.refresh(n, [issue.id]);
    answer.Ok? && Wanted(answer.value, issue.id, cfg)
  }

  lemma StillWantedIs(w: World, n: nat, issue: Issue, cfg: Config)
    ensures var latest := Revalidate(w, n, issue);
            StillWanted(w, n, issue, cfg) <==> latest.Some? && Dispatchable(latest.value.state, cfg)
  {
    WorkableIs(issue.state, cfg);
    if w.deps.refresher && w.refresh(n, [issue.id]).Ok? {
      WantedIs(w.refresh(n, [issue.id]).value, issue.id, cfg);
    }
  }

  /** A claimed issue that is still wanted is spawned once, as it was listed; any other is forgotten again. */
  lemma FreshFate(w: World, sh: Shell, issue: Issue, attempt: int)
    requires w.deps.spawner
    ensures var sh' := Exec(w, sh, EffRevalidate(issue, attempt));
            var n := |sh.trace| + 1;
            if StillWanted(w, |sh.trace|, issue, sh.cfg)
            then
              && sh'.spawns == sh.spawns + [SpawnCall(sh.cur, issue, attempt)]
              && Took(sh.cur, issue, attempt, w.spawn(n, issue, attempt), sh.cfg, w.now(n), sh'.cur)
            else Forgotten(sh.cur, issue.id, sh'.cur) && sh'.spawns == sh.spawns && sh'.workers == sh.workers
  {
    var ev := EvRevalidated(issue, attempt, Revalidate(w, |sh.trace|, issue));
    StillWantedIs(w, |sh.trace|, issue, sh.cfg);
    StepUnfolds(w, sh, ev);
    ReleasedForgets(sh.cur, issue.id);
    if StillWanted(w, |sh.trace|, issue, sh.cfg) {
      ExecOne(w, Folded(sh, ev, sh.cur), EffSpawn(issue, attempt), EventRank(ev));
      SpawnFate(w, Folded(sh, ev, sh.cur), issue, attempt);
    }
  }

  // ---- a refresh ------------------------------------------------------------

  /** A refresh that is answered treats each issue it asked about by the last report about it, and no other; one that
      fails, or that nobody can make, changes nothing. */
  lemma RefreshFate(w: World, sh: Shell, ids: seq<Id>, id: Id)
    ensures var sh' := Exec(w, sh, EffRefreshTracker(ids));
            var t := TrackOf(sh.cur, id);
            if w.deps.refresher && w.deps.workspace && w.refresh(|sh.trace|, ids).Ok?
            then TrackOf(sh'.cur, id)
                 == if id in ids
                    then RefreshRule(t, id, LastById(w.refresh(|sh.trace|, ids).value, id), sh.cfg, w.now(|sh.trace|)).0
                    else t
            else sh' == sh
  {
    if w.deps.refresher && w.deps.workspace && w.refresh(|sh.trace|, ids).Ok? {
      var issues, now := w.refresh(|sh.trace|, ids).value, w.now(|sh.trace|);
      var ev := EvTrackerRefreshed(ids, issues);
      var r := Reduce(sh.cur, ev, sh.cfg, now);
      StepUnfolds(w, sh, ev);
      RefreshBelow(sh.cur, SortIds(ids), issues, sh.cfg, now);
      SchedulerStateCaps.QuietEffects(w, Folded(sh, ev, r.0), r.1, EventRank(ev));
      RefreshByRule(sh.cur, ids, issues, sh.cfg, now, id);
    }
  }
}
