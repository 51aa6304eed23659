/** The invariant over drains and whole runs, and what it means for a reader of the scheduler. */
module SchedulerSafety {
  import opened SchedulerTypes
  import opened SchedulerReduce
  import opened SchedulerDrain
  import opened SchedulerInvariant
  import opened SchedulerFolds
  import Order

  // ---- one fold -------------------------------------------------------------

  lemma EveryLawful(s: State, ev: Event, cfg: Config, now: int, claims: set<Id>)
    requires ClaimsOk(s, claims) && OfEvent(ev).claims <= claims
    requires forall id | id in OfEvent(ev).tokens :: Matches(s, OfEvent(ev).tokens[id])
    requires OpeningEvent(ev) ==> claims == {}
    ensures Lawful(s, ev, cfg, Reduce(s, ev, cfg, now).0, Reduce(s, ev, cfg, now).1)
  {
    match ev {
      case EvTick(_) => TickLawful(s, ev, cfg, now);
      case EvCandidatesFetched(_) => CandidatesLawful(s, ev, cfg, now);
      case EvTrackerRefreshed(_, _) => RefreshLawful(s, ev, cfg, now, claims);
      case EvRevalidated(_, _, _) => SpawningLawful(s, ev, cfg, now, claims);
      case EvRetryDue(req) =>
        assert req.id in OfEvent(ev).tokens;
        RetryDueLawful(s, ev, cfg, now);
      case EvRetryResolved(req, _, _) =>
        assert req.id in OfEvent(ev).tokens;
        RetryResolvedLawful(s, ev, cfg, now);
      case EvSpawned(_, _, _) => SpawningLawful(s, ev, cfg, now, claims);
      case EvSpawnFailed(_, _, _) => SpawningLawful(s, ev, cfg, now, claims);
      case EvWorkerExit(_) => OutsideLawful(s, ev, cfg, now, claims);
      case EvCodexActivity(_) => OutsideLawful(s, ev, cfg, now, claims);
    }
  }

  lemma EveryWellOrdered(s: State, ev: Event, cfg: Config, now: int, rest: Pending)
    requires s.running.Keys !! s.retries.Keys && s.running.Keys <= s.claimed
    requires OpeningEvent(ev) ==> rest == NONE && ClaimsOk(s, {})
    ensures WellOrdered(Reduce(s, ev, cfg, now).1, rest)
  {
    match ev {
      case EvTick(valid) => TickMoves(s, valid, cfg, now);
      case EvCandidatesFetched(cands) =>
        assert Reduce(s, ev, cfg, now).1 == Revalidations(Winners(s, cands, cfg).1);
      case EvTrackerRefreshed(requested, issues) => RefreshDemotes(s, SortIds(requested), issues, cfg, now);
      case EvRetryResolved(req, issues, err) =>
        VerdictWellOrdered(s, req, RetryVerdict(s, req.id, issues, err, cfg), cfg, now, rest);
      case EvRetryDue(req) =>
        assert Reduce(s, ev, cfg, now).1 == [EffRetryFetch(req)];
      case EvRevalidated(issue, attempt, latest) => RevalidatedWellOrdered(s, issue, attempt, latest, cfg, rest);
      case EvSpawned(_, _, _) =>
      case EvSpawnFailed(issue, attempt, err) =>
        ArmWellOrdered(ReleaseClaim(s, issue.id), FireReq(issue.id, issue.identifier, attempt + 1), err, cfg, now,
                       rest);
      case EvWorkerExit(exit) => ExitWellOrdered(s, exit, cfg, now, rest);
      case EvCodexActivity(_) =>
    }
  }

  lemma ArmWellOrdered(s: State, req: FireReq, err: string, cfg: Config, now: int, rest: Pending)
    ensures WellOrdered(ArmBackoff(s, req, err, cfg, now).1, rest)
  {
  }

  lemma ExitWellOrdered(s: State, e: Exit, cfg: Config, now: int, rest: Pending)
    ensures WellOrdered(ReduceWorkerExit(s, e, cfg, now).1, rest)
  {
  }

  lemma RevalidatedWellOrdered(s: State, issue: Issue, attempt: int, latest: Option<Issue>, cfg: Config, rest: Pending)
    ensures WellOrdered(ReduceRevalidated(s, issue, attempt, latest, cfg).1, rest)
  {
  }

  lemma VerdictWellOrdered(s: State, req: FireReq, v: Verdict, cfg: Config, now: int, rest: Pending)
    ensures WellOrdered(ActOnVerdict(s, req, v, cfg, now).1, rest)
  {
  }

  lemma IdleStays(s: State, ev: Event, cfg: Config, s': State, effs: seq<Effect>)
    requires s.claimed == {} && s.retries == map[] && s.running == map[]
    requires OfEvent(ev).claims == {} && OfEvent(ev).tokens == map[] && !ev.EvCandidatesFetched?
    requires OfEvent(ev).landed == {} && Lawful(s, ev, cfg, s', effs)
    ensures s'.claimed == {} && s'.retries == map[] && s'.running == map[]
  {
    assert s'.running.Keys == {} && s'.retries.Keys == {};
  }

  lemma TraceExtends(trace: seq<Fold>, f: Fold)
    requires FoldsOk(trace) && Reduced(f) && Capped(f) && OrphansOk(f) && f.before == LastState(trace)
    ensures FoldsOk(trace + [f]) && LastState(trace + [f]) == f.after
  {
    var longer := trace + [f];
    assert longer[..|trace|] == trace;
    forall k | 0 <= k < |longer| ensures FoldOk(longer, k) {
      if k < |trace| {
        assert FoldOk(trace, k) && longer[..k] == trace[..k];
      }
    }
  }

  lemma FoldsOkPrefix(trace: seq<Fold>, n: nat)
    requires FoldsOk(trace) && n <= |trace|
    ensures FoldsOk(trace[..n])
  {
    forall k | 0 <= k < n ensures FoldOk(trace[..n], k) {
      assert FoldOk(trace, k) && trace[..n][..k] == trace[..k];
    }
  }

  /** The last fold of a trace and everything before it. */
  lemma FoldsOkLast(trace: seq<Fold>)
    requires FoldsOk(trace) && trace != []
    ensures var front, f := trace[..|trace| - 1], trace[|trace| - 1];
            FoldsOk(front) && f.before == LastState(front) && Reduced(f) && Capped(f) && OrphansOk(f)
  {
    FoldsOkPrefix(trace, |trace| - 1);
    assert FoldOk(trace, |trace| - 1);
  }

  /** Pending work as a fold or an effect finds it: `rest` is everything behind it in the drain. */
  ghost predicate Ready(w: World, sh: Shell, front: Pending, rest: Pending, frozen: Frozen) {
    && Inv(w, sh, Join(front, rest), frozen) && Apart(front, rest)
    && rest.landed == {} && rest.gone == {}
  }

  lemma EventPending(ev: Event)
    ensures OfEvent(ev).kills == {} && OfEvent(ev).landed <= OfEvent(ev).claims
    ensures OfEvent(ev).tokens != map[] || ev.EvCandidatesFetched? ==> OpeningEvent(ev)
  {
  }

  /** The claims, handles and timers after a fold. */
  lemma MovesKeep(w: World, sh: Shell, came: Pending, sh': Shell, goes: Pending, rest: Pending, frozen: Frozen)
    requires Ready(w, sh, came, rest, frozen) && Moves(sh.cur, came, sh'.cur, goes)
    requires came.kills == {} && came.landed <= came.claims
    requires sh'.workers == sh.workers && sh'.armed == sh.armed && sh'.fires == sh.fires
    requires sh'.nextTimer == sh.nextTimer
    requires sh'.timers == sh.timers
    requires goes.claims <= came.claims || rest.kills == {}
    ensures ClaimsOk(sh'.cur, Join(goes, rest).claims)
    ensures HandlesOk(w, sh', Join(goes, rest))
    ensures TimersOk(sh', Join(goes, rest).tokens, frozen)
    ensures Apart(goes, rest)
  {
    InvParts(w, sh, Join(came, rest), frozen);
    RestTokensQueued(sh, came, rest, frozen);
    MovesClaims(sh.cur, came, sh'.cur, goes, rest);
    MovesHandles(w, sh, came, sh', goes, rest);
    MovesTimers(sh, came, sh', goes, rest, frozen);
    MovesApart(sh.cur, came, sh'.cur, goes, rest);
  }

  lemma FewClaims(ev: Event, claims: set<Id>, rest: Pending)
    requires claims <= OfEvent(ev).claims + OfEvent(ev).tokens.Keys || ev.EvCandidatesFetched?
    requires OpeningEvent(ev) ==> rest == NONE
    ensures claims <= OfEvent(ev).claims || rest.kills == {}
  {
    EventPending(ev);
  }

  lemma FoldedMaps(w: World, sh: Shell, ev: Event, next: State, effs: seq<Effect>, rest: Pending, frozen: Frozen)
    requires Ready(w, sh, OfEvent(ev), rest, frozen)
    requires OpeningEvent(ev) ==> rest == NONE
    requires Moves(sh.cur, OfEvent(ev), next, Sum(effs))
    requires Sum(effs).claims <= OfEvent(ev).claims + OfEvent(ev).tokens.Keys || ev.EvCandidatesFetched?
    ensures var sh' := Folded(sh, ev, next);
            && ClaimsOk(sh'.cur, Join(Sum(effs), rest).claims)
            && HandlesOk(w, sh', Join(Sum(effs), rest))
            && TimersOk(sh', Join(Sum(effs), rest).tokens, frozen)
            && Apart(Sum(effs), rest)
  {
    EventPending(ev);
    FewClaims(ev, Sum(effs).claims, rest);
    MovesKeep(w, sh, OfEvent(ev), Folded(sh, ev, next), Sum(effs), rest, frozen);
  }

  lemma LawfulKeeps(w: World, sh: Shell, ev: Event, next: State, effs: seq<Effect>, rest: Pending, frozen: Frozen)
    requires Ready(w, sh, OfEvent(ev), rest, frozen)
    requires OpeningEvent(ev) ==> rest == NONE
    requires Lawful(sh.cur, ev, sh.cfg, next, effs)
    requires Wired(w) || Idle(Folded(sh, ev, next))
    requires exists now :: next == Reduce(sh.cur, ev, sh.cfg, now).0
    ensures Ready(w, Folded(sh, ev, next), Sum(effs), rest, frozen)
  {
    InvParts(w, sh, Join(OfEvent(ev), rest), frozen);
    FoldedMaps(w, sh, ev, next, effs, rest, frozen);
    TraceExtends(sh.trace, Fold(sh.cur, ev, sh.cfg, next));
    InvFrom(w, Folded(sh, ev, next), Join(Sum(effs), rest), frozen);
  }

  lemma FoldedIdle(w: World, sh: Shell, ev: Event, next: State, effs: seq<Effect>, rest: Pending, frozen: Frozen)
    requires Ready(w, sh, OfEvent(ev), rest, frozen) && Lawful(sh.cur, ev, sh.cfg, next, effs)
    requires ev.EvCandidatesFetched? ==> Wired(w)
    ensures Wired(w) || Idle(Folded(sh, ev, next))
  {
    if !Wired(w) {
      InvParts(w, sh, Join(OfEvent(ev), rest), frozen);
      NothingPending(w, sh, OfEvent(ev), rest, frozen);
      EventPending(ev);
      IdleStays(sh.cur, ev, sh.cfg, next, effs);
    }
  }

  lemma NothingPending(w: World, sh: Shell, came: Pending, rest: Pending, frozen: Frozen)
    requires Ready(w, sh, came, rest, frozen) && Idle(sh)
    ensures came.claims == {} && came.tokens == map[]
  {
    InvParts(w, sh, Join(came, rest), frozen);
    RestTokensQueued(sh, came, rest, frozen);
    assert came.tokens.Keys == {};
  }

  lemma FoldKeeps(w: World, sh: Shell, ev: Event, rest: Pending, frozen: Frozen)
    requires Ready(w, sh, OfEvent(ev), rest, frozen)
    requires OpeningEvent(ev) ==> rest == NONE
    requires ev.EvCandidatesFetched? ==> Wired(w)
    ensures var r := Reduce(sh.cur, ev, sh.cfg, w.now(|sh.trace|));
            && Ready(w, Folded(sh, ev, r.0), Sum(r.1), rest, frozen)
            && Lawful(sh.cur, ev, sh.cfg, r.0, r.1) && WellOrdered(r.1, rest)
  {
    InvParts(w, sh, Join(OfEvent(ev), rest), frozen);
    var came, now := OfEvent(ev), w.now(|sh.trace|);
    forall id | id in came.tokens ensures Matches(sh.cur, came.tokens[id]) {
      assert id !in rest.tokens;
      assert Join(came, rest).tokens[id] == came.tokens[id];
    }
    assert OpeningEvent(ev) ==> Join(came, rest).claims == {};
    EveryLawful(sh.cur, ev, sh.cfg, now, Join(came, rest).claims);
    EveryWellOrdered(sh.cur, ev, sh.cfg, now, rest);
    var r := Reduce(sh.cur, ev, sh.cfg, now);
    FoldedIdle(w, sh, ev, r.0, r.1, rest, frozen);
    LawfulKeeps(w, sh, ev, r.0, r.1, rest, frozen);
  }

  lemma RestTokensQueued(sh: Shell, came: Pending, rest: Pending, frozen: Frozen)
    requires TimersOk(sh, Join(came, rest).tokens, frozen)
    ensures forall id | id in rest.tokens :: id in sh.cur.retries
    ensures forall id | id in came.tokens :: id in sh.cur.retries
  {
    forall id | id in rest.tokens || id in came.tokens ensures id in sh.cur.retries {
      assert id in Join(came, rest).tokens;
    }
  }

  // ---- one effect -----------------------------------------------------------

  lemma KillCrew(sh: Shell, id: Id)
    requires FleetOk(sh)
    ensures FleetOk(Killed(sh, id))
  {
  }

  lemma CallCrew(workers: map<Id, nat>, fleet: Fleet, spawns: seq<SpawnCall>, call: SpawnCall)
    requires Manned(workers, fleet, spawns)
    ensures Manned(workers, fleet, spawns + [call])
  {
  }

  lemma HireCrew(sh: Shell, id: Id, res: SpawnResult)
    requires FleetOk(sh) && id !in sh.workers && HiredFor(sh.spawns, |sh.spawns|, id)
    requires |sh.spawns| !in sh.fleet.strays
    ensures FleetOk(Hired(sh, id, res))
  {
  }

  lemma KillHandles(w: World, sh: Shell, id: Id, rest: Pending)
    requires HandlesOk(w, sh, Join(NONE.(kills := {id}), rest)) && id !in rest.kills
    ensures HandlesOk(w, Killed(sh, id), rest)
  {
    assert Killed(sh, id).workers.Keys == sh.workers.Keys - {id};
  }

  lemma KillKeeps(w: World, sh: Shell, id: Id, rest: Pending, frozen: Frozen)
    requires Ready(w, sh, NONE.(kills := {id}), rest, frozen)
    ensures Inv(w, Killed(sh, id), rest, frozen)
  {
    InvParts(w, sh, Join(NONE.(kills := {id}), rest), frozen);
    assert Join(NONE.(kills := {id}), rest).claims == rest.claims;
    assert Join(NONE.(kills := {id}), rest).tokens == rest.tokens;
    KillCrew(sh, id);
    KillHandles(w, sh, id, rest);
    InvFrom(w, Killed(sh, id), rest, frozen);
  }

  lemma ArmKeeps(w: World, sh: Shell, req: FireReq, rest: Pending, frozen: Frozen)
    requires Ready(w, sh, Token(req), rest, frozen)
    ensures Inv(w, ArmTimer(sh, req), rest, frozen)
  {
    InvParts(w, sh, Join(Token(req), rest), frozen);
    ArmTimers(sh, req, rest, frozen);
    assert Join(Token(req), rest).claims == rest.claims;
    assert Join(Token(req), rest).kills == rest.kills;
    InvFrom(w, ArmTimer(sh, req), rest, frozen);
  }

  lemma ArmedIdsAdd(armed: map<nat, FireReq>, t: nat, req: FireReq)
    requires t !in armed
    ensures ArmedIds(armed[t := req]) == ArmedIds(armed) + {req.id}
  {
    var armed' := armed[t := req];
    assert armed'[t].id == req.id;
    forall u | u in armed ensures armed[u].id in ArmedIds(armed') {
      assert armed'[u] == armed[u];
    }
  }

  lemma OneTimerEachAdd(armed: map<nat, FireReq>, t: nat, req: FireReq)
    requires t !in armed && OneTimerEach(armed) && req.id !in ArmedIds(armed)
    ensures OneTimerEach(armed[t := req])
  {
    forall u | u in armed ensures armed[u].id != req.id {
      assert armed[u].id in ArmedIds(armed);
    }
  }

  /** No timer of the issue is running, so arming stops nothing. */
  lemma ArmStopsNothing(sh: Shell, req: FireReq)
    requires ScheduleOk(sh) && req.id !in Scheduled(sh)
    ensures ArmTimer(sh, req).armed == sh.armed[sh.nextTimer := req]
    ensures sh.nextTimer !in sh.armed
  {
    assert forall t | t in sh.armed :: sh.armed[t].id in ArmedIds(sh.armed);
  }

  lemma ArmSchedule(sh: Shell, req: FireReq)
    requires ScheduleOk(sh) && Matches(sh.cur, req) && req.id !in Scheduled(sh)
    requires ArmTimer(sh, req).armed == sh.armed[sh.nextTimer := req] && sh.nextTimer !in sh.armed
    ensures ScheduleOk(ArmTimer(sh, req)) && Scheduled(ArmTimer(sh, req)) == Scheduled(sh) + {req.id}
  {
    ArmedIdsAdd(sh.armed, sh.nextTimer, req);
    OneTimerEachAdd(sh.armed, sh.nextTimer, req);
  }

  lemma TokenScheduled(s: State, scheduled: set<Id>, req: FireReq, rest: Pending, frozen: Frozen)
    requires TokensOk(s, scheduled, Join(Token(req), rest).tokens, frozen) && req.id !in rest.tokens
    ensures TokensOk(s, scheduled + {req.id}, rest.tokens, frozen)
    ensures Matches(s, req) && req.id !in scheduled
  {
    var tokens := Join(Token(req), rest).tokens;
    assert req.id in tokens && tokens[req.id] == req;
    assert forall id | id in rest.tokens :: id in tokens && tokens[id] == rest.tokens[id];
    assert tokens.Keys == rest.tokens.Keys + {req.id};
  }

  lemma ArmTimers(sh: Shell, req: FireReq, rest: Pending, frozen: Frozen)
    requires TimersOk(sh, Join(Token(req), rest).tokens, frozen) && req.id !in rest.tokens
    ensures TimersOk(ArmTimer(sh, req), rest.tokens, frozen)
  {
    TokenScheduled(sh.cur, Scheduled(sh), req, rest, frozen);
    ArmStopsNothing(sh, req);
    ArmSchedule(sh, req);
  }

  /** The spawner is called for an issue that is claimed, not running and not queued. */
  lemma CallKeeps(w: World, sh: Shell, issue: Issue, attempt: int, rest: Pending, frozen: Frozen)
    requires Ready(w, sh, NONE.(claims := {issue.id}), rest, frozen)
    ensures var called := sh.(spawns := sh.spawns + [SpawnCall(sh.cur, issue, attempt)]);
            && Ready(w, called, NONE.(claims := {issue.id}), rest, frozen)
            && HiredFor(called.spawns, |called.spawns|, issue.id) && |called.spawns| !in called.fleet.strays
  {
    InvParts(w, sh, Join(NONE.(claims := {issue.id}), rest), frozen);
    assert issue.id in Join(NONE.(claims := {issue.id}), rest).claims;
    var sh' := sh.(spawns := sh.spawns + [SpawnCall(sh.cur, issue, attempt)]);
    assert SpawnsOk(sh', frozen);
    CallCrew(sh.workers, sh.fleet, sh.spawns, SpawnCall(sh.cur, issue, attempt));
    InvFrom(w, sh', Join(NONE.(claims := {issue.id}), rest), frozen);
  }

  lemma HireKeeps(w: World, sh: Shell, id: Id, res: SpawnResult, rest: Pending, frozen: Frozen)
    requires Ready(w, sh, NONE.(claims := {id}), rest, frozen)
    requires HiredFor(sh.spawns, |sh.spawns|, id) && |sh.spawns| !in sh.fleet.strays
    requires AlwaysHandles(w) ==> res.hasWorker
    ensures Ready(w, Hired(sh, id, res), NONE.(claims := {id}, landed := {id}), rest, frozen)
  {
    InvParts(w, sh, Join(NONE.(claims := {id}), rest), frozen);
    var front := NONE.(claims := {id});
    assert Join(front.(landed := {id}), rest) == Join(front, rest).(landed := {id} + rest.landed);
    assert id in Join(front, rest).claims;
    HireCrew(sh, id, res);
    InvFrom(w, Hired(sh, id, res), Join(front.(landed := {id}), rest), frozen);
  }

  // ---- drains ---------------------------------------------------------------

  lemma NothingAhead(p: Pending)
    ensures Join(NONE, p) == p && Join(p, NONE) == p && Apart(NONE, p)
  {
  }

  /** Folding an event and draining its effects leaves only what was pending behind it. */
  lemma StepKeeps(w: World, sh: Shell, ev: Event, rest: Pending, frozen: Frozen)
    requires Ready(w, sh, OfEvent(ev), rest, frozen)
    requires OpeningEvent(ev) ==> rest == NONE
    requires ev.EvCandidatesFetched? ==> Wired(w)
    ensures Inv(w, Step(w, sh, ev), rest, frozen)
    decreases EventRank(ev)
  {
    FoldKeeps(w, sh, ev, rest, frozen);
    var r := Reduce(sh.cur, ev, sh.cfg, w.now(|sh.trace|));
    ReduceBelow(sh.cur, ev, sh.cfg, w.now(|sh.trace|));
    ExecAllKeeps(w, Folded(sh, ev, r.0), r.1, EventRank(ev), rest, frozen);
  }

  lemma ExecAllKeeps(w: World, sh: Shell, effs: seq<Effect>, rank: nat, rest: Pending, frozen: Frozen)
    requires Below(effs, rank) && AllApart(effs) && WellOrdered(effs, rest)
    requires Ready(w, sh, Sum(effs), rest, frozen) && Sum(effs).landed == {} && Sum(effs).gone == {}
    ensures Inv(w, ExecAll(w, sh, effs, rank), rest, frozen)
    decreases rank, |effs|
  {
    NothingAhead(rest);
    if effs != [] {
      var tail := Join(Sum(effs[1..]), rest);
      HeadReady(w, sh, effs, rest, frozen);
      ExecKeeps(w, sh, effs[0], tail, frozen);
      ExecAllKeeps(w, Exec(w, sh, effs[0]), effs[1..], rank, rest, frozen);
    }
  }

  lemma HeadReady(w: World, sh: Shell, effs: seq<Effect>, rest: Pending, frozen: Frozen)
    requires effs != [] && AllApart(effs) && WellOrdered(effs, rest)
    requires Ready(w, sh, Sum(effs), rest, frozen) && Sum(effs).landed == {} && Sum(effs).gone == {}
    ensures var tail := Join(Sum(effs[1..]), rest);
            && Ready(w, sh, OfEffect(effs[0]), tail, frozen)
            && (Opening(effs[0]) ==> tail == NONE)
    ensures Apart(Sum(effs[1..]), rest) && Sum(effs[1..]).landed == {} && Sum(effs[1..]).gone == {}
    ensures WellOrdered(effs[1..], rest)
  {
    JoinAssociative(OfEffect(effs[0]), Sum(effs[1..]), rest);
    if Opening(effs[0]) {
      assert effs[1..] == [];
    }
  }

  lemma ExecKeeps(w: World, sh: Shell, eff: Effect, rest: Pending, frozen: Frozen)
    requires Ready(w, sh, OfEffect(eff), rest, frozen)
    requires !eff.EffCancelRetryTimer? && (Opening(eff) ==> rest == NONE)
    ensures Inv(w, Exec(w, sh, eff), rest, frozen)
    decreases EffectRank(eff)
  {
    NothingAhead(rest);
    match eff {
      case EffFetchCandidates =>
        if Wired(w) && w.candidates(|sh.trace|).Ok? {
          StepKeeps(w, sh, EvCandidatesFetched(w.candidates(|sh.trace|).value), rest, frozen);
        }
      case EffRefreshTracker(ids) =>
        if w.deps.refresher && w.deps.workspace && w.refresh(|sh.trace|, ids).Ok? {
          StepKeeps(w, sh, EvTrackerRefreshed(ids, w.refresh(|sh.trace|, ids).value), rest, frozen);
        }
      case EffRevalidate(issue, attempt) =>
        StepKeeps(w, sh, EvRevalidated(issue, attempt, Revalidate(w, |sh.trace|, issue)), rest, frozen);
      case EffRetryFetch(req) =>
        RetryFetchKeeps(w, sh, req, frozen);
      case EffSpawn(issue, attempt) =>
        SpawnKeeps(w, sh, issue, attempt, rest, frozen);
      case EffKillWorker(id, _) => KillKeeps(w, sh, id, rest, frozen);
      case EffRemoveWorkspace(_) =>
      case EffArmRetryTimer(req, _) => ArmKeeps(w, sh, req, rest, frozen);
    }
  }

  lemma PendingMeansWired(w: World, sh: Shell, front: Pending, rest: Pending, frozen: Frozen)
    requires Ready(w, sh, front, rest, frozen) && front.claims + front.tokens.Keys != {}
    ensures Wired(w)
  {
    if !Wired(w) {
      InvParts(w, sh, Join(front, rest), frozen);
      NothingPending(w, sh, front, rest, frozen);
    }
  }

  lemma RetryFetchKeeps(w: World, sh: Shell, req: FireReq, frozen: Frozen)
    requires Ready(w, sh, Token(req), NONE, frozen)
    ensures Inv(w, Exec(w, sh, EffRetryFetch(req)), NONE, frozen)
    decreases EffectRank(EffRetryFetch(req)), 0
  {
    assert req.id in Token(req).tokens;
    PendingMeansWired(w, sh, Token(req), NONE, frozen);
    match w.candidates(|sh.trace|) {
      case Err(e) => StepKeeps(w, sh, EvRetryResolved(req, [], Some(e)), NONE, frozen);
      case Ok(issues) => StepKeeps(w, sh, EvRetryResolved(req, issues, None), NONE, frozen);
    }
  }

  lemma SpawnKeeps(w: World, sh: Shell, issue: Issue, attempt: int, rest: Pending, frozen: Frozen)
    requires Ready(w, sh, NONE.(claims := {issue.id}), rest, frozen)
    ensures Inv(w, Exec(w, sh, EffSpawn(issue, attempt)), rest, frozen)
    decreases EffectRank(EffSpawn(issue, attempt)), 0
  {
    assert issue.id in NONE.(claims := {issue.id}).claims;
    PendingMeansWired(w, sh, NONE.(claims := {issue.id}), rest, frozen);
    var called := sh.(spawns := sh.spawns + [SpawnCall(sh.cur, issue, attempt)]);
    CallKeeps(w, sh, issue, attempt, rest, frozen);
    match w.spawn(|sh.trace|, issue, attempt) {
      case Err(e) => StepKeeps(w, called, EvSpawnFailed(issue, attempt, e), rest, frozen);
      case Ok(res) => SpawnedKeeps(w, called, issue, attempt, res, rest, frozen);
    }
  }

  lemma SpawnedKeeps(w: World, sh: Shell, issue: Issue, attempt: int, res: SpawnResult, rest: Pending, frozen: Frozen)
    requires Ready(w, sh, NONE.(claims := {issue.id}), rest, frozen)
    requires HiredFor(sh.spawns, |sh.spawns|, issue.id) && |sh.spawns| !in sh.fleet.strays
    requires AlwaysHandles(w) ==> res.hasWorker
    ensures Inv(w, Step(w, Hired(sh, issue.id, res), EvSpawned(issue, attempt, res.session)), rest, frozen)
    decreases 1
  {
    HireKeeps(w, sh, issue.id, res, rest, frozen);
    StepKeeps(w, Hired(sh, issue.id, res), EvSpawned(issue, attempt, res.session), rest, frozen);
  }
}
