/** What every fold and every effect of a drain keeps. Work that is still ahead in
    the drain (an unexecuted effect, an event about to be folded) is summed up as a
    Pending value, so the invariant can be stated in the middle of a drain. */
module SchedulerInvariant {
  import opened SchedulerTypes
  import opened SchedulerReduce
  import opened SchedulerDrain

  /** claims: issues reserved for a spawn that has not been folded yet.
      kills: issues taken out of Running whose worker handle is still to be dropped.
      landed: issues whose worker is registered but not yet in Running.
      gone: issues whose worker handle was dropped ahead of the fold.
      tokens: retries on their way to a timer or back from one. */
  datatype Pending = Pending(claims: set<Id>, kills: set<Id>, landed: set<Id>, gone: set<Id>, tokens: map<Id, FireReq>)

  /** Queue entries that nothing is scheduled for, and the number of spawns made when they were singled out. */
  datatype Frozen = Frozen(entries: map<Id, RetryEntry>, since: nat)

  const NONE := Pending({}, {}, {}, {}, map[])

  function Token(req: FireReq): Pending { Pending({}, {}, {}, {}, map[req.id := req]) }

  function OfEffect(eff: Effect): Pending {
    match eff
    case EffRevalidate(issue, _) => NONE.(claims := {issue.id})
    case EffSpawn(issue, _) => NONE.(claims := {issue.id})
    case EffKillWorker(id, _) => NONE.(kills := {id})
    case EffArmRetryTimer(req, _) => Token(req)
    case EffRetryFetch(req) => Token(req)
    case _ => NONE
  }

  function OfEvent(ev: Event): Pending {
    match ev
    case EvRevalidated(issue, _, _) => NONE.(claims := {issue.id})
    case EvSpawned(issue, _, _) => NONE.(claims := {issue.id}, landed := {issue.id})
    case EvSpawnFailed(issue, _, _) => NONE.(claims := {issue.id})
    case EvRetryDue(req) => Token(req)
    case EvRetryResolved(req, _, _) => Token(req)
    case EvWorkerExit(exit) => NONE.(gone := {exit.id})
    case _ => NONE
  }

  function Join(a: Pending, b: Pending): Pending {
    Pending(a.claims + b.claims, a.kills + b.kills, a.landed + b.landed, a.gone + b.gone, a.tokens + b.tokens)
  }

  predicate Apart(a: Pending, b: Pending) {
    a.claims !! b.claims && a.kills !! b.kills && a.landed !! b.landed && a.tokens.Keys !! b.tokens.Keys
  }

  function Sum(effs: seq<Effect>): Pending {
    if effs == [] then NONE else Join(OfEffect(effs[0]), Sum(effs[1..]))
  }

  predicate AllApart(effs: seq<Effect>) {
    effs == [] || (Apart(OfEffect(effs[0]), Sum(effs[1..])) && AllApart(effs[1..]))
  }

  /** Effects after which new issues may be claimed; nothing may be waiting behind them. */
  predicate Opening(eff: Effect) { eff.EffFetchCandidates? || eff.EffRetryFetch? }

  predicate OpeningEvent(ev: Event) {
    ev.EvTick? || ev.EvCandidatesFetched? || ev.EvRetryDue? || ev.EvRetryResolved?
  }

  predicate WellOrdered(effs: seq<Effect>, rest: Pending) {
    forall i | 0 <= i < |effs| ::
      !effs[i].EffCancelRetryTimer? && (Opening(effs[i]) ==> i == |effs| - 1 && rest == NONE)
  }

  // ---- the parts of the invariant -------------------------------------------

  /** Running <= Claimed <= Running + RetryAttempts + claims under way, each issue in one place only. */
  predicate ClaimsOk(s: State, claims: set<Id>) {
    && s.running.Keys <= s.claimed
    && s.running.Keys !! s.retries.Keys
    && claims <= s.claimed
    && claims !! s.running.Keys && claims !! s.retries.Keys
    && s.claimed <= s.running.Keys + s.retries.Keys + claims
  }

  /** Spawns always return a worker handle. */
  ghost predicate AlwaysHandles(w: World) {
    forall n, issue, attempt :: w.spawn(n, issue, attempt).Ok? ==> w.spawn(n, issue, attempt).value.hasWorker
  }

  ghost predicate HandlesOk(w: World, sh: Shell, p: Pending) {
    HandlesMatch(AlwaysHandles(w), sh.cur.running.Keys, sh.workers.Keys, p)
  }

  /** There is a handle for each running issue, each issue about to be killed and each worker just landed;
      at most when spawns may return none, exactly otherwise. */
  predicate HandlesMatch(always: bool, running: set<Id>, workers: set<Id>, p: Pending) {
    && p.kills !! running && p.kills !! p.claims && p.landed <= p.claims
    && p.gone !! workers && p.gone !! p.kills && p.gone !! p.claims
    && workers <= running + p.kills + p.landed
    && (always ==> running + p.kills + p.landed <= workers + p.gone)
  }

  /** The retry entry a fire request was made for. */
  predicate Matches(s: State, req: FireReq) { EntryFor(s.retries, req) }

  predicate EntryFor(retries: map<Id, RetryEntry>, req: FireReq) {
    && req.id in retries && retries[req.id].id == req.id
    && retries[req.id].identifier == req.identifier && retries[req.id].attempt == req.attempt
  }

  function ArmedIds(armed: map<nat, FireReq>): set<Id> { set t | t in armed :: armed[t].id }

  function FireIds(fires: seq<FireReq>): set<Id> { set k | 0 <= k < |fires| :: fires[k].id }

  /** Issues with a timer running or a fire waiting for the loop. */
  function Scheduled(sh: Shell): set<Id> { ArmedIds(sh.armed) + FireIds(sh.fires) }

  predicate OneTimerEach(armed: map<nat, FireReq>) {
    forall t, u | t in armed && u in armed && armed[t].id == armed[u].id :: t == u
  }

  predicate ScheduleOk(sh: Shell) { Timetable(sh.cur.retries, sh.armed, sh.timers, sh.fires, sh.nextTimer) }

  /** Every running timer and waiting fire is for the entry now queued, and an issue has at most one of them. */
  predicate Timetable(retries: map<Id, RetryEntry>, armed: map<nat, FireReq>, timers: map<Id, nat>,
                      fires: seq<FireReq>, next: nat) {
    && (forall t | t in armed :: t < next && EntryFor(retries, armed[t]))
    && (forall id | id in timers :: timers[id] < next && (timers[id] in armed ==> armed[timers[id]].id == id))
    && (forall k | 0 <= k < |fires| :: EntryFor(retries, fires[k]))
    && OneTimerEach(armed)
    && (forall j, k | 0 <= j < k < |fires| :: fires[j].id != fires[k].id)
    && ArmedIds(armed) !! FireIds(fires)
  }

  predicate TokensOk(s: State, scheduled: set<Id>, tokens: map<Id, FireReq>, frozen: Frozen) {
    TokensMatch(s.retries, s.claimed, scheduled, tokens, frozen)
  }

  /** A queued and claimed issue is scheduled or has a token, never both; frozen entries have neither. */
  predicate TokensMatch(retries: map<Id, RetryEntry>, claimed: set<Id>, scheduled: set<Id>,
                        tokens: map<Id, FireReq>, frozen: Frozen) {
    && (forall id | id in tokens :: tokens[id].id == id && EntryFor(retries, tokens[id]))
    && scheduled !! tokens.Keys
    && retries.Keys * claimed <= scheduled + tokens.Keys
    && frozen.entries.Keys !! scheduled && frozen.entries.Keys !! tokens.Keys && frozen.entries.Keys !! claimed
    && (forall id | id in frozen.entries :: id in retries && retries[id] == frozen.entries[id])
  }

  predicate TimersOk(sh: Shell, tokens: map<Id, FireReq>, frozen: Frozen) {
    ScheduleOk(sh) && TokensOk(sh.cur, Scheduled(sh), tokens, frozen)
  }

  predicate Idle(sh: Shell) {
    sh.cur.claimed == {} && sh.cur.retries == map[] && sh.cur.running == map[]
  }

  /** Queued issues that hold no claim. */
  function Orphans(s: State): set<Id> { s.retries.Keys - s.claimed }

  function FailedSpawn(ev: Event): set<Id> { if ev.EvSpawnFailed? then {ev.issue.id} else {} }

  function Max(a: int, b: int): int { if a < b then b else a }

  /** The cardinality of a set, counted one element at a time (SizeIsCardinality). */
  ghost function Size(a: set<Id>): nat {
    if a == {} then 0 else var x :| x in a; 1 + Size(a - {x})
  }

  lemma {:induction false} SizeIsCardinality(a: set<Id>)
    ensures Size(a) == |a|
  {
    if a != {} {
      var x :| x in a && Size(a) == 1 + Size(a - {x});
      SizeIsCardinality(a - {x});
    }
  }

  /** The issues tracked grow only up to the configured number of agents. */
  ghost predicate Capped(f: Fold) {
    match f
    case Fold(before, _, cfg, after) => Size(Tracked(after)) <= Max(Size(Tracked(before)), cfg.maxAgents)
    case Deferred(before, _, after) => Size(Tracked(after)) <= Size(Tracked(before))
  }

  /** A queued issue is without its claim exactly when its last spawn failed. */
  predicate OrphansOk(f: Fold) {
    match f
    case Fold(before, ev, _, after) =>
      && Orphans(after) == (Orphans(before) + FailedSpawn(ev)) * after.retries.Keys
      && FailedSpawn(ev) <= after.retries.Keys
    case Deferred(before, _, after) => Orphans(after) == Orphans(before)
  }

  /** One queued entry is due a second after some time; nothing else is different. */
  predicate Retimed(s: State, id: Id, s': State) {
    && id in s.retries && id in s'.retries
    && s' == s.(retries := s.retries[id := s.retries[id].(armedAt := s'.retries[id].armedAt, delay := OneSecond)])
  }

  /** A published state is what Reduce made of the one before it, or has one retry pushed back. */
  ghost predicate Reduced(f: Fold) {
    && f.after.running.Keys <= f.after.claimed
    && match f
       case Fold(before, ev, cfg, after) => exists now :: after == Reduce(before, ev, cfg, now).0
       case Deferred(before, req, after) => Retimed(before, req.id, after)
  }

  function LastState(trace: seq<Fold>): State {
    if trace == [] then EMPTY_STATE else trace[|trace| - 1].after
  }

  /** The k-th published state starts from the one before it, the first from the empty
      state, by a fold that keeps the cap and orphans no more than it must. */
  ghost predicate FoldOk(trace: seq<Fold>, k: nat)
    requires k < |trace|
  {
    && trace[k].before == LastState(trace[..k])
    && Reduced(trace[k]) && Capped(trace[k]) && OrphansOk(trace[k])
  }

  ghost predicate FoldsOk(trace: seq<Fold>) {
    forall k | 0 <= k < |trace| :: FoldOk(trace, k)
  }

  ghost predicate TraceOk(sh: Shell) {
    FoldsOk(sh.trace) && sh.cur == LastState(sh.trace)
  }

  /** The issue was claimed, not running and not queued when the spawner was called for it. */
  predicate CallOk(c: SpawnCall) {
    c.issue.id in c.at.claimed && c.issue.id !in c.at.running && c.issue.id !in c.at.retries
  }

  predicate SpawnsOk(sh: Shell, frozen: Frozen) { CallsOk(sh.spawns, frozen) }

  predicate CallsOk(spawns: seq<SpawnCall>, frozen: Frozen) {
    && (forall k | 0 <= k < |spawns| :: CallOk(spawns[k]))
    && (forall k | frozen.since <= k < |spawns| :: spawns[k].issue.id !in frozen.entries)
  }

  predicate FleetOk(sh: Shell) { Manned(sh.workers, sh.fleet, sh.spawns) }

  /** Every handle held is a live worker of its issue and no stray; every live worker is held or a stray. */
  predicate Manned(workers: map<Id, nat>, fleet: Fleet, spawns: seq<SpawnCall>) {
    && (forall id | id in workers ::
          HiredFor(spawns, workers[id], id) && workers[id] in fleet.live && workers[id] !in fleet.strays)
    && (forall h | h in fleet.live ::
          0 < h <= |spawns| && (h in fleet.strays || HeldBy(workers, spawns[h - 1].issue.id, h)))
    && (forall h | h in fleet.strays :: 0 < h <= |spawns|)
  }

  predicate HeldBy(workers: map<Id, nat>, id: Id, h: nat) { id in workers && workers[id] == h }

  datatype Part = Claims | Handles | Timers | Trace | Spawns | Crew | Reach

  ghost predicate Holds(part: Part, w: World, sh: Shell, p: Pending, frozen: Frozen) {
    match part
    case Claims => ClaimsOk(sh.cur, p.claims)
    case Handles => HandlesOk(w, sh, p)
    case Timers => TimersOk(sh, p.tokens, frozen)
    case Trace => TraceOk(sh)
    case Spawns => SpawnsOk(sh, frozen)
    case Crew => FleetOk(sh)
    case Reach => Wired(w) || Idle(sh)
  }

  /** The whole invariant. It is a conjunction; written as a quantifier, a proof opens only the parts it names. */
  ghost predicate Inv(w: World, sh: Shell, p: Pending, frozen: Frozen) {
    forall part :: Holds(part, w, sh, p, frozen)
  }

  lemma InvParts(w: World, sh: Shell, p: Pending, frozen: Frozen)
    requires Inv(w, sh, p, frozen)
    ensures ClaimsOk(sh.cur, p.claims) && HandlesOk(w, sh, p) && TimersOk(sh, p.tokens, frozen)
    ensures TraceOk(sh) && SpawnsOk(sh, frozen) && FleetOk(sh) && (Wired(w) || Idle(sh))
  {
    assert Holds(Claims, w, sh, p, frozen) && Holds(Handles, w, sh, p, frozen) && Holds(Timers, w, sh, p, frozen);
    assert Holds(Trace, w, sh, p, frozen) && Holds(Spawns, w, sh, p, frozen) && Holds(Crew, w, sh, p, frozen);
    assert Holds(Reach, w, sh, p, frozen);
  }

  lemma InvFrom(w: World, sh: Shell, p: Pending, frozen: Frozen)
    requires ClaimsOk(sh.cur, p.claims) && HandlesOk(w, sh, p) && TimersOk(sh, p.tokens, frozen)
    requires TraceOk(sh) && SpawnsOk(sh, frozen) && FleetOk(sh) && (Wired(w) || Idle(sh))
    ensures Inv(w, sh, p, frozen)
  {
  }
}
