/** The pure core of the scheduler: transitions, slot arithmetic, eligibility and
    the ten reducers. The loops of the source appear here as recursive functions;
    SchedulerLoops has the loops themselves, proved equal to these. */
module SchedulerReduce {
  import opened SchedulerTypes
  import B = Backoff
  import Order

  const ERR_NO_SLOTS := "no available orchestrator slots"
  const ERR_STALL := "stall timeout exceeded"
  const ERR_NOT_IN_REFRESH := "issue not in refresh response"
  const ERR_LEFT_ACTIVE := "issue left active states"

  // ---- transitions.go -------------------------------------------------------

  /** None stands for ErrDuplicateDispatch. */
  function Claim(s: State, id: Id): Option<State> {
    if id in s.claimed || id in s.running then None
    else Some(s.(retries := s.retries - {id}, claimed := s.claimed + {id}))
  }

  function ClaimFromRetry(s: State, id: Id): Option<State> {
    if id !in s.retries || id in s.running || id !in s.claimed then None
    else Some(s.(retries := s.retries - {id}))
  }

  function MarkRunning(s: State, issue: Issue, attempt: int, session: LiveSession): State {
    s.(running := s.running[issue.id :=
         RunAttempt(issue, session, attempt, 0, session.startedAt, "", "", 0, Totals(0, 0, 0), 0, None)])
  }

  function UpdateSnapshot(s: State, id: Id, issue: Issue): State {
    if id in s.running then s.(running := s.running[id := s.running[id].(issue := issue)]) else s
  }

  function AddTotals(a: Totals, b: Totals): Totals {
    Totals(a.input + b.input, a.output + b.output, a.total + b.total)
  }

  function ReleaseClaim(s: State, id: Id): State {
    State(s.running - {id}, s.claimed - {id}, s.retries - {id}, s.usage - {id}, s.runtime - {id},
          if id in s.usage then AddTotals(s.totals, s.usage[id].totals) else s.totals,
          if id in s.runtime then s.totalRuntime + s.runtime[id] else s.totalRuntime)
  }

  function EnqueueRetry(s: State, entry: RetryEntry): State {
    s.(retries := s.retries[entry.id := entry])
  }

  /** The worker-exit transitions; `attempt` is the number of the next attempt. */
  function Demote(s: State, id: Id): State {
    s.(running := s.running - {id})
  }

  function ArmRetry(s: State, entry: RetryEntry): (State, seq<Effect>) {
    (EnqueueRetry(s, entry), [EffArmRetryTimer(FireReq(entry.id, entry.identifier, entry.attempt), entry.delay)])
  }

  function ArmBackoff(s: State, req: FireReq, err: string, cfg: Config, now: int): (State, seq<Effect>) {
    ArmRetry(s, RetryEntry(req.id, req.identifier, req.attempt, Backoff, Some(err), now,
                           AfterBackoff(req.attempt, cfg.maxBackoffMs)))
  }

  // ---- slots.go -------------------------------------------------------------

  function Queued(s: State): set<Id> {
    s.retries.Keys - s.running.Keys
  }

  /** Every issue the scheduler has anything to do with. */
  function Tracked(s: State): set<Id> {
    s.running.Keys + s.claimed + s.retries.Keys
  }

  function GlobalUsed(s: State): nat {
    |s.running| + |Queued(s)|
  }

  function AvailableGlobalSlots(s: State, cfg: Config): nat {
    var avail := cfg.maxAgents - GlobalUsed(s);
    if avail < 0 then 0 else avail
  }

  function RunningIn(s: State, norm: string): set<Id> {
    set id | id in s.running && Lower(s.running[id].issue.state) == norm
  }

  function CapacityOf(norm: string, cfg: Config): int {
    if norm in cfg.byState then cfg.byState[norm] else cfg.maxAgents
  }

  function AvailablePerStateSlots(state: string, s: State, cfg: Config): nat {
    var avail := CapacityOf(Lower(state), cfg) - |RunningIn(s, Lower(state))|;
    if avail < 0 then 0 else avail
  }

  predicate GlobalReclaimOk(s: State, cfg: Config, id: Id) {
    GlobalUsed(s) - (if id in s.retries then 1 else 0) < cfg.maxAgents
  }

  predicate RetryReclaimHasSlot(s: State, cfg: Config, id: Id, state: string) {
    GlobalReclaimOk(s, cfg, id) && AvailablePerStateSlots(state, s, cfg) > 0
  }

  // ---- eligibility.go -------------------------------------------------------

  function NormSet(states: seq<string>): set<string> {
    set i | 0 <= i < |states| :: Lower(states[i])
  }

  predicate Dispatchable(state: string, cfg: Config) {
    Lower(state) in NormSet(cfg.active) && Lower(state) !in NormSet(cfg.terminal)
  }

  predicate HasActiveBlocker(blockers: seq<Blocker>, cfg: Config) {
    exists i :: 0 <= i < |blockers| && Lower(blockers[i].state) !in NormSet(cfg.terminal)
  }

  predicate Eligible(iss: Issue, s: State, cfg: Config) {
    && iss.id != "" && iss.identifier != "" && iss.title != "" && iss.state != ""
    && Dispatchable(iss.state, cfg)
    && iss.id !in s.running && iss.id !in s.claimed && iss.id !in s.retries
    && !(Lower(iss.state) == "todo" && HasActiveBlocker(iss.blockedBy, cfg))
  }

  function FilterEligible(cands: seq<Issue>, s: State, cfg: Config): seq<Issue> {
    if cands == [] then []
    else (if Eligible(cands[0], s, cfg) then [cands[0]] else []) + FilterEligible(cands[1..], s, cfg)
  }

  /** The comparison given to sort.SliceStable. */
  predicate Before(a: Issue, b: Issue) {
    if a.priority.None? && b.priority.Some? then false
    else if a.priority.Some? && b.priority.None? then true
    else if a.priority.Some? && b.priority.Some? && a.priority.value != b.priority.value then
      a.priority.value < b.priority.value
    else if a.createdAt != b.createdAt then a.createdAt < b.createdAt
    else a.identifier != b.identifier && Order.StrLe(a.identifier, b.identifier)
  }

  /** Inserts behind every issue that does not have to come after it, so equal issues keep their order. */
  function InsertLast(x: Issue, xs: seq<Issue>): seq<Issue> {
    if xs == [] then [x]
    else if Before(x, xs[|xs| - 1]) then InsertLast(x, xs[..|xs| - 1]) + [xs[|xs| - 1]]
    else xs + [x]
  }

  function SortCandidates(xs: seq<Issue>): seq<Issue> {
    if xs == [] then [] else InsertLast(xs[|xs| - 1], SortCandidates(xs[..|xs| - 1]))
  }

  // ---- reduce_dispatch.go ---------------------------------------------------

  function UsedIn(used: map<string, int>, norm: string): int {
    if norm in used then used[norm] else 0
  }

  predicate Takes(s: State, iss: Issue, used: map<string, int>, cfg: Config) {
    && UsedIn(used, Lower(iss.state)) < CapacityOf(Lower(iss.state), cfg)
    && iss.id !in s.claimed && iss.id !in s.running
  }

  /** One pass over the sorted eligible issues; returns the claiming state and the winners in order. */
  function Allocate(s: State, xs: seq<Issue>, avail: int, used: map<string, int>, cfg: Config): (State, seq<Issue>)
    decreases xs
  {
    if xs == [] || avail <= 0 then (s, [])
    else if Takes(s, xs[0], used, cfg) then
      var norm := Lower(xs[0].state);
      var (s', ws) := Allocate(Claim(s, xs[0].id).value, xs[1..], avail - 1,
                               used[norm := UsedIn(used, norm) + 1], cfg);
      (s', [xs[0]] + ws)
    else Allocate(s, xs[1..], avail, used, cfg)
  }

  function Revalidations(ws: seq<Issue>): (effs: seq<Effect>)
    ensures |effs| == |ws|
    ensures forall i | 0 <= i < |ws| :: effs[i] == EffRevalidate(ws[i], 0)
  {
    seq(|ws|, i requires 0 <= i < |ws| => EffRevalidate(ws[i], 0))
  }

  function UsedByState(s: State): map<string, int> {
    map norm | norm in (set id | id in s.running :: Lower(s.running[id].issue.state)) :: |RunningIn(s, norm)|
  }

  function Winners(s: State, cands: seq<Issue>, cfg: Config): (State, seq<Issue>) {
    Allocate(s, SortCandidates(FilterEligible(cands, s, cfg)), AvailableGlobalSlots(s, cfg), UsedByState(s), cfg)
  }

  function ReduceCandidates(s: State, cands: seq<Issue>, cfg: Config): (State, seq<Effect>) {
    var (s', ws) := Winners(s, cands, cfg);
    (s', Revalidations(ws))
  }

  function ReduceRevalidated(s: State, issue: Issue, attempt: int, latest: Option<Issue>, cfg: Config)
    : (State, seq<Effect>)
  {
    if latest.None? || !Dispatchable(latest.value.state, cfg) then (ReleaseClaim(s, issue.id), [])
    else (s, [EffSpawn(issue, attempt)])
  }

  // ---- reduce_retry.go ------------------------------------------------------

  function FindIssue(issues: seq<Issue>, id: Id): (r: Option<Issue>)
    ensures r.Some? ==> r.value in issues && r.value.id == id
    ensures r.None? ==> forall x | x in issues :: x.id != id
  {
    if issues == [] then None
    else if issues[0].id == id then Some(issues[0])
    else FindIssue(issues[1..], id)
  }

  /** What becomes of a queued retry whose timer fired. */
  datatype Verdict = Again(err: string) | GiveUp | Dispatch(issue: Issue)

  function RetryVerdict(s: State, id: Id, issues: seq<Issue>, fetchErr: Option<string>, cfg: Config): (v: Verdict)
    ensures v.Dispatch? ==> v.issue.id == id
  {
    if fetchErr.Some? then Again(fetchErr.value) else
    var found := FindIssue(issues, id);
    if found.None? || !Dispatchable(found.value.state, cfg) then GiveUp
    else if !RetryReclaimHasSlot(s, cfg, id, found.value.state) then Again(ERR_NO_SLOTS)
    else Dispatch(found.value)
  }

  /** A refused claim leaves everything as it is. */
  function ActOnVerdict(s: State, req: FireReq, v: Verdict, cfg: Config, now: int): (State, seq<Effect>) {
    match v
    case Again(err) => ArmBackoff(s, FireReq(req.id, req.identifier, req.attempt + 1), err, cfg, now)
    case GiveUp => (ReleaseClaim(s, req.id), [])
    case Dispatch(issue) =>
      if ClaimFromRetry(s, req.id).None? then (s, [])
      else (ClaimFromRetry(s, req.id).value, [EffSpawn(issue, req.attempt)])
  }

  function ReduceRetryResolved(s: State, req: FireReq, issues: seq<Issue>, fetchErr: Option<string>, cfg: Config,
                               now: int)
    : (State, seq<Effect>)
  {
    ActOnVerdict(s, req, RetryVerdict(s, req.id, issues, fetchErr, cfg), cfg, now)
  }

  // ---- reduce_reconcile.go --------------------------------------------------

  predicate Stalled(run: RunAttempt, cfg: Config, now: int) {
    var base := if run.lastTimestamp == 0 then run.startedAt else run.lastTimestamp;
    base != 0 && now - base > cfg.stallTimeoutMs * B.MILLISECOND
  }

  /** Kill the worker of a running issue and queue it for a backoff retry. */
  function KillRetry(s: State, id: Id, attempt: int, err: string, reason: string, cfg: Config, now: int)
    : (State, seq<Effect>)
    requires id in s.running
  {
    var req := FireReq(id, s.running[id].issue.identifier, attempt + 1);
    var (s', arm) := ArmBackoff(Demote(s, id), req, err, cfg, now);
    (s', [EffKillWorker(id, reason)] + arm)
  }

  function StallOne(s: State, id: Id, cfg: Config, now: int): (State, seq<Effect>) {
    if id in s.running && Stalled(s.running[id], cfg, now) then
      KillRetry(s, id, s.running[id].attempt, ERR_STALL, "stall", cfg, now)
    else (s, [])
  }

  function StallAll(s: State, ids: seq<Id>, cfg: Config, now: int): (State, seq<Effect>)
    decreases ids
  {
    if ids == [] then (s, []) else
    var (s1, e1) := StallOne(s, ids[0], cfg, now);
    var (s2, e2) := StallAll(s1, ids[1..], cfg, now);
    (s2, e1 + e2)
  }

  function ReduceStall(s: State, cfg: Config, now: int): (State, seq<Effect>) {
    if cfg.stallTimeoutMs <= 0 then (s, [])
    else StallAll(s, Order.Sorted(s.running.Keys), cfg, now)
  }

  /** The refreshed issue for an ID: the last one wins, as in the source's map. */
  function LastById(issues: seq<Issue>, id: Id): (r: Option<Issue>)
    ensures r.Some? ==> r.value in issues && r.value.id == id
    ensures r.None? ==> forall x | x in issues :: x.id != id
  {
    if issues == [] then None
    else if issues[|issues| - 1].id == id then Some(issues[|issues| - 1])
    else LastById(issues[..|issues| - 1], id)
  }

  function RefreshOne(s: State, id: Id, issues: seq<Issue>, cfg: Config, now: int): (State, seq<Effect>) {
    if id !in s.running then (s, []) else
    var run := s.running[id];
    var iss := LastById(issues, id);
    if iss.None? then KillRetry(s, id, run.attempt, ERR_NOT_IN_REFRESH, "not-found", cfg, now) else
    var norm := Lower(iss.value.state);
    if norm in NormSet(cfg.terminal) then
      (ReleaseClaim(s, id), [EffKillWorker(id, "terminal"), EffRemoveWorkspace(run.issue.identifier)])
    else if norm in NormSet(cfg.active) then (UpdateSnapshot(s, id, iss.value), [])
    else KillRetry(s, id, run.attempt, ERR_LEFT_ACTIVE, "non-active", cfg, now)
  }

  function RefreshAll(s: State, ids: seq<Id>, issues: seq<Issue>, cfg: Config, now: int): (State, seq<Effect>)
    decreases ids
  {
    if ids == [] then (s, []) else
    var (s1, e1) := RefreshOne(s, ids[0], issues, cfg, now);
    var (s2, e2) := RefreshAll(s1, ids[1..], issues, cfg, now);
    (s2, e1 + e2)
  }

  // ---- reduce.go ------------------------------------------------------------

  function ReduceTick(s: State, configValid: bool, cfg: Config, now: int): (State, seq<Effect>) {
    var (s', effs) := ReduceStall(s, cfg, now);
    (s', effs
         + (if s'.running != map[] then [EffRefreshTracker(Order.Sorted(s'.running.Keys))] else [])
         + (if configValid then [EffFetchCandidates] else []))
  }

  function ReduceWorkerExit(s: State, e: Exit, cfg: Config, now: int): (State, seq<Effect>) {
    if e.id !in s.running then (s, [])
    else if e.err.None? then
      var run := s.running[e.id];
      ArmRetry(Demote(s, e.id),
               RetryEntry(e.id, run.issue.identifier, run.attempt + 1, Continuation, None, now, OneSecond))
    else
      ArmBackoff(Demote(s, e.id), FireReq(e.id, s.running[e.id].issue.identifier, e.attempt + 1), e.err.value, cfg, now)
  }

  function ReduceSpawnFailed(s: State, issue: Issue, attempt: int, err: string, cfg: Config, now: int)
    : (State, seq<Effect>)
  {
    ArmBackoff(ReleaseClaim(s, issue.id), FireReq(issue.id, issue.identifier, attempt + 1), err, cfg, now)
  }

  function ClampPos(v: int): nat {
    if v < 0 then 0 else v
  }

  function Observe(a: Accumulator, u: Usage): Accumulator {
    var prev := if u.thread in a.lastSeen then a.lastSeen[u.thread] else Usage(u.thread, 0, 0, 0);
    Accumulator(a.lastSeen[u.thread := u],
                AddTotals(a.totals, Totals(ClampPos(u.input - prev.input), ClampPos(u.output - prev.output),
                                           ClampPos(u.total - prev.total))))
  }

  function UsageOf(s: State, id: Id): Accumulator {
    if id in s.usage then s.usage[id] else Accumulator(map[], Totals(0, 0, 0))
  }

  /** Only bookkeeping inside running attempts changes; no issue changes place. */
  predicate Bookkeeping(s: State, s': State) {
    s'.running.Keys == s.running.Keys && s'.claimed == s.claimed && s'.retries == s.retries
  }

  /** Replaces the record of a running attempt. */
  function Rerun(s: State, id: Id, run: RunAttempt): (s': State)
    requires id in s.running
    ensures Bookkeeping(s, s')
  {
    s.(running := s.running[id := run])
  }

  function UpdateActivity(s: State, a: Activity): (s': State)
    ensures Bookkeeping(s, s')
  {
    if a.id !in s.running then s else
    var run := s.running[a.id];
    Rerun(s, a.id, run.(lastEvent := a.event, lastTimestamp := a.timestamp,
                        lastMessage := if a.message != "" then a.message else run.lastMessage))
  }

  function RecordUsage(s: State, id: Id, u: Usage): (s': State)
    ensures Bookkeeping(s, s')
  {
    if id !in s.running then s else
    var acc := Observe(UsageOf(s, id), u);
    Rerun(s, id, s.running[id].(totals := acc.totals)).(usage := s.usage[id := acc])
  }

  function RecordRateLimit(s: State, id: Id, limit: int): (s': State)
    ensures Bookkeeping(s, s')
  {
    if id !in s.running then s else Rerun(s, id, s.running[id].(rateLimit := Some(limit)))
  }

  function AddRuntime(s: State, id: Id, d: int): (s': State)
    ensures Bookkeeping(s, s')
  {
    if id !in s.running || d <= 0 then s else
    var run := s.running[id];
    Rerun(s, id, run.(totalRuntime := run.totalRuntime + d)).(
      runtime := s.runtime[id := (if id in s.runtime then s.runtime[id] else 0) + d])
  }

  function IncrementTurns(s: State, id: Id): (s': State)
    ensures Bookkeeping(s, s')
  {
    if id !in s.running then s else Rerun(s, id, s.running[id].(turns := s.running[id].turns + 1))
  }

  function ReduceCodexActivity(s: State, a: Activity): (s': State)
    ensures Bookkeeping(s, s')
  {
    var s1 := UpdateActivity(s, a);
    var s2 := if a.usage.Some? then RecordUsage(s1, a.id, a.usage.value) else s1;
    var s3 := if a.rateLimit.Some? then RecordRateLimit(s2, a.id, a.rateLimit.value) else s2;
    var s4 := if a.turnDuration.Some? then AddRuntime(s3, a.id, a.turnDuration.value) else s3;
    if a.turnCompleted then IncrementTurns(s4, a.id) else s4
  }

  function Reduce(s: State, ev: Event, cfg: Config, now: int): (State, seq<Effect>) {
    match ev
    case EvTick(valid) => ReduceTick(s, valid, cfg, now)
    case EvCandidatesFetched(issues) => ReduceCandidates(s, issues, cfg)
    case EvTrackerRefreshed(requested, issues) => RefreshAll(s, SortIds(requested), issues, cfg, now)
    case EvRevalidated(issue, attempt, latest) => ReduceRevalidated(s, issue, attempt, latest, cfg)
    case EvRetryDue(req) => (s, [EffRetryFetch(req)])
    case EvRetryResolved(req, issues, err) => ReduceRetryResolved(s, req, issues, err, cfg, now)
    case EvSpawned(issue, attempt, session) => (MarkRunning(s, issue, attempt, session), [])
    case EvSpawnFailed(issue, attempt, err) => ReduceSpawnFailed(s, issue, attempt, err, cfg, now)
    case EvWorkerExit(exit) => ReduceWorkerExit(s, exit, cfg, now)
    case EvCodexActivity(a) => (ReduceCodexActivity(s, a), [])
  }

  function InsertId(x: Id, xs: seq<Id>): seq<Id> {
    if xs == [] || Order.StrLe(x, xs[0]) then [x] + xs else [xs[0]] + InsertId(x, xs[1..])
  }

  /** sortedIDs: an ascending copy, duplicates kept. */
  function SortIds(xs: seq<Id>): seq<Id> {
    if xs == [] then [] else InsertId(xs[0], SortIds(xs[1..]))
  }
}
