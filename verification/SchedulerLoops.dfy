/** The loops of the scheduler's reducers, each proved to compute its function in SchedulerReduce. */
module SchedulerLoops {
  import opened SchedulerTypes
  import opened SchedulerReduce
  import opened SchedulerDispatch
  import Order

  // ---- slots.go -------------------------------------------------------------

  /** retryQueuedCount. */
  method RetryQueuedCount(s: State) returns (n: nat)
    ensures n == |Queued(s)|
  {
    n := 0;
    var todo := s.retries.Keys;
    ghost var counted: set<Id> := {};
    while todo != {}
      invariant forall id :: id in counted <==> id in s.retries && id !in todo && id !in s.running
      invariant n == |counted|
      decreases todo
    {
      var id :| id in todo;
      todo := todo - {id};
      if id !in s.running {
        n := n + 1;
        counted := counted + {id};
      }
    }
    QueuedSize(s, counted);
  }

  lemma QueuedSize(s: State, counted: set<Id>)
    requires forall id :: id in counted <==> id in s.retries && id !in s.running
    ensures |counted| == |Queued(s)|
  {
    assert counted == Queued(s);
  }

  /** runningInState. */
  method RunningInState(s: State, state: string) returns (n: nat)
    ensures n == |RunningIn(s, Lower(state))|
  {
    n := 0;
    var todo := s.running.Keys;
    ghost var counted: set<Id> := {};
    while todo != {}
      invariant forall id | id in todo :: id in s.running
      invariant forall id :: id in counted <==> id in RunningIn(s, Lower(state)) && id !in todo
      invariant n == |counted|
      decreases todo
    {
      var id :| id in todo;
      todo := todo - {id};
      if Lower(s.running[id].issue.state) == Lower(state) {
        n := n + 1;
        counted := counted + {id};
      }
    }
    assert counted == RunningIn(s, Lower(state));
  }

  method GlobalSlots(s: State, cfg: Config) returns (avail: nat)
    ensures avail == AvailableGlobalSlots(s, cfg)
  {
    var queued := RetryQueuedCount(s);
    avail := if cfg.maxAgents < |s.running| + queued then 0 else cfg.maxAgents - (|s.running| + queued);
  }

  method ReclaimHasSlot(s: State, cfg: Config, id: Id, state: string) returns (ok: bool)
    ensures ok == RetryReclaimHasSlot(s, cfg, id, state)
  {
    var used: int := RetryQueuedCount(s);
    used := used + |s.running|;
    if id in s.retries {
      used := used - 1;
    }
    if used >= cfg.maxAgents {
      return false;
    }
    var inState := RunningInState(s, state);
    ok := inState < CapacityOf(Lower(state), cfg);
  }

  // ---- eligibility.go -------------------------------------------------------

  /** normSet. */
  method NormalizedSet(states: seq<string>) returns (norms: set<string>)
    ensures norms == NormSet(states)
  {
    norms := {};
    for i := 0 to |states|
      invariant norms == NormSet(states[..i])
    {
      norms := norms + {Lower(states[i])};
      assert states[..i + 1] == states[..i] + [states[i]];
      NormSetSnoc(states[..i], states[i]);
    }
    assert states[..|states|] == states;
  }

  lemma NormSetSnoc(states: seq<string>, x: string)
    ensures NormSet(states + [x]) == NormSet(states) + {Lower(x)}
  {
    forall n | n in NormSet(states) + {Lower(x)} ensures n in NormSet(states + [x]) {
      if n == Lower(x) {
        assert (states + [x])[|states|] == x;
      } else {
        var i :| 0 <= i < |states| && Lower(states[i]) == n;
        assert (states + [x])[i] == states[i];
      }
    }
  }

  lemma {:induction false} FilterSnoc(xs: seq<Issue>, x: Issue, s: State, cfg: Config)
    ensures FilterEligible(xs + [x], s, cfg) == FilterEligible(xs, s, cfg) + if Eligible(x, s, cfg) then [x] else []
  {
    if xs == [] {
      assert xs + [x] == [x];
    } else {
      var longer := xs + [x];
      FilterSnoc(xs[1..], x, s, cfg);
      assert longer[0] == xs[0] && longer[1..] == xs[1..] + [x];
    }
  }

  /** filterEligible. */
  method EligibleCandidates(cands: seq<Issue>, s: State, cfg: Config) returns (out: seq<Issue>)
    ensures out == FilterEligible(cands, s, cfg)
  {
    out := [];
    for i := 0 to |cands|
      invariant out == FilterEligible(cands[..i], s, cfg)
    {
      assert cands[..i + 1] == cands[..i] + [cands[i]];
      FilterSnoc(cands[..i], cands[i], s, cfg);
      if Eligible(cands[i], s, cfg) {
        out := out + [cands[i]];
      }
    }
    assert cands[..|cands|] == cands;
  }

  // ---- reduce_dispatch.go ---------------------------------------------------

  lemma RunningInPut(s: State, id: Id, run: RunAttempt, n: string)
    requires id !in s.running
    ensures var s' := s.(running := s.running[id := run]);
            |RunningIn(s', n)| == |RunningIn(s, n)| + if n == Lower(run.issue.state) then 1 else 0
  {
    var s' := s.(running := s.running[id := run]);
    if n == Lower(run.issue.state) {
      assert RunningIn(s', n) == RunningIn(s, n) + {id};
    } else {
      assert RunningIn(s', n) == RunningIn(s, n);
    }
  }

  /** `used` holds the number of running issues of every state. */
  ghost predicate Tallies(used: map<string, int>, s: State) {
    forall n :: UsedIn(used, n) == |RunningIn(s, n)|
  }

  lemma TalliesPut(used: map<string, int>, s: State, id: Id, run: RunAttempt)
    requires Tallies(used, s) && id !in s.running
    ensures var norm := Lower(run.issue.state);
            Tallies(used[norm := UsedIn(used, norm) + 1], s.(running := s.running[id := run]))
  {
    var norm := Lower(run.issue.state);
    var s' := s.(running := s.running[id := run]);
    forall n ensures UsedIn(used[norm := UsedIn(used, norm) + 1], n) == |RunningIn(s', n)| {
      RunningInPut(s, id, run, n);
    }
  }

  lemma TalliesNone(s: State)
    requires s.running == map[]
    ensures Tallies(map[], s)
  {
    forall n ensures |RunningIn(s, n)| == 0 {
      assert RunningIn(s, n) == {};
    }
  }

  /** The per-state counts that a dispatch pass starts from. */
  method CountByState(s: State) returns (used: map<string, int>)
    ensures Tallies(used, s)
  {
    used := map[];
    var todo := s.running.Keys;
    ghost var done := s.(running := map[]);
    TalliesNone(done);
    while todo != {}
      invariant todo <= s.running.Keys
      invariant done.running == map id | id in s.running && id !in todo :: s.running[id]
      invariant Tallies(used, done)
      decreases todo
    {
      var id :| id in todo;
      var norm := Lower(s.running[id].issue.state);
      TalliesPut(used, done, id, s.running[id]);
      todo := todo - {id};
      used := used[norm := UsedIn(used, norm) + 1];
      done := done.(running := done.running[id := s.running[id]]);
    }
    assert done.running == s.running;
    forall n ensures UsedIn(used, n) == |RunningIn(s, n)| {
      assert RunningIn(done, n) == RunningIn(s, n);
    }
  }

  lemma {:induction false} AllocateTally(s: State, xs: seq<Issue>, avail: int, used: map<string, int>,
                                         used': map<string, int>, cfg: Config)
    requires forall n :: UsedIn(used, n) == UsedIn(used', n)
    ensures Allocate(s, xs, avail, used, cfg) == Allocate(s, xs, avail, used', cfg)
    decreases xs
  {
    if xs != [] && avail > 0 {
      if Takes(s, xs[0], used, cfg) {
        var norm := Lower(xs[0].state);
        var u := used[norm := UsedIn(used, norm) + 1];
        var u' := used'[norm := UsedIn(used', norm) + 1];
        forall m ensures UsedIn(u, m) == UsedIn(u', m) {
          assert UsedIn(used, m) == UsedIn(used', m);
        }
        AllocateTally(Claim(s, xs[0].id).value, xs[1..], avail - 1, u, u', cfg);
      } else {
        AllocateTally(s, xs[1..], avail, used, used', cfg);
      }
    }
  }

  /** The allocation loop of reduceCandidates, with its early exit and its two ways of passing over an issue. */
  method AllocateSlots(s0: State, xs: seq<Issue>, avail0: int, used0: map<string, int>, cfg: Config)
    returns (s: State, won: seq<Issue>)
    ensures s == Allocate(s0, xs, avail0, used0, cfg).0 && won == Allocate(s0, xs, avail0, used0, cfg).1
  {
    var avail, used := avail0, used0;
    s, won := s0, [];
    var i := 0;
    assert xs[0..] == xs;
    while i < |xs|
      invariant 0 <= i <= |xs|
      invariant Allocate(s0, xs, avail0, used0, cfg).0 == Allocate(s, xs[i..], avail, used, cfg).0
      invariant Allocate(s0, xs, avail0, used0, cfg).1 == won + Allocate(s, xs[i..], avail, used, cfg).1
    {
      if avail <= 0 {
        break;
      }
      var iss := xs[i];
      assert xs[i..][0] == iss && xs[i..][1..] == xs[i + 1..];
      i := i + 1;
      var norm := Lower(iss.state);
      if UsedIn(used, norm) >= CapacityOf(norm, cfg) {
        continue;
      }
      var claimed := Claim(s, iss.id);
      if claimed.None? {
        continue;
      }
      s := claimed.value;
      won := won + [iss];
      avail := avail - 1;
      used := used[norm := UsedIn(used, norm) + 1];
    }
  }

  /** reduceCandidates. */
  method DispatchPass(s0: State, cands: seq<Issue>, cfg: Config) returns (s: State, effs: seq<Effect>)
    ensures s == ReduceCandidates(s0, cands, cfg).0 && effs == ReduceCandidates(s0, cands, cfg).1
  {
    var eligibles := EligibleCandidates(cands, s0, cfg);
    var xs := SortCandidates(eligibles);
    var avail := GlobalSlots(s0, cfg);
    var used := CountByState(s0);
    forall n ensures UsedIn(used, n) == UsedIn(UsedByState(s0), n) {
      UsedByStateCounts(s0, n);
    }
    AllocateTally(s0, xs, avail, used, UsedByState(s0), cfg);
    var won;
    s, won := AllocateSlots(s0, xs, avail, used, cfg);
    effs := Revalidations(won);
  }

  // ---- reduce_retry.go ------------------------------------------------------

  /** findIssue: the first issue with the given ID. */
  method FindFirst(issues: seq<Issue>, id: Id) returns (r: Option<Issue>)
    ensures r == FindIssue(issues, id)
  {
    assert issues[0..] == issues;
    for i := 0 to |issues|
      invariant FindIssue(issues, id) == FindIssue(issues[i..], id)
    {
      if issues[i].id == id {
        return Some(issues[i]);
      }
      assert issues[i..][1..] == issues[i + 1..];
    }
    return None;
  }

  /** reduceRetryResolved. */
  method ResolveRetry(s: State, req: FireReq, issues: seq<Issue>, fetchErr: Option<string>, cfg: Config, now: int)
    returns (next: State, effs: seq<Effect>)
    ensures (next, effs) == ReduceRetryResolved(s, req, issues, fetchErr, cfg, now)
  {
    var again := FireReq(req.id, req.identifier, req.attempt + 1);
    if fetchErr.Some? {
      var r := ArmBackoff(s, again, fetchErr.value, cfg, now);
      return r.0, r.1;
    }
    var found := FindFirst(issues, req.id);
    if found.None? {
      return ReleaseClaim(s, req.id), [];
    }
    var active := NormalizedSet(cfg.active);
    var terminal := NormalizedSet(cfg.terminal);
    var norm := Lower(found.value.state);
    if norm !in active || norm in terminal {
      return ReleaseClaim(s, req.id), [];
    }
    var hasSlot := ReclaimHasSlot(s, cfg, req.id, found.value.state);
    if !hasSlot {
      var r := ArmBackoff(s, again, ERR_NO_SLOTS, cfg, now);
      return r.0, r.1;
    }
    var claimed := ClaimFromRetry(s, req.id);
    if claimed.None? {
      return s, [];
    }
    return claimed.value, [EffSpawn(found.value, req.attempt)];
  }

  // ---- reduce_reconcile.go --------------------------------------------------

  lemma EffectsAssociate(a: seq<Effect>, b: seq<Effect>, c: seq<Effect>)
    ensures (a + b) + c == a + (b + c)
  {
  }

  /** reduceStall. */
  method StallPass(s0: State, cfg: Config, now: int) returns (s: State, effs: seq<Effect>)
    ensures s == ReduceStall(s0, cfg, now).0 && effs == ReduceStall(s0, cfg, now).1
  {
    if cfg.stallTimeoutMs <= 0 {
      return s0, [];
    }
    s, effs := StallLoop(s0, Order.Sorted(s0.running.Keys), cfg, now);
  }

  method StallLoop(s0: State, ids: seq<Id>, cfg: Config, now: int) returns (s: State, effs: seq<Effect>)
    ensures s == StallAll(s0, ids, cfg, now).0 && effs == StallAll(s0, ids, cfg, now).1
  {
    s, effs := s0, [];
    ghost var all := StallAll(s0, ids, cfg, now);
    assert ids[0..] == ids;
    for i := 0 to |ids|
      invariant all.0 == StallAll(s, ids[i..], cfg, now).0
      invariant all.1 == effs + StallAll(s, ids[i..], cfg, now).1
    {
      assert ids[i..][1..] == ids[i + 1..];
      var (s', killed) := StallOne(s, ids[i], cfg, now);
      EffectsAssociate(effs, killed, StallAll(s', ids[i + 1..], cfg, now).1);
      s, effs := s', effs + killed;
    }
    assert ids[|ids|..] == [];
  }

  /** The refreshed issues by ID; a later one replaces an earlier one. */
  method ById(issues: seq<Issue>) returns (byId: map<Id, Issue>)
    ensures forall id :: (id in byId) == LastById(issues, id).Some?
    ensures forall id | id in byId :: byId[id] == LastById(issues, id).value
  {
    byId := map[];
    for i := 0 to |issues|
      invariant forall id :: (id in byId) == LastById(issues[..i], id).Some?
      invariant forall id | id in byId :: byId[id] == LastById(issues[..i], id).value
    {
      assert issues[..i + 1][..i] == issues[..i];
      byId := byId[issues[i].id := issues[i]];
    }
    assert issues[..|issues|] == issues;
  }

  /** reduceTrackerRefreshed. */
  method RefreshPass(s0: State, requested: seq<Id>, issues: seq<Issue>, cfg: Config, now: int)
    returns (s: State, effs: seq<Effect>)
    ensures s == RefreshAll(s0, SortIds(requested), issues, cfg, now).0
    ensures effs == RefreshAll(s0, SortIds(requested), issues, cfg, now).1
  {
    var byId := ById(issues);
    var active := NormalizedSet(cfg.active);
    var terminal := NormalizedSet(cfg.terminal);
    s, effs := s0, [];
    var ids := SortIds(requested);
    ghost var all := RefreshAll(s0, ids, issues, cfg, now);
    assert ids[0..] == ids;
    for i := 0 to |ids|
      invariant all.0 == RefreshAll(s, ids[i..], issues, cfg, now).0
      invariant all.1 == effs + RefreshAll(s, ids[i..], issues, cfg, now).1
    {
      assert ids[i..][1..] == ids[i + 1..];
      var one := RefreshStep(s, ids[i], byId, issues, active, terminal, cfg, now);
      EffectsAssociate(effs, one.1, RefreshAll(one.0, ids[i + 1..], issues, cfg, now).1);
      s, effs := one.0, effs + one.1;
    }
    assert ids[|ids|..] == [];
  }

  method RefreshStep(s: State, id: Id, byId: map<Id, Issue>, ghost issues: seq<Issue>,
                     active: set<string>, terminal: set<string>, cfg: Config, now: int)
    returns (r: (State, seq<Effect>))
    requires forall k :: (k in byId) == LastById(issues, k).Some?
    requires forall k | k in byId :: byId[k] == LastById(issues, k).value
    requires active == NormSet(cfg.active) && terminal == NormSet(cfg.terminal)
    ensures r == RefreshOne(s, id, issues, cfg, now)
  {
    if id !in s.running {
      return (s, []);
    }
    var run := s.running[id];
    if id !in byId {
      return KillRetry(s, id, run.attempt, ERR_NOT_IN_REFRESH, "not-found", cfg, now);
    }
    var norm := Lower(byId[id].state);
    if norm in terminal {
      return (ReleaseClaim(s, id), [EffKillWorker(id, "terminal"), EffRemoveWorkspace(run.issue.identifier)]);
    }
    if norm in active {
      return (UpdateSnapshot(s, id, byId[id]), []);
    }
    return KillRetry(s, id, run.attempt, ERR_LEFT_ACTIVE, "non-active", cfg, now);
  }

  method TickPass(s: State, valid: bool, cfg: Config, now: int) returns (next: State, effs: seq<Effect>)
    ensures next == ReduceTick(s, valid, cfg, now).0 && effs == ReduceTick(s, valid, cfg, now).1
  {
    next, effs := StallPass(s, cfg, now);
    if next.running != map[] {
      effs := effs + [EffRefreshTracker(Order.Sorted(next.running.Keys))];
    }
    if valid {
      effs := effs + [EffFetchCandidates];
    }
  }

  /** Reduce, running the loops above. */
  method ReduceEvent(s: State, ev: Event, cfg: Config, now: int) returns (next: State, effs: seq<Effect>)
    ensures next == Reduce(s, ev, cfg, now).0 && effs == Reduce(s, ev, cfg, now).1
  {
    match ev
    case EvTick(valid) => next, effs := TickPass(s, valid, cfg, now);
    case EvCandidatesFetched(issues) => next, effs := DispatchPass(s, issues, cfg);
    case EvTrackerRefreshed(requested, issues) => next, effs := RefreshPass(s, requested, issues, cfg, now);
    case EvRetryResolved(req, issues, err) => next, effs := ResolveRetry(s, req, issues, err, cfg, now);
    case _ =>
      var r := Reduce(s, ev, cfg, now);
      next, effs := r.0, r.1;
  }
}
