/** Token and runtime accounting: what a snapshot reports is what was reported to the
    scheduler, through every retry, stall, continuation and release. */
module SchedulerUsage {
  import opened SchedulerTypes
  import opened SchedulerReduce
  import opened SchedulerDrain
  import opened SchedulerInvariant
  import opened SchedulerSafety
  import opened SchedulerRuns
  import Order

  /** The three token counters. */
  datatype Counter = Input | Output | Total

  function Get(t: Totals, c: Counter): int {
    match c
    case Input => t.input
    case Output => t.output
    case Total => t.total
  }

  ghost function SumRuntime(m: map<Id, int>): int {
    if m == map[] then 0 else var id :| id in m; m[id] + SumRuntime(m - {id})
  }

  ghost function SumUsage(m: map<Id, Accumulator>, c: Counter): int {
    if m == map[] then 0 else var id :| id in m; Get(m[id].totals, c) + SumUsage(m - {id}, c)
  }

  /** The order of summing does not matter. */
  lemma {:induction false} SumRuntimeAt(m: map<Id, int>, id: Id)
    requires id in m
    ensures SumRuntime(m) == m[id] + SumRuntime(m - {id})
    decreases |m|
  {
    var k :| k in m && SumRuntime(m) == m[k] + SumRuntime(m - {k});
    if k != id {
      SumRuntimeAt(m - {k}, id);
      SumRuntimeAt(m - {id}, k);
      assert m - {k} - {id} == m - {id} - {k};
    }
  }

  lemma {:induction false} SumUsageAt(m: map<Id, Accumulator>, id: Id, c: Counter)
    requires id in m
    ensures SumUsage(m, c) == Get(m[id].totals, c) + SumUsage(m - {id}, c)
    decreases |m|
  {
    var k :| k in m && SumUsage(m, c) == Get(m[k].totals, c) + SumUsage(m - {k}, c);
    if k != id {
      SumUsageAt(m - {k}, id, c);
      SumUsageAt(m - {id}, k, c);
      assert m - {k} - {id} == m - {id} - {k};
    }
  }

  ghost function SnapshotRuntime(s: State): int { s.totalRuntime + SumRuntime(s.runtime) }

  ghost function SnapshotTokens(s: State, c: Counter): int { Get(s.totals, c) + SumUsage(s.usage, c) }

  /** Snapshot in state.go, visiting the live accumulators in any order. */
  method Snapshot(s: State) returns (totals: Totals, runtime: int)
    ensures forall c :: Get(totals, c) == SnapshotTokens(s, c)
    ensures runtime == SnapshotRuntime(s)
  {
    totals := s.totals;
    var usage := s.usage;
    while usage != map[]
      invariant forall c :: Get(totals, c) + SumUsage(usage, c) == SnapshotTokens(s, c)
      decreases |usage|
    {
      var id :| id in usage;
      forall c
        ensures Get(totals, c) + SumUsage(usage, c)
                == Get(AddTotals(totals, usage[id].totals), c) + SumUsage(usage - {id}, c)
      {
        SumUsageAt(usage, id, c);
      }
      totals := AddTotals(totals, usage[id].totals);
      usage := usage - {id};
    }
    runtime := s.totalRuntime;
    var live := s.runtime;
    while live != map[]
      invariant runtime + SumRuntime(live) == SnapshotRuntime(s)
      decreases |live|
    {
      var id :| id in live;
      SumRuntimeAt(live, id);
      runtime := runtime + live[id];
      live := live - {id};
    }
  }

  // ---- what an event adds ---------------------------------------------------

  /** The turn time an event reports for an issue that is running. */
  function Earned(s: State, ev: Event): nat {
    if ev.EvCodexActivity? && ev.activity.id in s.running && ev.activity.turnDuration.Some?
       && ev.activity.turnDuration.value > 0
    then ev.activity.turnDuration.value else 0
  }

  /** By how much a cumulative report exceeds the last one of its thread. */
  function Delta(a: Accumulator, u: Usage, c: Counter): nat {
    var last := if u.thread in a.lastSeen then Get(Reported(a.lastSeen[u.thread]), c) else 0;
    if Get(Reported(u), c) > last then Get(Reported(u), c) - last else 0
  }

  function Reported(u: Usage): Totals { Totals(u.input, u.output, u.total) }

  function Consumed(s: State, ev: Event, c: Counter): nat {
    if ev.EvCodexActivity? && ev.activity.id in s.running && ev.activity.usage.Some?
    then Delta(UsageOf(s, ev.activity.id), ev.activity.usage.value, c) else 0
  }

  /** Both snapshot values move by the given amounts. */
  ghost predicate Accounts(s: State, s': State, c: Counter, tokens: int, runtime: int) {
    && SnapshotRuntime(s') == SnapshotRuntime(s) + runtime
    && SnapshotTokens(s', c) == SnapshotTokens(s, c) + tokens
  }

  function Accumulators(s: State): set<Id> { s.usage.Keys + s.runtime.Keys }

  /** Accumulators are opened for running issues and closed by releases only. */
  predicate Held(s: State, s': State) {
    Accumulators(s) <= s.claimed && s.running.Keys <= s.claimed ==> Accumulators(s') <= s'.claimed
  }

  /** Nothing of the accounts is touched. */
  predicate Untouched(s: State, s': State) {
    && s'.usage == s.usage && s'.runtime == s.runtime && s'.totals == s.totals && s'.totalRuntime == s.totalRuntime
    && s.claimed <= s'.claimed
  }

  lemma UntouchedAccounts(s: State, s': State, c: Counter)
    requires Untouched(s, s')
    ensures Accounts(s, s', c, 0, 0) && Held(s, s')
  {
  }

  /** Releasing an issue moves its accumulators into the lifetime totals. */
  lemma ReleaseAccounts(s: State, id: Id, c: Counter)
    ensures Accounts(s, ReleaseClaim(s, id), c, 0, 0) && Held(s, ReleaseClaim(s, id))
  {
    if id in s.usage {
      SumUsageAt(s.usage, id, c);
    } else {
      assert s.usage - {id} == s.usage;
    }
    if id in s.runtime {
      SumRuntimeAt(s.runtime, id);
    } else {
      assert s.runtime - {id} == s.runtime;
    }
  }

  /** A pass that only releases issues or leaves the accounts alone, and starts nothing. */
  ghost predicate Quiet(s: State, s': State, c: Counter) {
    Accounts(s, s', c, 0, 0) && Held(s, s') && (s.running.Keys <= s.claimed ==> s'.running.Keys <= s'.claimed)
  }

  lemma QuietCompose(s: State, s1: State, s2: State, c: Counter)
    requires Quiet(s, s1, c) && Quiet(s1, s2, c)
    requires Accumulators(s) <= s.claimed && s.running.Keys <= s.claimed
    ensures Quiet(s, s2, c)
  {
  }

  lemma RefreshOneQuiet(s: State, id: Id, issues: seq<Issue>, cfg: Config, now: int, c: Counter)
    requires s.running.Keys <= s.claimed
    ensures Quiet(s, RefreshOne(s, id, issues, cfg, now).0, c)
  {
    if id in s.running {
      var iss := LastById(issues, id);
      if iss.Some? && Lower(iss.value.state) in NormSet(cfg.terminal) {
        ReleaseAccounts(s, id, c);
      } else {
        UntouchedAccounts(s, RefreshOne(s, id, issues, cfg, now).0, c);
      }
    }
  }

  lemma {:induction false} RefreshQuiet(s: State, ids: seq<Id>, issues: seq<Issue>, cfg: Config, now: int, c: Counter)
    requires Accumulators(s) <= s.claimed && s.running.Keys <= s.claimed
    ensures Quiet(s, RefreshAll(s, ids, issues, cfg, now).0, c)
    decreases ids
  {
    if ids != [] {
      var s1 := RefreshOne(s, ids[0], issues, cfg, now).0;
      RefreshOneQuiet(s, ids[0], issues, cfg, now, c);
      RefreshQuiet(s1, ids[1..], issues, cfg, now, c);
      QuietCompose(s, s1, RefreshAll(s1, ids[1..], issues, cfg, now).0, c);
    }
  }

  lemma {:induction false} StallUntouched(s: State, ids: seq<Id>, cfg: Config, now: int)
    ensures Untouched(s, StallAll(s, ids, cfg, now).0)
    decreases ids
  {
    if ids != [] {
      StallUntouched(StallOne(s, ids[0], cfg, now).0, ids[1..], cfg, now);
    }
  }

  lemma {:induction false} AllocateUntouched(s: State, xs: seq<Issue>, avail: int, used: map<string, int>, cfg: Config)
    ensures Untouched(s, Allocate(s, xs, avail, used, cfg).0)
    decreases xs
  {
    if xs != [] && avail > 0 {
      if Takes(s, xs[0], used, cfg) {
        var norm := Lower(xs[0].state);
        AllocateUntouched(Claim(s, xs[0].id).value, xs[1..], avail - 1, used[norm := UsedIn(used, norm) + 1], cfg);
      } else {
        AllocateUntouched(s, xs[1..], avail, used, cfg);
      }
    }
  }

  lemma SumUsagePut(m: map<Id, Accumulator>, id: Id, acc: Accumulator, c: Counter)
    ensures SumUsage(m[id := acc], c)
            == SumUsage(m, c) + Get(acc.totals, c) - (if id in m then Get(m[id].totals, c) else 0)
  {
    SumUsageAt(m[id := acc], id, c);
    assert m[id := acc] - {id} == m - {id};
    if id in m {
      SumUsageAt(m, id, c);
    } else {
      assert m - {id} == m;
    }
  }

  lemma SumRuntimePut(m: map<Id, int>, id: Id, d: int)
    ensures SumRuntime(m[id := (if id in m then m[id] else 0) + d]) == SumRuntime(m) + d
  {
    var m' := m[id := (if id in m then m[id] else 0) + d];
    SumRuntimeAt(m', id);
    assert m' - {id} == m - {id};
    if id in m {
      SumRuntimeAt(m, id);
    } else {
      assert m - {id} == m;
    }
  }

  // ---- a codex notification -------------------------------------------------

  /** The part of the state the accounts live in. */
  datatype Books = Books(usage: map<Id, Accumulator>, runtime: map<Id, int>, totals: Totals, totalRuntime: int,
                         claimed: set<Id>, running: set<Id>)

  function BooksOf(s: State): Books {
    Books(s.usage, s.runtime, s.totals, s.totalRuntime, s.claimed, s.running.Keys)
  }

  /** The entries a usage report and a turn duration make. */
  function PostUsage(b: Books, id: Id, u: Usage): Books {
    if id !in b.running then b else
    var acc := if id in b.usage then b.usage[id] else Accumulator(map[], Totals(0, 0, 0));
    b.(usage := b.usage[id := Observe(acc, u)])
  }

  function PostRuntime(b: Books, id: Id, d: int): Books {
    if id !in b.running || d <= 0 then b else
    b.(runtime := b.runtime[id := (if id in b.runtime then b.runtime[id] else 0) + d])
  }

  function Posted(b: Books, a: Activity): Books {
    var b1 := if a.usage.Some? then PostUsage(b, a.id, a.usage.value) else b;
    if a.turnDuration.Some? then PostRuntime(b1, a.id, a.turnDuration.value) else b1
  }

  lemma UsageBooks(s: State, id: Id, u: Usage)
    ensures BooksOf(RecordUsage(s, id, u)) == PostUsage(BooksOf(s), id, u)
  {
  }

  lemma RuntimeBooks(s: State, id: Id, d: int)
    ensures BooksOf(AddRuntime(s, id, d)) == PostRuntime(BooksOf(s), id, d)
  {
  }

  lemma UpdateBooks(s: State, a: Activity)
    ensures BooksOf(UpdateActivity(s, a)) == BooksOf(s)
  {
  }

  lemma RateLimitBooks(s: State, id: Id, limit: int)
    ensures BooksOf(RecordRateLimit(s, id, limit)) == BooksOf(s)
  {
  }

  lemma TurnsBooks(s: State, id: Id)
    ensures BooksOf(IncrementTurns(s, id)) == BooksOf(s)
  {
  }

  lemma ActivityPosts(s: State, a: Activity)
    ensures BooksOf(ReduceCodexActivity(s, a)) == Posted(BooksOf(s), a)
  {
    var s1 := UpdateActivity(s, a);
    UpdateBooks(s, a);
    var s2 := if a.usage.Some? then RecordUsage(s1, a.id, a.usage.value) else s1;
    if a.usage.Some? {
      UsageBooks(s1, a.id, a.usage.value);
    }
    var s3 := if a.rateLimit.Some? then RecordRateLimit(s2, a.id, a.rateLimit.value) else s2;
    if a.rateLimit.Some? {
      RateLimitBooks(s2, a.id, a.rateLimit.value);
    }
    var s4 := if a.turnDuration.Some? then AddRuntime(s3, a.id, a.turnDuration.value) else s3;
    if a.turnDuration.Some? {
      RuntimeBooks(s3, a.id, a.turnDuration.value);
    }
    TurnsBooks(s4, a.id);
  }

  lemma ObserveDelta(a: Accumulator, u: Usage, c: Counter)
    ensures Get(Observe(a, u).totals, c) == Get(a.totals, c) + Delta(a, u, c)
  {
  }

  lemma PostsTokens(s: State, s': State, a: Activity, c: Counter)
    requires BooksOf(s') == Posted(BooksOf(s), a)
    ensures SnapshotTokens(s', c) == SnapshotTokens(s, c) + Consumed(s, EvCodexActivity(a), c)
  {
    if a.id in s.running && a.usage.Some? {
      var acc := UsageOf(s, a.id);
      ObserveDelta(acc, a.usage.value, c);
      SumUsagePut(s.usage, a.id, Observe(acc, a.usage.value), c);
    }
  }

  lemma PostsRuntime(s: State, s': State, a: Activity)
    requires BooksOf(s') == Posted(BooksOf(s), a)
    ensures SnapshotRuntime(s') == SnapshotRuntime(s) + Earned(s, EvCodexActivity(a))
    ensures Held(s, s')
  {
    if a.id in s.running && a.turnDuration.Some? {
      SumRuntimePut(s.runtime, a.id, a.turnDuration.value);
    }
  }

  // ---- every event ----------------------------------------------------------

  lemma VerdictAccounts(s: State, req: FireReq, v: Verdict, cfg: Config, now: int, c: Counter)
    ensures var s' := ActOnVerdict(s, req, v, cfg, now).0; Accounts(s, s', c, 0, 0) && Held(s, s')
  {
    if v.GiveUp? {
      ReleaseAccounts(s, req.id, c);
    } else {
      UntouchedAccounts(s, ActOnVerdict(s, req, v, cfg, now).0, c);
    }
  }

  lemma FailedAccounts(s: State, issue: Issue, attempt: int, err: string, cfg: Config, now: int, c: Counter)
    ensures var s' := ReduceSpawnFailed(s, issue, attempt, err, cfg, now).0; Accounts(s, s', c, 0, 0) && Held(s, s')
  {
    ReleaseAccounts(s, issue.id, c);
    UntouchedAccounts(ReleaseClaim(s, issue.id), ReduceSpawnFailed(s, issue, attempt, err, cfg, now).0, c);
  }

  lemma ExitAccounts(s: State, e: Exit, cfg: Config, now: int, c: Counter)
    ensures var s' := ReduceWorkerExit(s, e, cfg, now).0; Accounts(s, s', c, 0, 0) && Held(s, s')
  {
    UntouchedAccounts(s, ReduceWorkerExit(s, e, cfg, now).0, c);
  }

  /** Every fold: the snapshot moves by what the event reports for a running issue, and by nothing else. */
  lemma ReduceAccounts(s: State, ev: Event, cfg: Config, now: int, c: Counter)
    requires Accumulators(s) <= s.claimed && s.running.Keys <= s.claimed
    ensures var s' := Reduce(s, ev, cfg, now).0; Accounts(s, s', c, Consumed(s, ev, c), Earned(s, ev)) && Held(s, s')
  {
    match ev
    case EvTick(_) =>
      StallUntouched(s, Order.Sorted(s.running.Keys), cfg, now);
      UntouchedAccounts(s, ReduceStall(s, cfg, now).0, c);
    case EvCandidatesFetched(issues) =>
      AllocateUntouched(s, SortCandidates(FilterEligible(issues, s, cfg)), AvailableGlobalSlots(s, cfg),
                        UsedByState(s), cfg);
      UntouchedAccounts(s, Winners(s, issues, cfg).0, c);
    case EvTrackerRefreshed(requested, issues) => RefreshQuiet(s, SortIds(requested), issues, cfg, now, c);
    case EvRevalidated(issue, _, _) =>
      ReleaseAccounts(s, issue.id, c);
      UntouchedAccounts(s, s, c);
    case EvRetryDue(_) => UntouchedAccounts(s, s, c);
    case EvRetryResolved(req, issues, err) =>
      VerdictAccounts(s, req, RetryVerdict(s, req.id, issues, err, cfg), cfg, now, c);
    case EvSpawned(issue, attempt, session) => UntouchedAccounts(s, MarkRunning(s, issue, attempt, session), c);
    case EvSpawnFailed(issue, attempt, err) => FailedAccounts(s, issue, attempt, err, cfg, now, c);
    case EvWorkerExit(e) => ExitAccounts(s, e, cfg, now, c);
    case EvCodexActivity(a) =>
      ActivityPosts(s, a);
      PostsTokens(s, ReduceCodexActivity(s, a), a, c);
      PostsRuntime(s, ReduceCodexActivity(s, a), a);
  }

  // ---- over whole runs ------------------------------------------------------

  function EarnedOver(trace: seq<Fold>): nat {
    if trace == [] then 0 else
    var f := trace[|trace| - 1];
    EarnedOver(trace[..|trace| - 1]) + if f.Fold? then Earned(f.before, f.ev) else 0
  }

  function ConsumedOver(trace: seq<Fold>, c: Counter): nat {
    if trace == [] then 0 else
    var f := trace[|trace| - 1];
    ConsumedOver(trace[..|trace| - 1], c) + if f.Fold? then Consumed(f.before, f.ev, c) else 0
  }

  lemma FoldAccounts(f: Fold, c: Counter)
    requires Reduced(f) && Accumulators(f.before) <= f.before.claimed && f.before.running.Keys <= f.before.claimed
    ensures Accounts(f.before, f.after, c, if f.Fold? then Consumed(f.before, f.ev, c) else 0,
                     if f.Fold? then Earned(f.before, f.ev) else 0)
    ensures Accumulators(f.after) <= f.after.claimed
  {
    if f.Fold? {
      var now :| f.after == Reduce(f.before, f.ev, f.cfg, now).0;
      ReduceAccounts(f.before, f.ev, f.cfg, now, c);
    }
  }

  /** The accounts of a state, as its trace explains them. */
  ghost predicate Explained(s: State, trace: seq<Fold>, c: Counter) {
    && SnapshotRuntime(s) == EarnedOver(trace) && SnapshotTokens(s, c) == ConsumedOver(trace, c)
    && Accumulators(s) <= s.claimed && s.running.Keys <= s.claimed
  }

  lemma ExplainedStep(front: seq<Fold>, f: Fold, c: Counter)
    requires Explained(f.before, front, c) && Reduced(f)
    ensures Explained(f.after, front + [f], c)
  {
    FoldAccounts(f, c);
    assert (front + [f])[..|front|] == front;
  }

  lemma {:induction false} TraceConserves(trace: seq<Fold>, c: Counter)
    requires FoldsOk(trace)
    ensures Explained(LastState(trace), trace, c)
  {
    if trace != [] {
      var front, f := trace[..|trace| - 1], trace[|trace| - 1];
      FoldsOkLast(trace);
      TraceConserves(front, c);
      assert trace == front + [f];
      ExplainedStep(front, f, c);
    }
  }

  /** After any run the snapshot runtime is the sum of the positive turn durations reported while their
      issue was running, each token counter is the sum of the report deltas, and only claimed issues
      have accumulators. */
  lemma RunConserves(w: World, cfg: Config, inputs: seq<Input>, c: Counter)
    ensures var sh := Run(w, Start(cfg), inputs);
            && SnapshotRuntime(sh.cur) == EarnedOver(sh.trace) && SnapshotTokens(sh.cur, c) == ConsumedOver(sh.trace, c)
            && Accumulators(sh.cur) <= sh.cur.claimed
  {
    StartKeeps(w, cfg);
    RunKeeps(w, Start(cfg), inputs, UNFROZEN);
    InvParts(w, Run(w, Start(cfg), inputs), NONE, UNFROZEN);
    TraceConserves(Run(w, Start(cfg), inputs).trace, c);
  }
}
