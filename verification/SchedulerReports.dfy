/** Usage reports are cumulative per thread. What the scheduler keeps for an issue is explained by the reports made
    since the issue was claimed: each adds what it is above the one before it of its thread, and no more. */
module SchedulerReports {
  import opened SchedulerTypes
  import opened SchedulerReduce
  import opened SchedulerDrain
  import opened SchedulerInvariant
  import opened SchedulerSafety
  import opened SchedulerRuns
  import opened SchedulerUsage
  import Order

  const NOTHING := Accumulator(map[], Totals(0, 0, 0))

  /** The last report of a thread. */
  function LastReport(us: seq<Usage>, thread: string): Option<Usage> {
    if us == [] then None
    else if us[|us| - 1].thread == thread then Some(us[|us| - 1])
    else LastReport(us[..|us| - 1], thread)
  }

  function CounterOf(u: Option<Usage>, c: Counter): int {
    if u.None? then 0 else
    match c
    case Input => u.value.input
    case Output => u.value.output
    case Total => u.value.total
  }

  /** How far the reports climb: each by what it exceeds the last one of its thread. */
  function Climb(us: seq<Usage>, c: Counter): int {
    if us == [] then 0 else
    var front, u := us[..|us| - 1], us[|us| - 1];
    var step := CounterOf(Some(u), c) - CounterOf(LastReport(front, u.thread), c);
    Climb(front, c) + if step > 0 then step else 0
  }

  /** The accumulator holds the last report of every thread and the climb of each counter. */
  ghost predicate Explains(us: seq<Usage>, acc: Accumulator) {
    && (forall thread :: LastReport(us, thread) == if thread in acc.lastSeen then Some(acc.lastSeen[thread]) else None)
    && (forall c: Counter :: Get(acc.totals, c) == Climb(us, c))
  }

  lemma ExplainsNothing()
    ensures Explains([], NOTHING)
  {
  }

  lemma ObserveExplains(us: seq<Usage>, acc: Accumulator, u: Usage)
    requires Explains(us, acc)
    ensures Explains(us + [u], Observe(acc, u))
  {
    var longer := us + [u];
    assert longer[..|us|] == us;
    assert LastReport(us, u.thread) == if u.thread in acc.lastSeen then Some(acc.lastSeen[u.thread]) else None;
    forall c: Counter ensures Get(Observe(acc, u).totals, c) == Climb(longer, c) {
      assert Get(acc.totals, c) == Climb(us, c);
    }
    forall thread
      ensures LastReport(longer, thread)
              == if thread in Observe(acc, u).lastSeen then Some(Observe(acc, u).lastSeen[thread]) else None
    {
      assert LastReport(us, thread) == if thread in acc.lastSeen then Some(acc.lastSeen[thread]) else None;
    }
  }

  /** Reports of one thread that never fall add up to the last of them. */
  lemma {:induction false} SteadyClimb(us: seq<Usage>, thread: string, c: Counter)
    requires us != [] && (forall i | 0 <= i < |us| :: us[i].thread == thread && CounterOf(Some(us[i]), c) >= 0)
    requires forall i, j | 0 <= i < j < |us| :: CounterOf(Some(us[i]), c) <= CounterOf(Some(us[j]), c)
    ensures Climb(us, c) == CounterOf(Some(us[|us| - 1]), c)
    decreases |us|
  {
    var front := us[..|us| - 1];
    if front != [] {
      SteadyClimb(front, thread, c);
    }
  }

  // ---- one fold -------------------------------------------------------------

  /** Issues that stay claimed keep their accumulator, and nobody gets one. */
  predicate Sheds(s: State, s': State) {
    && (forall id | id in s'.usage :: id in s.usage && s'.usage[id] == s.usage[id])
    && (forall id | id in s.usage && id in s'.claimed :: id in s'.usage)
  }

  lemma {:induction false} RefreshSheds(s: State, ids: seq<Id>, issues: seq<Issue>, cfg: Config, now: int)
    ensures var s' := RefreshAll(s, ids, issues, cfg, now).0; Sheds(s, s') && s'.claimed <= s.claimed
    decreases |ids|
  {
    if ids != [] {
      RefreshSheds(RefreshOne(s, ids[0], issues, cfg, now).0, ids[1..], issues, cfg, now);
    }
  }

  /** The report an event makes for a running issue. */
  function ReportFor(s: State, ev: Event, id: Id): Option<Usage> {
    if ev.EvCodexActivity? && ev.activity.id == id && id in s.running then ev.activity.usage else None
  }

  lemma ReportKept(s: State, s': State, a: Activity, id: Id)
    requires BooksOf(s') == Posted(BooksOf(s), a)
    ensures UsageOf(s', id)
            == if id == a.id && id in s.running && a.usage.Some? then Observe(UsageOf(s, id), a.usage.value)
               else UsageOf(s, id)
  {
  }

  /** The accounts in the record of a running attempt. */
  datatype Tally = Tally(totals: Totals, runtime: int)

  function TallyOf(s: State, id: Id): Option<Tally> {
    if id in s.running then Some(Tally(s.running[id].totals, s.running[id].totalRuntime)) else None
  }

  /** A stage that leaves the accounts of an issue alone. */
  predicate SameTally(s: State, s': State, id: Id) {
    TallyOf(s', id) == TallyOf(s, id) && UsageOf(s', id) == UsageOf(s, id)
  }

  lemma UsageTally(s: State, x: Id, u: Usage, id: Id)
    ensures var s' := RecordUsage(s, x, u);
            if id == x && id in s.running
            then TallyOf(s', id) == Some(Tally(UsageOf(s', id).totals, s.running[id].totalRuntime))
            else SameTally(s, s', id)
  {
  }

  lemma RuntimeTally(s: State, x: Id, d: int, id: Id)
    ensures var s' := AddRuntime(s, x, d);
            && UsageOf(s', id) == UsageOf(s, id)
            && TallyOf(s', id)
               == if id == x && id in s.running
                  then Some(Tally(s.running[id].totals, s.running[id].totalRuntime + if d > 0 then d else 0))
                  else TallyOf(s, id)
  {
  }

  lemma FirstTally(s: State, a: Activity, id: Id)
    ensures SameTally(s, UpdateActivity(s, a), id)
  {
  }

  lemma LimitTally(s: State, x: Id, limit: int, id: Id)
    ensures SameTally(s, RecordRateLimit(s, x, limit), id)
  {
  }

  lemma TurnTally(s: State, x: Id, id: Id)
    ensures SameTally(s, IncrementTurns(s, x), id)
  {
  }

  /** What a report shows for its attempt: the accumulated totals if it reports usage, and its turn added to the
      runtime if the turn took any time. */
  lemma ReportTally(s: State, a: Activity, id: Id)
    ensures var s' := ReduceCodexActivity(s, a);
            TallyOf(s', id)
            == if id != a.id || id !in s.running then TallyOf(s, id) else
               Some(Tally(if a.usage.Some? then UsageOf(s', id).totals else s.running[id].totals,
                          s.running[id].totalRuntime
                          + if a.turnDuration.Some? && a.turnDuration.value > 0 then a.turnDuration.value else 0))
  {
    var s1 := UpdateActivity(s, a);
    FirstTally(s, a, id);
    var s2 := if a.usage.Some? then RecordUsage(s1, a.id, a.usage.value) else s1;
    if a.usage.Some? {
      UsageTally(s1, a.id, a.usage.value, id);
    }
    var s3 := if a.rateLimit.Some? then RecordRateLimit(s2, a.id, a.rateLimit.value) else s2;
    if a.rateLimit.Some? {
      LimitTally(s2, a.id, a.rateLimit.value, id);
    }
    var s4 := if a.turnDuration.Some? then AddRuntime(s3, a.id, a.turnDuration.value) else s3;
    if a.turnDuration.Some? {
      RuntimeTally(s3, a.id, a.turnDuration.value, id);
    }
    TurnTally(s4, a.id, id);
  }

  lemma UntouchedSheds(s: State, s': State)
    requires Untouched(s, s')
    ensures Sheds(s, s')
  {
  }

  lemma VerdictSheds(s: State, req: FireReq, v: Verdict, cfg: Config, now: int)
    ensures Sheds(s, ActOnVerdict(s, req, v, cfg, now).0)
  {
  }

  lemma FailedSheds(s: State, issue: Issue, attempt: int, err: string, cfg: Config, now: int)
    ensures Sheds(s, ReduceSpawnFailed(s, issue, attempt, err, cfg, now).0)
  {
  }

  lemma ReduceSheds(s: State, ev: Event, cfg: Config, now: int)
    requires !ev.EvCodexActivity?
    ensures Sheds(s, Reduce(s, ev, cfg, now).0)
  {
    match ev
    case EvTick(_) =>
      StallUntouched(s, Order.Sorted(s.running.Keys), cfg, now);
      UntouchedSheds(s, ReduceStall(s, cfg, now).0);
    case EvCandidatesFetched(issues) =>
      AllocateUntouched(s, SortCandidates(FilterEligible(issues, s, cfg)), AvailableGlobalSlots(s, cfg),
                        UsedByState(s), cfg);
      UntouchedSheds(s, Winners(s, issues, cfg).0);
    case EvTrackerRefreshed(requested, issues) => RefreshSheds(s, SortIds(requested), issues, cfg, now);
    case EvRetryResolved(req, issues, err) =>
      VerdictSheds(s, req, RetryVerdict(s, req.id, issues, err, cfg), cfg, now);
    case EvSpawnFailed(issue, attempt, err) => FailedSheds(s, issue, attempt, err, cfg, now);
    case _ =>
  }

  // ---- whole runs -----------------------------------------------------------

  /** The reports made for an issue while it ran, since it was last claimed. */
  function Reports(trace: seq<Fold>, id: Id): seq<Usage> {
    if trace == [] then [] else
    var f := trace[|trace| - 1];
    if id !in f.after.claimed then [] else
    var before := Reports(trace[..|trace| - 1], id);
    if f.Fold? && ReportFor(f.before, f.ev, id).Some? then before + [ReportFor(f.before, f.ev, id).value] else before
  }

  /** The fold leaves the accumulator of an issue that stays claimed alone, or adds its report. */
  predicate Adds(f: Fold, id: Id) {
    var report := if f.Fold? then ReportFor(f.before, f.ev, id) else None;
    id in f.after.claimed ==>
      UsageOf(f.after, id)
      == if report.Some? then Observe(UsageOf(f.before, id), report.value) else UsageOf(f.before, id)
  }

  lemma FoldAdds(f: Fold, id: Id)
    requires Reduced(f)
    ensures Adds(f, id)
  {
    if f.Fold? {
      var now :| f.after == Reduce(f.before, f.ev, f.cfg, now).0;
      if f.ev.EvCodexActivity? {
        ActivityPosts(f.before, f.ev.activity);
        ReportKept(f.before, f.after, f.ev.activity, id);
      } else {
        ReduceSheds(f.before, f.ev, f.cfg, now);
      }
    }
  }

  lemma FoldReports(front: seq<Fold>, f: Fold, id: Id)
    requires Adds(f, id) && Explains(Reports(front, id), UsageOf(f.before, id))
    requires Accumulators(f.after) <= f.after.claimed
    ensures Explains(Reports(front + [f], id), UsageOf(f.after, id))
  {
    assert (front + [f])[..|front|] == front;
    ExplainsNothing();
    if id in f.after.claimed && f.Fold? && ReportFor(f.before, f.ev, id).Some? {
      ObserveExplains(Reports(front, id), UsageOf(f.before, id), ReportFor(f.before, f.ev, id).value);
    }
  }

  lemma AccumulatorsClaimed(trace: seq<Fold>)
    requires FoldsOk(trace)
    ensures Accumulators(LastState(trace)) <= LastState(trace).claimed
  {
    TraceConserves(trace, Total);
  }

  lemma {:induction false} TraceReports(trace: seq<Fold>, id: Id)
    requires FoldsOk(trace)
    ensures Explains(Reports(trace, id), UsageOf(LastState(trace), id))
    decreases |trace|
  {
    if trace == [] {
      ExplainsNothing();
    } else {
      var front, f := trace[..|trace| - 1], trace[|trace| - 1];
      AccumulatorsClaimed(trace);
      FoldsOkLast(trace);
      TraceReports(front, id);
      assert trace == front + [f];
      FoldAdds(f, id);
      FoldReports(front, f, id);
    }
  }

  /** After any run the accumulator of every issue holds the climb of the reports made for it while it ran since it was
      last claimed, and the last of them for each thread. */
  lemma RunReports(w: World, cfg: Config, inputs: seq<Input>, id: Id)
    ensures var sh := Run(w, Start(cfg), inputs); Explains(Reports(sh.trace, id), UsageOf(sh.cur, id))
  {
    StartKeeps(w, cfg);
    RunKeeps(w, Start(cfg), inputs, UNFROZEN);
    InvParts(w, Run(w, Start(cfg), inputs), NONE, UNFROZEN);
    TraceReports(Run(w, Start(cfg), inputs).trace, id);
  }
}
