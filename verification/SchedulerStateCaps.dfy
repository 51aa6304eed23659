/** The per-state caps over whole runs. A dispatch never lifts the running issues of a tracker
    state above its cap (SchedulerCaps); a relabel by the tracker does, and this module says
    exactly which issues it moves and how far a run can exceed the cap because of them. */
module SchedulerStateCaps {
  import opened SchedulerTypes
  import opened SchedulerReduce
  import opened SchedulerDrain
  import opened SchedulerInvariant
  import opened SchedulerFolds
  import opened SchedulerTheorems
  import opened SchedulerCaps
  import Order

  // ---- one refresh ----------------------------------------------------------

  predicate Ascending(xs: seq<Id>) {
    forall i, j | 0 <= i < j < |xs| :: Order.StrLe(xs[i], xs[j])
  }

  lemma {:induction false} InsertIdPermutes(x: Id, xs: seq<Id>)
    ensures multiset(InsertId(x, xs)) == multiset(xs) + multiset{x}
    decreases |xs|
  {
    if xs != [] && !Order.StrLe(x, xs[0]) {
      assert xs == [xs[0]] + xs[1..];
      InsertIdPermutes(x, xs[1..]);
    }
  }

  lemma AscendingCons(y: Id, ys: seq<Id>)
    requires Ascending(ys) && forall z | z in ys :: Order.StrLe(y, z)
    ensures Ascending([y] + ys)
  {
  }

  lemma {:induction false} InsertIdAscends(x: Id, xs: seq<Id>)
    requires Ascending(xs)
    ensures Ascending(InsertId(x, xs))
    decreases |xs|
  {
    if xs != [] && Order.StrLe(x, xs[0]) {
      forall z | z in xs ensures Order.StrLe(x, z) {
        if z != xs[0] {
          Order.StrLeTransitive(x, xs[0], z);
        }
      }
      AscendingCons(x, xs);
    } else if xs != [] {
      Order.StrLeTotal(x, xs[0]);
      InsertIdAscends(x, xs[1..]);
      InsertIdPermutes(x, xs[1..]);
      forall z | z in InsertId(x, xs[1..]) ensures Order.StrLe(xs[0], z) {
        assert z in multiset(InsertId(x, xs[1..]));
      }
      AscendingCons(xs[0], InsertId(x, xs[1..]));
    }
  }

  /** The refresh visits the requested issues in ascending order, each as often as it was requested. */
  lemma {:induction false} SortIdsCorrect(xs: seq<Id>)
    ensures Ascending(SortIds(xs)) && multiset(SortIds(xs)) == multiset(xs)
    decreases |xs|
  {
    if xs != [] {
      assert xs == [xs[0]] + xs[1..];
      SortIdsCorrect(xs[1..]);
      InsertIdPermutes(xs[0], SortIds(xs[1..]));
      InsertIdAscends(xs[0], SortIds(xs[1..]));
    }
  }

  lemma SortIdsElements(xs: seq<Id>, x: Id)
    ensures x in SortIds(xs) <==> x in xs
  {
    SortIdsCorrect(xs);
    assert x in multiset(SortIds(xs)) <==> x in multiset(xs);
  }

  /** The tracker reports the issue in this state, and the state is one to run in. */
  predicate RunsOn(issues: seq<Issue>, id: Id, cfg: Config, norm: string) {
    var iss := LastById(issues, id);
    iss.Some? && Lower(iss.value.state) == norm && norm in NormSet(cfg.active) && norm !in NormSet(cfg.terminal)
  }

  /** The running issues that a refresh moves into a state. */
  function Relabels(s: State, requested: seq<Id>, issues: seq<Issue>, cfg: Config, norm: string): set<Id> {
    set id | id in s.running && id in requested && id !in RunningIn(s, norm) && RunsOn(issues, id, cfg, norm)
  }

  /** The running issues that a refresh moves out of a state, to another one or out of Running. */
  function Departs(s: State, requested: seq<Id>, issues: seq<Issue>, cfg: Config, norm: string): set<Id> {
    set id | id in RunningIn(s, norm) && id in requested && !RunsOn(issues, id, cfg, norm)
  }

  lemma RefreshOneRunning(s: State, id: Id, issues: seq<Issue>, cfg: Config, now: int, norm: string)
    ensures var s' := RefreshOne(s, id, issues, cfg, now).0;
            && (forall x | x != id ::
                  (x in s'.running <==> x in s.running) && (x in RunningIn(s', norm) <==> x in RunningIn(s, norm)))
            && (id in RunningIn(s', norm) <==> id in s.running && RunsOn(issues, id, cfg, norm))
            && (id in s'.running ==> id in s.running)
            && (id in s.running && RunsOn(issues, id, cfg, norm) ==> id in s'.running)
  {
  }

  lemma {:induction false} RefreshAllRunning(s: State, ids: seq<Id>, issues: seq<Issue>, cfg: Config, now: int,
                                             norm: string, x: Id)
    ensures x in RunningIn(RefreshAll(s, ids, issues, cfg, now).0, norm)
            <==> x in s.running && (if x in ids then RunsOn(issues, x, cfg, norm) else x in RunningIn(s, norm))
    decreases |ids|
  {
    if ids != [] {
      RefreshOneRunning(s, ids[0], issues, cfg, now, norm);
      RefreshAllRunning(RefreshOne(s, ids[0], issues, cfg, now).0, ids[1..], issues, cfg, now, norm, x);
      assert x in ids <==> x == ids[0] || x in ids[1..];
    }
  }

  /** A refresh changes who runs in a state by exactly the issues it moves out and the issues it relabels. */
  lemma RefreshMovesExactly(s: State, requested: seq<Id>, issues: seq<Issue>, cfg: Config, now: int, norm: string)
    ensures RunningIn(Reduce(s, EvTrackerRefreshed(requested, issues), cfg, now).0, norm)
            == RunningIn(s, norm) - Departs(s, requested, issues, cfg, norm) + Relabels(s, requested, issues, cfg, norm)
  {
    forall x
      ensures x in RunningIn(RefreshAll(s, SortIds(requested), issues, cfg, now).0, norm)
              <==> x in s.running && (if x in requested then RunsOn(issues, x, cfg, norm) else x in RunningIn(s, norm))
    {
      RefreshAllRunning(s, SortIds(requested), issues, cfg, now, norm, x);
      SortIdsElements(requested, x);
    }
  }

  lemma SplitSize(a: set<Id>, out: set<Id>, into: set<Id>)
    requires out <= a && into !! a
    ensures |a - out + into| == |a| - |out| + |into|
  {
    assert (a - out) !! into;
    UnionSize(a - out, into);
    UnionSize(a - out, out);
    assert a - out + out == a;
  }

  /** A refresh takes a state above its cap if and only if it relabels more issues into it than it takes
      out of it and the room below the cap can hold. */
  lemma RefreshExceeds(s: State, requested: seq<Id>, issues: seq<Issue>, cfg: Config, now: int, norm: string)
    ensures var s' := Reduce(s, EvTrackerRefreshed(requested, issues), cfg, now).0;
            |RunningIn(s', norm)| > Max(|RunningIn(s, norm)|, CapacityOf(norm, cfg))
            <==> |Relabels(s, requested, issues, cfg, norm)|
                 > |Departs(s, requested, issues, cfg, norm)| + Max(0, CapacityOf(norm, cfg) - |RunningIn(s, norm)|)
  {
    RefreshMovesExactly(s, requested, issues, cfg, now, norm);
    SplitSize(RunningIn(s, norm), Departs(s, requested, issues, cfg, norm), Relabels(s, requested, issues, cfg, norm));
  }

  // ---- one input ------------------------------------------------------------

  /** Effects that call nothing outside: kills, workspace removals and timers. */
  lemma {:induction false} QuietEffects(w: World, sh: Shell, effs: seq<Effect>, rank: nat)
    requires Below(effs, 1) && rank >= 1
    ensures Below(effs, rank)
    ensures var sh' := ExecAll(w, sh, effs, rank); sh'.cur == sh.cur && sh'.cfg == sh.cfg && sh'.trace == sh.trace
    decreases |effs|
  {
    if effs != [] {
      QuietEffects(w, Exec(w, sh, effs[0]), effs[1..], rank);
    }
  }

  lemma {:induction false} ExecAllAppend(w: World, sh: Shell, a: seq<Effect>, b: seq<Effect>, rank: nat)
    requires Below(a, rank) && Below(b, rank)
    ensures Below(a + b, rank) && ExecAll(w, sh, a + b, rank) == ExecAll(w, ExecAll(w, sh, a, rank), b, rank)
    decreases |a|
  {
    if a == [] {
      assert a + b == b;
    } else {
      assert (a + b)[1..] == a[1..] + b;
      ExecAllAppend(w, Exec(w, sh, a[0]), a[1..], b, rank);
    }
  }

  lemma {:induction false} StallKeepsEntries(s: State, ids: seq<Id>, cfg: Config, now: int, id: Id)
    requires id in StallAll(s, ids, cfg, now).0.running
    ensures id in s.running && s.running[id] == StallAll(s, ids, cfg, now).0.running[id]
    decreases |ids|
  {
    if ids != [] {
      StallKeepsEntries(StallOne(s, ids[0], cfg, now).0, ids[1..], cfg, now, id);
    }
  }

  lemma StallShrinks(s: State, cfg: Config, now: int, norm: string)
    ensures RunningIn(ReduceStall(s, cfg, now).0, norm) <= RunningIn(s, norm)
  {
    forall id | id in RunningIn(ReduceStall(s, cfg, now).0, norm) ensures id in RunningIn(s, norm) {
      if cfg.stallTimeoutMs > 0 {
        StallKeepsEntries(s, Order.Sorted(s.running.Keys), cfg, now, id);
      }
    }
  }

  /** The issues that a refresh call relabels into a state, given what the tracker answers. */
  function CallRelabels(w: World, sh: Shell, ids: seq<Id>, norm: string): set<Id> {
    if w.deps.refresher && w.deps.workspace && w.refresh(|sh.trace|, ids).Ok?
    then Relabels(sh.cur, ids, w.refresh(|sh.trace|, ids).value, sh.cfg, norm) else {}
  }

  lemma RefreshCallFits(w: World, sh: Shell, ids: seq<Id>, norm: string)
    ensures var sh' := Exec(w, sh, EffRefreshTracker(ids));
            sh'.cfg == sh.cfg
            && |RunningIn(sh'.cur, norm)| <= |RunningIn(sh.cur, norm)| + |CallRelabels(w, sh, ids, norm)|
  {
    if w.deps.refresher && w.deps.workspace && w.refresh(|sh.trace|, ids).Ok? {
      var issues := w.refresh(|sh.trace|, ids).value;
      var ev := EvTrackerRefreshed(ids, issues);
      var now := w.now(|sh.trace|);
      StepUnfolds(w, sh, ev);
      QuietEffects(w, Folded(sh, ev, Reduce(sh.cur, ev, sh.cfg, now).0), Reduce(sh.cur, ev, sh.cfg, now).1, 1);
      RefreshMovesExactly(sh.cur, ids, issues, sh.cfg, now, norm);
      SplitSize(RunningIn(sh.cur, norm), Departs(sh.cur, ids, issues, sh.cfg, norm),
                Relabels(sh.cur, ids, issues, sh.cfg, norm));
    }
  }

  /** The shell at the moment a tick has dealt with the stalled workers. */
  function AfterStall(w: World, sh: Shell, reload: Option<Config>): Shell {
    var shr := Reloaded(sh, reload);
    var (next, effs) := ReduceStall(shr.cur, shr.cfg, w.now(|shr.trace|));
    StallBelow(shr.cur, Order.Sorted(shr.cur.running.Keys), shr.cfg, w.now(|shr.trace|));
    ExecAll(w, Folded(shr, EvTick(reload.Some?), next), effs, 7)
  }

  function AfterRefresh(w: World, sh: Shell): Shell {
    if sh.cur.running != map[] then Exec(w, sh, EffRefreshTracker(Order.Sorted(sh.cur.running.Keys))) else sh
  }

  /** A tick: stalled workers first, then the refresh, then a dispatch pass if the workflow is valid. */
  lemma TickUnfolds(w: World, sh: Shell, reload: Option<Config>)
    ensures var sh2 := AfterRefresh(w, AfterStall(w, sh, reload));
            Handle(w, sh, Tick(reload)) == if reload.Some? then Exec(w, sh2, EffFetchCandidates) else sh2
  {
    var shr := Reloaded(sh, reload);
    var ev := EvTick(reload.Some?);
    var now := w.now(|shr.trace|);
    var (next, effs) := ReduceStall(shr.cur, shr.cfg, now);
    StallBelow(shr.cur, Order.Sorted(shr.cur.running.Keys), shr.cfg, now);
    var folded := Folded(shr, ev, next);
    var refresh := if next.running != map[] then [EffRefreshTracker(Order.Sorted(next.running.Keys))] else [];
    var fetch := if reload.Some? then [EffFetchCandidates] else [];
    StepUnfolds(w, shr, ev);
    QuietEffects(w, folded, effs, 7);
    ExecAllAppend(w, folded, effs, refresh, 7);
    ExecAllAppend(w, folded, effs + refresh, fetch, 7);
    ExecOne(w, ExecAll(w, folded, effs, 7), EffRefreshTracker(Order.Sorted(next.running.Keys)), 7);
    ExecOne(w, ExecAll(w, folded, effs + refresh, 7), EffFetchCandidates, 7);
  }

  /** The issues that the refresh of a tick relabels into a state. */
  function TickRelabels(w: World, sh: Shell, reload: Option<Config>, norm: string): set<Id> {
    var sh1 := AfterStall(w, sh, reload);
    CallRelabels(w, sh1, Order.Sorted(sh1.cur.running.Keys), norm)
  }

  function InputRelabels(w: World, sh: Shell, input: Input, norm: string): set<Id> {
    if input.Tick? then TickRelabels(w, sh, input.reload, norm) else {}
  }

  /** The configuration in force while an input is handled. */
  function ConfigFor(sh: Shell, input: Input): Config {
    match input
    case Tick(reload) => Reloaded(sh, reload).cfg
    case RetryFire(k, reload) => if reload.Some? then reload.value else sh.cfg
    case WorkerDone(_, _, reload) => Reloaded(sh, reload).cfg
    case _ => sh.cfg
  }

  lemma AfterStallIs(w: World, sh: Shell, reload: Option<Config>, norm: string)
    ensures var sh1 := AfterStall(w, sh, reload);
            sh1.cfg == Reloaded(sh, reload).cfg && |RunningIn(sh1.cur, norm)| <= |RunningIn(sh.cur, norm)|
  {
    var shr := Reloaded(sh, reload);
    var now := w.now(|shr.trace|);
    var (next, effs) := ReduceStall(shr.cur, shr.cfg, now);
    StallBelow(shr.cur, Order.Sorted(shr.cur.running.Keys), shr.cfg, now);
    QuietEffects(w, Folded(shr, EvTick(reload.Some?), next), effs, 7);
    StallShrinks(shr.cur, shr.cfg, now, norm);
    SubsetSize(RunningIn(next, norm), RunningIn(sh.cur, norm));
  }

  lemma TickFits(w: World, sh: Shell, reload: Option<Config>, norm: string)
    ensures |RunningIn(Handle(w, sh, Tick(reload)).cur, norm)|
            <= Max(|RunningIn(sh.cur, norm)| + |TickRelabels(w, sh, reload, norm)|,
                   CapacityOf(norm, Reloaded(sh, reload).cfg))
  {
    TickUnfolds(w, sh, reload);
    AfterStallIs(w, sh, reload, norm);
    var sh1 := AfterStall(w, sh, reload);
    RefreshCallFits(w, sh1, Order.Sorted(sh1.cur.running.Keys), norm);
    FreshDispatchFits(w, AfterRefresh(w, sh1), norm);
  }

  lemma ExitShrinks(s: State, exit: Exit, cfg: Config, now: int, norm: string)
    ensures RunningIn(ReduceWorkerExit(s, exit, cfg, now).0, norm) <= RunningIn(s, norm)
  {
  }

  lemma ExitFits(w: World, sh: Shell, exit: Exit, norm: string)
    ensures |RunningIn(Step(w, sh, EvWorkerExit(exit)).cur, norm)| <= |RunningIn(sh.cur, norm)|
  {
    var ev := EvWorkerExit(exit);
    var now := w.now(|sh.trace|);
    ExitShrinks(sh.cur, exit, sh.cfg, now, norm);
    SubsetSize(RunningIn(ReduceWorkerExit(sh.cur, exit, sh.cfg, now).0, norm), RunningIn(sh.cur, norm));
    StepUnfolds(w, sh, ev);
    ExitBelow(sh.cur, exit, sh.cfg, now);
    QuietEffects(w, Folded(sh, ev, Reduce(sh.cur, ev, sh.cfg, now).0), Reduce(sh.cur, ev, sh.cfg, now).1, 1);
  }

  /** The same issues run, under the same tracker states. */
  predicate SameIssues(s: State, s': State) {
    s'.running.Keys == s.running.Keys && forall id | id in s.running :: s'.running[id].issue == s.running[id].issue
  }

  lemma UpdateSameIssues(s: State, a: Activity)
    ensures SameIssues(s, UpdateActivity(s, a))
  {
  }

  lemma TotalsSameIssues(s: State, id: Id, acc: Accumulator)
    requires id in s.running
    ensures SameIssues(s, Rerun(s, id, s.running[id].(totals := acc.totals)).(usage := s.usage[id := acc]))
  {
  }

  lemma UsageSameIssues(s: State, id: Id, u: Usage)
    ensures SameIssues(s, RecordUsage(s, id, u))
  {
    if id in s.running {
      TotalsSameIssues(s, id, Observe(UsageOf(s, id), u));
    }
  }

  lemma RateLimitSameIssues(s: State, id: Id, limit: int)
    ensures SameIssues(s, RecordRateLimit(s, id, limit))
  {
  }

  lemma RuntimeSameIssues(s: State, id: Id, d: int)
    ensures SameIssues(s, AddRuntime(s, id, d))
  {
  }

  lemma TurnsSameIssues(s: State, id: Id)
    ensures SameIssues(s, IncrementTurns(s, id))
  {
  }

  lemma SameIssuesCompose(s: State, s1: State, s2: State)
    requires SameIssues(s, s1) && SameIssues(s1, s2)
    ensures SameIssues(s, s2)
  {
  }

  lemma ActivitySameIssues(s: State, a: Activity) returns (next: State)
    ensures next == ReduceCodexActivity(s, a) && SameIssues(s, next)
  {
    UpdateSameIssues(s, a);
    next := UpdateActivity(s, a);
    if a.usage.Some? {
      UsageSameIssues(next, a.id, a.usage.value);
      SameIssuesCompose(s, next, RecordUsage(next, a.id, a.usage.value));
      next := RecordUsage(next, a.id, a.usage.value);
    }
    if a.rateLimit.Some? {
      RateLimitSameIssues(next, a.id, a.rateLimit.value);
      SameIssuesCompose(s, next, RecordRateLimit(next, a.id, a.rateLimit.value));
      next := RecordRateLimit(next, a.id, a.rateLimit.value);
    }
    if a.turnDuration.Some? {
      RuntimeSameIssues(next, a.id, a.turnDuration.value);
      SameIssuesCompose(s, next, AddRuntime(next, a.id, a.turnDuration.value));
      next := AddRuntime(next, a.id, a.turnDuration.value);
    }
    if a.turnCompleted {
      TurnsSameIssues(next, a.id);
      SameIssuesCompose(s, next, IncrementTurns(next, a.id));
      next := IncrementTurns(next, a.id);
    }
  }

  lemma NotifiedFits(w: World, sh: Shell, a: Activity, norm: string)
    ensures RunningIn(Handle(w, sh, Notified(a)).cur, norm) == RunningIn(sh.cur, norm)
  {
    var _ := ActivitySameIssues(sh.cur, a);
    StepUnfolds(w, sh, EvCodexActivity(a));
  }

  /** One input adds to a state at most the issues its refresh relabels, or fills it up to its cap. */
  lemma HandleFits(w: World, sh: Shell, input: Input, norm: string)
    ensures |RunningIn(Handle(w, sh, input).cur, norm)|
            <= Max(|RunningIn(sh.cur, norm)| + |InputRelabels(w, sh, input, norm)|,
                   CapacityOf(norm, ConfigFor(sh, input)))
  {
    match input
    case Tick(reload) => TickFits(w, sh, reload, norm);
    case TimerElapses(_) =>
    case RetryFire(k, reload) =>
      if k < |sh.fires| && reload.Some? {
        RetryDispatchFits(w, sh, k, reload.value, norm);
      } else {
        assert RunningIn(Handle(w, sh, input).cur, norm) == RunningIn(sh.cur, norm);
      }
    case WorkerDone(exit, from, reload) => ExitFits(w, Reloaded(Exited(sh, exit, from), reload), exit, norm);
    case Notified(a) => NotifiedFits(w, sh, a, norm);
  }

  // ---- whole runs -----------------------------------------------------------

  /** How many issues a run may have in a state: the caps in force, lifted by the relabels so far. */
  function Budget(w: World, cfg: Config, inputs: seq<Input>, norm: string): nat {
    if inputs == [] then 0 else
    var front := inputs[..|inputs| - 1];
    var sh := Run(w, Start(cfg), front);
    var input := inputs[|inputs| - 1];
    Max(Budget(w, cfg, front, norm) + |InputRelabels(w, sh, input, norm)|, CapacityOf(norm, ConfigFor(sh, input)))
  }

  /** Over every run, the running issues of a state exceed its cap only by relabels of the tracker. */
  lemma {:induction false} RunStateCapped(w: World, cfg: Config, inputs: seq<Input>, norm: string)
    ensures |RunningIn(Run(w, Start(cfg), inputs).cur, norm)| <= Budget(w, cfg, inputs, norm)
    decreases |inputs|
  {
    if inputs != [] {
      var front := inputs[..|inputs| - 1];
      RunStateCapped(w, cfg, front, norm);
      HandleFits(w, Run(w, Start(cfg), front), inputs[|inputs| - 1], norm);
    }
  }

  /** No input so far relabels into the state, and its cap was never above the given one. */
  predicate SteadyUnder(w: World, cfg: Config, inputs: seq<Input>, norm: string, cap: nat) {
    inputs == [] ||
    var front := inputs[..|inputs| - 1];
    var sh := Run(w, Start(cfg), front);
    && SteadyUnder(w, cfg, front, norm, cap)
    && InputRelabels(w, sh, inputs[|inputs| - 1], norm) == {}
    && CapacityOf(norm, ConfigFor(sh, inputs[|inputs| - 1])) <= cap
  }

  /** Without relabels a state never has more running issues than its highest cap. */
  lemma {:induction false} SteadyRunCapped(w: World, cfg: Config, inputs: seq<Input>, norm: string, cap: nat)
    requires SteadyUnder(w, cfg, inputs, norm, cap)
    ensures |RunningIn(Run(w, Start(cfg), inputs).cur, norm)| <= cap
    decreases |inputs|
  {
    if inputs != [] {
      var front := inputs[..|inputs| - 1];
      SteadyRunCapped(w, cfg, front, norm, cap);
      HandleFits(w, Run(w, Start(cfg), front), inputs[|inputs| - 1], norm);
    }
  }
}
