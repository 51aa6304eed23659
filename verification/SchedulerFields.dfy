/** The dispatch pass in terms of the fields of issues and configuration only: which issues are taken, in which order,
    and why any other is not. None of the reducer's own helpers appears in these statements. */
module SchedulerFields {
  import opened SchedulerTypes
  import opened SchedulerReduce
  import opened SchedulerDispatch
  import F = SchedulerFolds
  import Order

  // ---- state names ----------------------------------------------------------

  predicate SameChar(a: char, b: char) {
    || a == b
    || ('A' <= a <= 'Z' && b as int == a as int + 32)
    || ('A' <= b <= 'Z' && a as int == b as int + 32)
  }

  /** The same name, whatever the case of its ASCII letters. */
  predicate SameState(a: string, b: string) { |a| == |b| && forall i | 0 <= i < |a| :: SameChar(a[i], b[i]) }

  lemma LowerChars(a: char, b: char)
    ensures LowerChar(a) == LowerChar(b) <==> SameChar(a, b)
  {
  }

  /** Lower-casing gives the same name without capitals, and one result for each name. */
  lemma LowerIs(a: string, b: string)
    ensures SameState(Lower(a), a) && (forall i | 0 <= i < |a| :: !('A' <= Lower(a)[i] <= 'Z'))
    ensures Lower(a) == Lower(b) <==> SameState(a, b)
  {
    forall i | 0 <= i < |a| && i < |b| ensures Lower(a)[i] == Lower(b)[i] <==> SameChar(a[i], b[i]) {
      LowerChars(a[i], b[i]);
    }
    if Lower(a) == Lower(b) {
      assert |Lower(a)| == |a| && |Lower(b)| == |b|;
      assert forall i | 0 <= i < |a| :: Lower(a)[i] == Lower(b)[i];
    }
  }

  predicate Listed(state: string, states: seq<string>) {
    exists i :: 0 <= i < |states| && SameState(states[i], state)
  }

  lemma ListedIs(state: string, states: seq<string>)
    ensures Listed(state, states) <==> Lower(state) in NormSet(states)
  {
    forall i | 0 <= i < |states| ensures SameState(states[i], state) <==> Lower(states[i]) == Lower(state) {
      LowerIs(states[i], state);
    }
  }

  /** The tracker has it in a state the workflow works on. */
  predicate Workable(state: string, cfg: Config) { Listed(state, cfg.active) && !Listed(state, cfg.terminal) }

  lemma WorkableIs(state: string, cfg: Config)
    ensures Workable(state, cfg) <==> Dispatchable(state, cfg)
  {
    ListedIs(state, cfg.active);
    ListedIs(state, cfg.terminal);
  }

  // ---- slots ----------------------------------------------------------------

  /** Running and waiting issues, each counted once. */
  function Busy(s: State): nat { |s.running.Keys + s.retries.Keys| }

  function BusyIn(s: State, state: string): nat {
    |set id | id in s.running && SameState(s.running[id].issue.state, state)|
  }

  /** The cap written for the state's lower-case name, else the global one. */
  function StateCap(state: string, cfg: Config): int {
    if Lower(state) in cfg.byState then cfg.byState[Lower(state)] else cfg.maxAgents
  }

  function Among(ws: seq<Issue>, state: string): nat {
    if ws == [] then 0 else Among(ws[..|ws| - 1], state) + if SameState(ws[|ws| - 1].state, state) then 1 else 0
  }

  lemma BusyIs(s: State)
    ensures Busy(s) == GlobalUsed(s)
  {
    assert s.running.Keys + s.retries.Keys == s.running.Keys + Queued(s);
    assert |s.running.Keys + Queued(s)| == |s.running.Keys| + |Queued(s)|;
  }

  lemma BusyInIs(s: State, state: string)
    ensures BusyIn(s, state) == |RunningIn(s, Lower(state))|
  {
    var here := set id | id in s.running && SameState(s.running[id].issue.state, state);
    forall id | id in s.running ensures id in here <==> id in RunningIn(s, Lower(state)) {
      LowerIs(s.running[id].issue.state, state);
    }
    assert here == RunningIn(s, Lower(state));
  }

  lemma StateCapIs(state: string, cfg: Config)
    ensures StateCap(state, cfg) == CapacityOf(Lower(state), cfg)
  {
  }

  lemma {:induction false} CountInSnoc(ws: seq<Issue>, x: Issue, norm: string)
    ensures CountIn(ws + [x], norm) == CountIn(ws, norm) + if Lower(x.state) == norm then 1 else 0
    decreases |ws|
  {
    if ws == [] {
      assert ws + [x] == [x] && [x][1..] == [];
    } else {
      assert (ws + [x])[0] == ws[0] && (ws + [x])[1..] == ws[1..] + [x];
      CountInSnoc(ws[1..], x, norm);
    }
  }

  lemma {:induction false} AmongIs(ws: seq<Issue>, state: string)
    ensures Among(ws, state) == CountIn(ws, Lower(state))
  {
    if ws != [] {
      var n := |ws| - 1;
      assert ws == ws[..n] + [ws[n]];
      AmongIs(ws[..n], state);
      CountInSnoc(ws[..n], ws[n], Lower(state));
      LowerIs(ws[n].state, state);
    }
  }

  // ---- eligibility ----------------------------------------------------------

  /** Named and titled, workable, not tracked yet, and not a todo that waits for an unfinished blocker. */
  predicate Fit(x: Issue, s: State, cfg: Config) {
    && x.id != "" && x.identifier != "" && x.title != "" && x.state != ""
    && Workable(x.state, cfg)
    && x.id !in s.running.Keys + s.claimed + s.retries.Keys
    && (SameState(x.state, "todo") ==> forall i | 0 <= i < |x.blockedBy| :: Listed(x.blockedBy[i].state, cfg.terminal))
  }

  lemma FitIs(x: Issue, s: State, cfg: Config)
    ensures Fit(x, s, cfg) <==> Eligible(x, s, cfg)
  {
    WorkableIs(x.state, cfg);
    LowerIs(x.state, "todo");
    assert Lower("todo") == "todo";
    forall i | 0 <= i < |x.blockedBy|
      ensures Listed(x.blockedBy[i].state, cfg.terminal) <==> Lower(x.blockedBy[i].state) in NormSet(cfg.terminal)
    {
      ListedIs(x.blockedBy[i].state, cfg.terminal);
    }
  }

  // ---- the order ------------------------------------------------------------

  /** A given priority before none, the smaller number first; then the older; then by identifier. */
  predicate Ranks(a: Issue, b: Issue) {
    && (b.priority.Some? ==> a.priority.Some? && a.priority.value <= b.priority.value)
    && (a.priority == b.priority ==> a.createdAt <= b.createdAt)
    && (a.priority == b.priority && a.createdAt == b.createdAt ==> Order.Precedes(a.identifier, b.identifier))
  }

  predicate SameRank(a: Issue, b: Issue) {
    a.priority == b.priority && a.createdAt == b.createdAt && a.identifier == b.identifier
  }

  lemma RanksIs(a: Issue, b: Issue)
    ensures Ranks(a, b) <==> NotAfter(a, b)
    ensures SameRank(a, b) <==> !Before(a, b) && !Before(b, a)
  {
    Order.StrLeIs(a.identifier, b.identifier);
    Order.StrLeTotal(a.identifier, b.identifier);
    if Order.StrLe(a.identifier, b.identifier) && Order.StrLe(b.identifier, a.identifier) {
      Order.StrLeAntisymmetric(a.identifier, b.identifier);
    }
  }

  /** The issues of the same rank as `x`, in the order they appear. */
  function Alike(xs: seq<Issue>, x: Issue): seq<Issue> {
    if xs == [] then [] else Alike(xs[..|xs| - 1], x) + if SameRank(xs[|xs| - 1], x) then [xs[|xs| - 1]] else []
  }

  lemma {:induction false} AlikeIs(xs: seq<Issue>, x: Issue)
    ensures Alike(xs, x) == Ties(xs, x)
  {
    if xs != [] {
      AlikeIs(xs[..|xs| - 1], x);
      RanksIs(xs[|xs| - 1], x);
    }
  }

  /** The dispatch order on the fields: sorted by rank, a permutation, and stable within a rank. */
  lemma SortedByRank(xs: seq<Issue>)
    ensures forall i, j | 0 <= i < j < |SortCandidates(xs)| :: Ranks(SortCandidates(xs)[i], SortCandidates(xs)[j])
    ensures multiset(SortCandidates(xs)) == multiset(xs)
    ensures forall x :: Alike(SortCandidates(xs), x) == Alike(xs, x)
  {
    var out := SortCandidates(xs);
    SortCandidatesCorrect(xs);
    forall i, j | 0 <= i < j < |out| ensures Ranks(out[i], out[j]) {
      RanksIs(out[i], out[j]);
    }
    forall x ensures Alike(out, x) == Alike(xs, x) {
      AlikeIs(out, x);
      AlikeIs(xs, x);
      assert Ties(out, x) == Ties(xs, x);
    }
  }

  // ---- the pass -------------------------------------------------------------

  /** An issue left out although its state has room: nobody behind it wins either. */
  lemma {:induction false} EndedBefore(s: State, xs: seq<Issue>, avail: int, used: map<string, int>, cfg: Config,
                                       i: nat)
    requires i < |xs| && xs[i].id !in Allocate(s, xs, avail, used, cfg).0.claimed && xs[i].id !in s.running
    requires var norm := Lower(xs[i].state);
             UsedIn(used, norm) + CountIn(Allocate(s, xs, avail, used, cfg).1, norm) < CapacityOf(norm, cfg)
    ensures forall j | i <= j < |xs| :: !Taken(s, xs, avail, used, cfg)[j]
    decreases xs
  {
    var norm := Lower(xs[i].state);
    if avail <= 0 {
      NoSlotsNoWinners(s, xs, avail, used, cfg);
    } else if Takes(s, xs[0], used, cfg) {
      var s1 := Claim(s, xs[0].id).value;
      var n0 := Lower(xs[0].state);
      var used1 := used[n0 := UsedIn(used, n0) + 1];
      ClaimedStays(s1, xs[1..], avail - 1, used1, cfg, xs[0].id);
      EndedBefore(s1, xs[1..], avail - 1, used1, cfg, i - 1);
      forall j | i <= j < |xs| ensures !Taken(s, xs, avail, used, cfg)[j] {
        assert xs[j] == xs[1..][j - 1];
      }
    } else if i > 0 {
      EndedBefore(s, xs[1..], avail, used, cfg, i - 1);
      forall j | i <= j < |xs| ensures !Taken(s, xs, avail, used, cfg)[j] {
        assert xs[j] == xs[1..][j - 1];
      }
    } else {
      ClaimedStays(s, xs[1..], avail, used, cfg, xs[0].id);
    }
  }

  lemma {:induction false} SelectFrom(xs: seq<Issue>, flags: seq<bool>, k: nat) returns (i: nat)
    requires |xs| == |flags| && k < |Select(xs, flags)|
    ensures i < |xs| && flags[i] && xs[i] == Select(xs, flags)[k]
    decreases |xs|
  {
    var head := if flags[0] then 1 else 0;
    if k < head {
      i := 0;
    } else {
      var j := SelectFrom(xs[1..], flags[1..], k - head);
      i := j + 1;
    }
  }

  lemma {:induction false} SelectOrdered(xs: seq<Issue>, flags: seq<bool>)
    requires |xs| == |flags| && InOrder(xs)
    ensures InOrder(Select(xs, flags))
    decreases |xs|
  {
    if xs != [] {
      SelectOrdered(xs[1..], flags[1..]);
      var rest := Select(xs[1..], flags[1..]);
      forall k | 0 <= k < |rest| ensures NotAfter(xs[0], rest[k]) {
        var i := SelectFrom(xs[1..], flags[1..], k);
      }
    }
  }

  /** The winners are fit, distinct and in rank order, and fit under the caps. */
  predicate Chosen(s: State, cands: seq<Issue>, cfg: Config, ws: seq<Issue>) {
    && (forall k | 0 <= k < |ws| :: ws[k] in cands && Fit(ws[k], s, cfg))
    && (forall j, k | 0 <= j < k < |ws| :: ws[j].id != ws[k].id && Ranks(ws[j], ws[k]))
    && (ws != [] ==> Busy(s) + |ws| <= cfg.maxAgents)
    && (forall k | 0 <= k < |ws| :: BusyIn(s, ws[k].state) + Among(ws, ws[k].state) <= StateCap(ws[k].state, cfg))
  }

  /** A fit issue goes without only when its state is full, all winners of that state ranking in front of it; or when
      no global slot is left and all winners rank in front of it. */
  predicate LeftOut(s: State, cfg: Config, ws: seq<Issue>, x: Issue) {
    if BusyIn(s, x.state) + Among(ws, x.state) >= StateCap(x.state, cfg)
    then forall k | 0 <= k < |ws| && SameState(ws[k].state, x.state) :: Ranks(ws[k], x)
    else Busy(s) + |ws| >= cfg.maxAgents && forall k | 0 <= k < |ws| :: Ranks(ws[k], x)
  }

  lemma ChosenWinners(s: State, cands: seq<Issue>, cfg: Config)
    ensures Chosen(s, cands, cfg, Winners(s, cands, cfg).1)
  {
    var q := Queue(s, cands, cfg);
    var ws := Winners(s, cands, cfg).1;
    var won := Taken(s, q, AvailableGlobalSlots(s, cfg), UsedByState(s), cfg);
    GreedyDispatch(s, cands, cfg);
    BusyIs(s);
    SelectOrdered(q, won);
    forall k | 0 <= k < |ws|
      ensures ws[k] in cands && Fit(ws[k], s, cfg)
      ensures BusyIn(s, ws[k].state) + Among(ws, ws[k].state) <= StateCap(ws[k].state, cfg)
    {
      var i := SelectFrom(q, won, k);
      FitIs(ws[k], s, cfg);
      CapFits(s, cfg, ws, k);
    }
    forall j, k | 0 <= j < k < |ws| ensures ws[j].id != ws[k].id && Ranks(ws[j], ws[k]) {
      RanksIs(ws[j], ws[k]);
      OneEach(ws, j, k);
    }
  }

  lemma CapFits(s: State, cfg: Config, ws: seq<Issue>, k: nat)
    requires k < |ws|
    requires var norm := Lower(ws[k].state);
             CountIn(ws, norm) == 0 || |RunningIn(s, norm)| + CountIn(ws, norm) <= CapacityOf(norm, cfg)
    ensures BusyIn(s, ws[k].state) + Among(ws, ws[k].state) <= StateCap(ws[k].state, cfg)
  {
    AmongIs(ws, ws[k].state);
    BusyInIs(s, ws[k].state);
    CountsOne(ws, k);
  }

  lemma {:induction false} CountsOne(ws: seq<Issue>, k: nat)
    requires k < |ws|
    ensures CountIn(ws, Lower(ws[k].state)) > 0
    decreases |ws|
  {
    if k > 0 {
      CountsOne(ws[1..], k - 1);
    }
  }

  lemma OneEach(ws: seq<Issue>, j: nat, k: nat)
    requires j < k < |ws| && |IdSet(ws)| == |ws|
    ensures ws[j].id != ws[k].id
  {
    if ws[j].id == ws[k].id {
      var front := ws[..k] + ws[k + 1..];
      forall id | id in IdSet(ws) ensures id in IdSet(front) {
        var i :| 0 <= i < |ws| && ws[i].id == id;
        var i' := if i == k then j else i;
        assert front[if i' < k then i' else i' - 1] == ws[i'];
      }
      IdSetSmall(front);
      F.SubsetSize(IdSet(ws), IdSet(front));
    }
  }

  lemma {:induction false} IdSetSmall(ws: seq<Issue>)
    ensures |IdSet(ws)| <= |ws|
  {
    if ws != [] {
      IdSetSmall(ws[1..]);
      IdSetCons(ws[0], ws[1..]);
      assert ws == [ws[0]] + ws[1..];
    }
  }

  lemma WinnersClaimed(s: State, cands: seq<Issue>, cfg: Config)
    ensures var (s', ws) := Winners(s, cands, cfg);
            s' == s.(claimed := s.claimed + (set k | 0 <= k < |ws| :: ws[k].id))
  {
    GreedyDispatch(s, cands, cfg);
    var ws := Winners(s, cands, cfg).1;
    assert IdSet(ws) == set k | 0 <= k < |ws| :: ws[k].id;
  }

  /** Why the i-th issue of the queue was passed over, and which places behind it are therefore lost. */
  predicate PassedAt(s: State, cfg: Config, ws: seq<Issue>, q: seq<Issue>, won: seq<bool>, i: nat)
    requires |won| == |q| && i < |q|
  {
    if |RunningIn(s, Lower(q[i].state))| + CountIn(ws, Lower(q[i].state)) >= CapacityOf(Lower(q[i].state), cfg)
    then forall j | i <= j < |q| && Lower(q[j].state) == Lower(q[i].state) :: !won[j]
    else |ws| == AvailableGlobalSlots(s, cfg) && forall j | i <= j < |q| :: !won[j]
  }

  lemma PassedAtIs(s: State, cands: seq<Issue>, cfg: Config, i: nat)
    requires i < |Queue(s, cands, cfg)|
    requires Queue(s, cands, cfg)[i].id !in Winners(s, cands, cfg).0.claimed
    ensures var won := Taken(s, Queue(s, cands, cfg), AvailableGlobalSlots(s, cfg), UsedByState(s), cfg);
            PassedAt(s, cfg, Winners(s, cands, cfg).1, Queue(s, cands, cfg), won, i)
  {
    var q := Queue(s, cands, cfg);
    GreedyDispatch(s, cands, cfg);
    UsedByStateCounts(s, Lower(q[i].state));
    assert q[i] in q;
    if |RunningIn(s, Lower(q[i].state))| + CountIn(Winners(s, cands, cfg).1, Lower(q[i].state))
       < CapacityOf(Lower(q[i].state), cfg) {
      EndedBefore(s, q, AvailableGlobalSlots(s, cfg), UsedByState(s), cfg, i);
    }
  }

  lemma FrontRanks(q: seq<Issue>, won: seq<bool>, i: nat, k: nat)
    requires |won| == |q| && InOrder(q) && i < |q| && k < |Select(q, won)|
    requires var w := Select(q, won)[k]; forall j | i <= j < |q| && SameState(q[j].state, w.state) :: !won[j]
    ensures Ranks(Select(q, won)[k], q[i])
  {
    var j := SelectFrom(q, won, k);
    assert j < i;
    RanksIs(q[j], q[i]);
  }

  lemma LeftOutIs(s: State, cands: seq<Issue>, cfg: Config, x: Issue)
    requires x in cands && Fit(x, s, cfg) && x.id !in Winners(s, cands, cfg).0.claimed
    ensures LeftOut(s, cfg, Winners(s, cands, cfg).1, x)
  {
    var q := Queue(s, cands, cfg);
    var ws := Winners(s, cands, cfg).1;
    var won := Taken(s, q, AvailableGlobalSlots(s, cfg), UsedByState(s), cfg);
    QueueIs(s, cands, cfg);
    FitIs(x, s, cfg);
    var i :| 0 <= i < |q| && q[i] == x;
    PassedAtIs(s, cands, cfg, i);
    AmongIs(ws, x.state);
    BusyInIs(s, x.state);
    BusyIs(s);
    forall k | 0 <= k < |ws| && (SameState(ws[k].state, x.state) || forall j | i <= j < |q| :: !won[j])
      ensures Ranks(ws[k], x)
    {
      forall j | i <= j < |q| && SameState(q[j].state, ws[k].state) ensures !won[j] {
        LowerIs(q[j].state, ws[k].state);
        LowerIs(ws[k].state, x.state);
      }
      FrontRanks(q, won, i, k);
    }
  }

  lemma QueueIs(s: State, cands: seq<Issue>, cfg: Config)
    ensures var q := Queue(s, cands, cfg);
            && InOrder(q) && (forall x :: x in q <==> x in cands && Eligible(x, s, cfg))
            && Winners(s, cands, cfg).1
               == Select(q, Taken(s, q, AvailableGlobalSlots(s, cfg), UsedByState(s), cfg))
  {
    GreedyDispatch(s, cands, cfg);
  }

  /** The whole pass, for any candidates. Exactly the winners are claimed and go to revalidation as a first attempt;
      they are chosen by their fields and the caps; and every fit issue left out is left out for a reason. */
  lemma DispatchByFields(s: State, cands: seq<Issue>, cfg: Config, now: int)
    ensures var (s', effs) := Reduce(s, EvCandidatesFetched(cands), cfg, now);
            exists ws: seq<Issue> ::
              && Chosen(s, cands, cfg, ws)
              && s' == s.(claimed := s.claimed + (set k | 0 <= k < |ws| :: ws[k].id))
              && |effs| == |ws| && (forall k | 0 <= k < |ws| :: effs[k] == EffRevalidate(ws[k], 0))
              && forall x | x in cands && Fit(x, s, cfg) && x.id !in s'.claimed :: LeftOut(s, cfg, ws, x)
  {
    var (s', ws) := Winners(s, cands, cfg);
    ChosenWinners(s, cands, cfg);
    WinnersClaimed(s, cands, cfg);
    forall x | x in cands && Fit(x, s, cfg) && x.id !in s'.claimed ensures LeftOut(s, cfg, ws, x) {
      LeftOutIs(s, cands, cfg, x);
    }
  }
}
