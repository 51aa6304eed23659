/** The greedy dispatch pass: its order, who wins, and why the others do not. */
module SchedulerDispatch {
  import opened SchedulerTypes
  import opened SchedulerReduce
  import Order

  // ---- the candidate order --------------------------------------------------

  /** `a` may stand in front of `b`. */
  predicate NotAfter(a: Issue, b: Issue) { !Before(b, a) }

  predicate InOrder(xs: seq<Issue>) {
    forall i, j | 0 <= i < j < |xs| :: NotAfter(xs[i], xs[j])
  }

  lemma NotAfterTransitive(a: Issue, b: Issue, c: Issue)
    requires NotAfter(a, b) && NotAfter(b, c)
    ensures NotAfter(a, c)
  {
    Order.StrLeTotal(a.identifier, b.identifier);
    Order.StrLeTotal(b.identifier, c.identifier);
    if Order.StrLe(a.identifier, b.identifier) && Order.StrLe(b.identifier, c.identifier) {
      Order.StrLeTransitive(a.identifier, b.identifier, c.identifier);
      if Order.StrLe(c.identifier, a.identifier) {
        Order.StrLeAntisymmetric(a.identifier, c.identifier);
      }
    }
  }

  lemma BeforeAsymmetric(a: Issue, b: Issue)
    requires Before(a, b)
    ensures !Before(b, a)
  {
    if Order.StrLe(a.identifier, b.identifier) && Order.StrLe(b.identifier, a.identifier) {
      Order.StrLeAntisymmetric(a.identifier, b.identifier);
    }
  }

  /** The issues that compare equal to `x`, in the order they appear. */
  function Ties(xs: seq<Issue>, x: Issue): seq<Issue> {
    if xs == [] then []
    else Ties(xs[..|xs| - 1], x) + (if !Before(xs[|xs| - 1], x) && !Before(x, xs[|xs| - 1]) then [xs[|xs| - 1]] else [])
  }

  lemma {:induction false} InsertLastPermutes(x: Issue, xs: seq<Issue>)
    ensures multiset(InsertLast(x, xs)) == multiset(xs) + multiset{x}
  {
    if xs != [] {
      var n := |xs| - 1;
      assert xs == xs[..n] + [xs[n]];
      if Before(x, xs[n]) {
        InsertLastPermutes(x, xs[..n]);
      }
    }
  }

  lemma InOrderSnoc(xs: seq<Issue>, z: Issue)
    requires InOrder(xs) && forall i | 0 <= i < |xs| :: NotAfter(xs[i], z)
    ensures InOrder(xs + [z])
  {
  }

  lemma {:induction false} InsertLastSorts(x: Issue, xs: seq<Issue>)
    requires InOrder(xs)
    ensures InOrder(InsertLast(x, xs))
  {
    if xs != [] {
      var n := |xs| - 1;
      var z := xs[n];
      if Before(x, z) {
        var front := InsertLast(x, xs[..n]);
        InsertLastSorts(x, xs[..n]);
        InsertLastPermutes(x, xs[..n]);
        BeforeAsymmetric(x, z);
        forall i | 0 <= i < |front| ensures NotAfter(front[i], z) {
          assert front[i] in multiset(front);
          assert front[i] in xs[..n] || front[i] == x;
        }
        InOrderSnoc(front, z);
      } else {
        forall i | 0 <= i < |xs| ensures NotAfter(xs[i], x) {
          if i < n {
            NotAfterTransitive(xs[i], z, x);
          }
        }
        InOrderSnoc(xs, x);
      }
    }
  }

  lemma TiesSnoc(xs: seq<Issue>, z: Issue, y: Issue)
    ensures Ties(xs + [z], y) == Ties(xs, y) + (if !Before(z, y) && !Before(y, z) then [z] else [])
  {
    assert (xs + [z])[..|xs|] == xs;
  }

  lemma {:induction false} InsertLastStable(x: Issue, xs: seq<Issue>, y: Issue)
    ensures Ties(InsertLast(x, xs), y) == Ties(xs + [x], y)
  {
    TiesSnoc(xs, x, y);
    if xs == [] {
      assert xs + [x] == [x];
    } else {
      var n := |xs| - 1;
      var z := xs[n];
      assert xs == xs[..n] + [z];
      if Before(x, z) {
        InsertLastStable(x, xs[..n], y);
        TiesSnoc(InsertLast(x, xs[..n]), z, y);
        TiesSnoc(xs[..n], x, y);
        TiesSnoc(xs[..n], z, y);
        if !Before(x, y) && !Before(y, x) && !Before(z, y) && !Before(y, z) {
          NotAfterTransitive(z, y, x);
        }
      }
    }
  }

  /** The dispatch order is a sorted permutation that keeps ties as they came. */
  lemma {:induction false} SortCandidatesCorrect(xs: seq<Issue>)
    ensures InOrder(SortCandidates(xs))
    ensures multiset(SortCandidates(xs)) == multiset(xs)
    ensures forall y :: Ties(SortCandidates(xs), y) == Ties(xs, y)
  {
    if xs != [] {
      var n := |xs| - 1;
      assert xs == xs[..n] + [xs[n]];
      SortCandidatesCorrect(xs[..n]);
      var sorted := SortCandidates(xs[..n]);
      InsertLastSorts(xs[n], sorted);
      InsertLastPermutes(xs[n], sorted);
      forall y ensures Ties(SortCandidates(xs), y) == Ties(xs, y) {
        InsertLastStable(xs[n], sorted, y);
        TiesSnoc(sorted, xs[n], y);
        TiesSnoc(xs[..n], xs[n], y);
      }
    }
  }

  /** The eligible issues in dispatch order. */
  function Queue(s: State, cands: seq<Issue>, cfg: Config): seq<Issue> {
    SortCandidates(FilterEligible(cands, s, cfg))
  }

  lemma {:induction false} FilterEligibleIs(cands: seq<Issue>, s: State, cfg: Config, x: Issue)
    ensures x in FilterEligible(cands, s, cfg) <==> x in cands && Eligible(x, s, cfg)
    decreases |cands|
  {
    if cands != [] {
      FilterEligibleIs(cands[1..], s, cfg, x);
      assert x in cands <==> x == cands[0] || x in cands[1..];
    }
  }

  lemma QueueEligible(s: State, cands: seq<Issue>, cfg: Config)
    ensures forall x :: x in Queue(s, cands, cfg) <==> x in cands && Eligible(x, s, cfg)
  {
    var elig := FilterEligible(cands, s, cfg);
    SortCandidatesCorrect(elig);
    forall x ensures x in Queue(s, cands, cfg) <==> x in cands && Eligible(x, s, cfg) {
      FilterEligibleIs(cands, s, cfg, x);
      assert x in multiset(SortCandidates(elig)) <==> x in multiset(elig);
    }
  }

  // ---- the allocation -------------------------------------------------------

  function IdSet(ws: seq<Issue>): set<Id> {
    set i | 0 <= i < |ws| :: ws[i].id
  }

  function CountIn(ws: seq<Issue>, norm: string): nat {
    if ws == [] then 0 else (if Lower(ws[0].state) == norm then 1 else 0) + CountIn(ws[1..], norm)
  }

  /** Which positions of the queue win. */
  function Taken(s: State, xs: seq<Issue>, avail: int, used: map<string, int>, cfg: Config): (r: seq<bool>)
    ensures |r| == |xs|
    decreases xs
  {
    if xs == [] then []
    else if avail <= 0 then [false] + Taken(s, xs[1..], avail, used, cfg)
    else if Takes(s, xs[0], used, cfg) then
      [true] + Taken(Claim(s, xs[0].id).value, xs[1..], avail - 1,
                     used[Lower(xs[0].state) := UsedIn(used, Lower(xs[0].state)) + 1], cfg)
    else [false] + Taken(s, xs[1..], avail, used, cfg)
  }

  function Select(xs: seq<Issue>, flags: seq<bool>): seq<Issue>
    requires |xs| == |flags|
  {
    if xs == [] then [] else (if flags[0] then [xs[0]] else []) + Select(xs[1..], flags[1..])
  }

  lemma IdSetCons(x: Issue, ws: seq<Issue>)
    ensures IdSet([x] + ws) == {x.id} + IdSet(ws)
    ensures x.id !in IdSet(ws) && |IdSet(ws)| == |ws| ==> |IdSet([x] + ws)| == |[x] + ws|
  {
    var all := [x] + ws;
    forall id | id in {x.id} + IdSet(ws) ensures id in IdSet(all) {
      if id == x.id {
        assert all[0].id == id;
      } else {
        var i :| 0 <= i < |ws| && ws[i].id == id;
        assert all[i + 1].id == id;
      }
    }
  }

  lemma ClaimUnqueued(s: State, id: Id)
    requires id !in s.retries && id !in s.claimed && id !in s.running
    ensures Claim(s, id) == Some(s.(claimed := s.claimed + {id}))
  {
    assert s.retries - {id} == s.retries;
  }

  /** The step from `s` to `s'` claims the winners `ws` and touches nothing else; an ID wins at most once. */
  predicate ClaimsExactly(s: State, s': State, ws: seq<Issue>) {
    && s' == s.(claimed := s.claimed + IdSet(ws))
    && IdSet(ws) !! s.claimed && IdSet(ws) !! s.running.Keys
    && |IdSet(ws)| == |ws|
  }

  lemma ClaimsCons(s: State, x: Issue, s': State, ws: seq<Issue>)
    requires x.id !in s.claimed && x.id !in s.running
    requires ClaimsExactly(s.(claimed := s.claimed + {x.id}), s', ws)
    ensures ClaimsExactly(s, s', [x] + ws)
  {
    IdSetCons(x, ws);
    assert s.claimed + {x.id} + IdSet(ws) == s.claimed + IdSet([x] + ws);
  }

  lemma {:induction false} AllocateClaims(s: State, xs: seq<Issue>, avail: int, used: map<string, int>, cfg: Config)
    requires forall x | x in xs :: x.id !in s.retries
    ensures ClaimsExactly(s, Allocate(s, xs, avail, used, cfg).0, Allocate(s, xs, avail, used, cfg).1)
    decreases xs
  {
    if xs == [] || avail <= 0 {
      assert s.claimed + IdSet([]) == s.claimed;
    } else if Takes(s, xs[0], used, cfg) {
      ClaimUnqueued(s, xs[0].id);
      var s1 := s.(claimed := s.claimed + {xs[0].id});
      var used1 := used[Lower(xs[0].state) := UsedIn(used, Lower(xs[0].state)) + 1];
      AllocateClaims(s1, xs[1..], avail - 1, used1, cfg);
      var r := Allocate(s1, xs[1..], avail - 1, used1, cfg);
      ClaimsCons(s, xs[0], r.0, r.1);
    } else {
      AllocateClaims(s, xs[1..], avail, used, cfg);
    }
  }

  lemma {:induction false} AllocateSelects(s: State, xs: seq<Issue>, avail: int, used: map<string, int>, cfg: Config)
    ensures var ws := Allocate(s, xs, avail, used, cfg).1;
            && ws == Select(xs, Taken(s, xs, avail, used, cfg))
            && (|ws| == 0 || |ws| <= avail) && (forall x | x in ws :: x in xs)
    decreases xs
  {
    if xs == [] {
    } else if avail <= 0 {
      AllocateSelects(s, xs[1..], avail, used, cfg);
    } else if Takes(s, xs[0], used, cfg) {
      AllocateSelects(Claim(s, xs[0].id).value, xs[1..], avail - 1,
                      used[Lower(xs[0].state) := UsedIn(used, Lower(xs[0].state)) + 1], cfg);
    } else {
      AllocateSelects(s, xs[1..], avail, used, cfg);
    }
  }

  /** A state at its cap gets no further winners. */
  lemma {:induction false} FullStateGetsNone(s: State, xs: seq<Issue>, avail: int, used: map<string, int>, cfg: Config,
                                             norm: string)
    requires UsedIn(used, norm) >= CapacityOf(norm, cfg)
    ensures forall j | 0 <= j < |xs| && Lower(xs[j].state) == norm :: !Taken(s, xs, avail, used, cfg)[j]
    decreases xs
  {
    if xs != [] {
      if avail > 0 && Takes(s, xs[0], used, cfg) {
        var n0 := Lower(xs[0].state);
        FullStateGetsNone(Claim(s, xs[0].id).value, xs[1..], avail - 1, used[n0 := UsedIn(used, n0) + 1], cfg, norm);
      } else {
        FullStateGetsNone(s, xs[1..], avail, used, cfg, norm);
      }
      forall j | 0 <= j < |xs| && Lower(xs[j].state) == norm ensures !Taken(s, xs, avail, used, cfg)[j] {
        if j > 0 {
          assert xs[j] == xs[1..][j - 1];
        }
      }
    }
  }

  /** Nobody behind a passed-over issue wins in its state, and an issue is passed over only
      when the global slots or its state's slots have all gone. */
  lemma {:induction false} PassedOver(s: State, xs: seq<Issue>, avail: int, used: map<string, int>, cfg: Config, i: nat)
    requires i < |xs| && xs[i].id !in Allocate(s, xs, avail, used, cfg).0.claimed && xs[i].id !in s.running
    ensures forall j | i <= j < |xs| && Lower(xs[j].state) == Lower(xs[i].state) :: !Taken(s, xs, avail, used, cfg)[j]
    ensures var ws := Allocate(s, xs, avail, used, cfg).1;
            |ws| >= avail
            || UsedIn(used, Lower(xs[i].state)) + CountIn(ws, Lower(xs[i].state)) >= CapacityOf(Lower(xs[i].state), cfg)
    decreases xs
  {
    var norm := Lower(xs[i].state);
    if avail <= 0 {
      NoSlotsNoWinners(s, xs, avail, used, cfg);
    } else if Takes(s, xs[0], used, cfg) {
      var s1 := Claim(s, xs[0].id).value;
      var n0 := Lower(xs[0].state);
      var used1 := used[n0 := UsedIn(used, n0) + 1];
      ClaimedStays(s1, xs[1..], avail - 1, used1, cfg, xs[0].id);
      PassedOver(s1, xs[1..], avail - 1, used1, cfg, i - 1);
      forall j | i <= j < |xs| && Lower(xs[j].state) == norm ensures !Taken(s, xs, avail, used, cfg)[j] {
        assert xs[j] == xs[1..][j - 1];
      }
    } else if i == 0 {
      ClaimedStays(s, xs[1..], avail, used, cfg, xs[0].id);
      FullStateGetsNone(s, xs, avail, used, cfg, norm);
    } else {
      PassedOver(s, xs[1..], avail, used, cfg, i - 1);
      forall j | i <= j < |xs| && Lower(xs[j].state) == norm ensures !Taken(s, xs, avail, used, cfg)[j] {
        assert xs[j] == xs[1..][j - 1];
      }
    }
  }

  lemma {:induction false} NoSlotsNoWinners(s: State, xs: seq<Issue>, avail: int, used: map<string, int>, cfg: Config)
    requires avail <= 0
    ensures forall j | 0 <= j < |xs| :: !Taken(s, xs, avail, used, cfg)[j]
    decreases xs
  {
    if xs != [] {
      NoSlotsNoWinners(s, xs[1..], avail, used, cfg);
    }
  }

  lemma {:induction false} ClaimedStays(s: State, xs: seq<Issue>, avail: int, used: map<string, int>, cfg: Config,
                                        id: Id)
    ensures id in s.claimed ==> id in Allocate(s, xs, avail, used, cfg).0.claimed
    decreases xs
  {
    if xs != [] && avail > 0 {
      if Takes(s, xs[0], used, cfg) {
        var n0 := Lower(xs[0].state);
        ClaimedStays(Claim(s, xs[0].id).value, xs[1..], avail - 1, used[n0 := UsedIn(used, n0) + 1], cfg, id);
      } else {
        ClaimedStays(s, xs[1..], avail, used, cfg, id);
      }
    }
  }

  /** The winners of a state fit under its cap, on top of what already uses it. */
  lemma {:induction false} WinnersFit(s: State, xs: seq<Issue>, avail: int, used: map<string, int>, cfg: Config,
                                      norm: string)
    ensures var n := CountIn(Allocate(s, xs, avail, used, cfg).1, norm);
            n == 0 || UsedIn(used, norm) + n <= CapacityOf(norm, cfg)
    decreases xs
  {
    if xs != [] && avail > 0 {
      if Takes(s, xs[0], used, cfg) {
        var n0 := Lower(xs[0].state);
        WinnersFit(Claim(s, xs[0].id).value, xs[1..], avail - 1, used[n0 := UsedIn(used, n0) + 1], cfg, norm);
      } else {
        WinnersFit(s, xs[1..], avail, used, cfg, norm);
      }
    }
  }

  lemma UsedByStateCounts(s: State, norm: string)
    ensures UsedIn(UsedByState(s), norm) == |RunningIn(s, norm)|
  {
    if norm !in UsedByState(s) {
      assert RunningIn(s, norm) == {};
    }
  }

  lemma WinnersClaim(s: State, cands: seq<Issue>, cfg: Config)
    ensures ClaimsExactly(s, Winners(s, cands, cfg).0, Winners(s, cands, cfg).1)
    ensures IdSet(Winners(s, cands, cfg).1) !! s.retries.Keys
    ensures |Winners(s, cands, cfg).1| <= AvailableGlobalSlots(s, cfg)
  {
    var q := Queue(s, cands, cfg);
    QueueEligible(s, cands, cfg);
    AllocateClaims(s, q, AvailableGlobalSlots(s, cfg), UsedByState(s), cfg);
    AllocateSelects(s, q, AvailableGlobalSlots(s, cfg), UsedByState(s), cfg);
    var ws := Winners(s, cands, cfg).1;
    forall id | id in IdSet(ws) ensures id !in s.retries {
      var i :| 0 <= i < |ws| && ws[i].id == id;
      assert ws[i] in ws;
    }
  }

  /** The whole pass, for any candidate list: the claimed set grows by the winners' IDs, each
      eligible and winning once; per state the winners are a prefix of the queue; an eligible
      issue left out means the global slots or its state's slots ran out; and no state's
      running and winning issues together exceed its cap unless it was above it already. */
  lemma GreedyDispatch(s: State, cands: seq<Issue>, cfg: Config)
    ensures var q := Queue(s, cands, cfg);
            var (s', ws) := Winners(s, cands, cfg);
            var won := Taken(s, q, AvailableGlobalSlots(s, cfg), UsedByState(s), cfg);
            && InOrder(q) && (forall x :: x in q <==> x in cands && Eligible(x, s, cfg))
            && ws == Select(q, won)
            && s' == s.(claimed := s.claimed + IdSet(ws))
            && IdSet(ws) !! Tracked(s) && |IdSet(ws)| == |ws| <= AvailableGlobalSlots(s, cfg)
            && (forall i, j | 0 <= i <= j < |q| && q[i].id !in s'.claimed && Lower(q[j].state) == Lower(q[i].state) ::
                  !won[j])
            && (forall i | 0 <= i < |q| && q[i].id !in s'.claimed ::
                  |ws| == AvailableGlobalSlots(s, cfg)
                  || |RunningIn(s, Lower(q[i].state))| + CountIn(ws, Lower(q[i].state))
                     >= CapacityOf(Lower(q[i].state), cfg))
            && (forall norm :: CountIn(ws, norm) == 0
                  || |RunningIn(s, norm)| + CountIn(ws, norm) <= CapacityOf(norm, cfg))
  {
    var q := Queue(s, cands, cfg);
    var avail := AvailableGlobalSlots(s, cfg);
    var used := UsedByState(s);
    SortCandidatesCorrect(FilterEligible(cands, s, cfg));
    QueueEligible(s, cands, cfg);
    WinnersClaim(s, cands, cfg);
    AllocateSelects(s, q, avail, used, cfg);
    var (s', ws) := Winners(s, cands, cfg);
    forall i | 0 <= i < |q| && q[i].id !in s'.claimed
      ensures forall j | i <= j < |q| && Lower(q[j].state) == Lower(q[i].state) :: !Taken(s, q, avail, used, cfg)[j]
      ensures |ws| == avail
              || |RunningIn(s, Lower(q[i].state))| + CountIn(ws, Lower(q[i].state))
                 >= CapacityOf(Lower(q[i].state), cfg)
    {
      assert q[i] in q;
      PassedOver(s, q, avail, used, cfg, i);
      UsedByStateCounts(s, Lower(q[i].state));
    }
    forall norm ensures CountIn(ws, norm) == 0 || |RunningIn(s, norm)| + CountIn(ws, norm) <= CapacityOf(norm, cfg) {
      WinnersFit(s, q, avail, used, cfg, norm);
      UsedByStateCounts(s, norm);
    }
  }
}
