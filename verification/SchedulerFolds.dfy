/** Each fold keeps the invariant: what was pending for the event turns into what
    is pending for its effects. */
module SchedulerFolds {
  import opened SchedulerTypes
  import opened SchedulerReduce
  import opened SchedulerDrain
  import opened SchedulerInvariant
  import Order
  import D = SchedulerDispatch

  /** Queued entries change only for the event's own token, and every new one is on its way to a timer. */
  predicate MovesQueue(s: State, came: Pending, s': State, goes: Pending) {
    && (forall id | id in s.retries && id !in came.tokens :: id in s'.retries && s'.retries[id] == s.retries[id])
    && s'.retries.Keys <= s.retries.Keys + goes.tokens.Keys
    && (forall id | id in goes.tokens :: goes.tokens[id].id == id && Matches(s', goes.tokens[id]))
    && goes.tokens.Keys <= came.tokens.Keys + came.claims + s.running.Keys
    && came.tokens.Keys * s'.retries.Keys * s'.claimed <= goes.tokens.Keys
  }

  /** Issues enter Running when their worker has landed and leave it with a kill or after it has gone. */
  predicate MovesRunning(s: State, came: Pending, s': State, goes: Pending) {
    && s'.running.Keys <= s.running.Keys + came.landed
    && came.landed <= s'.running.Keys && s'.running.Keys !! s'.retries.Keys
    && s.running.Keys - s'.running.Keys <= goes.kills + came.gone
    && goes.kills <= s.running.Keys - s'.running.Keys
    && (s.running.Keys * came.gone) !! s'.running.Keys
    && goes.landed == {} && goes.gone == {} && goes.kills !! came.gone
  }

  /** Claims are taken only for a spawn and given up only by the issue the event is about. */
  predicate MovesClaimed(s: State, came: Pending, s': State, goes: Pending) {
    && goes.claims <= s'.claimed && goes.claims !! s'.retries.Keys && goes.claims !! s'.running.Keys
    && s'.claimed <= s.claimed + goes.claims
    && (goes.claims - came.claims - came.tokens.Keys) !! (s.claimed + s.retries.Keys)
    && (s.claimed - s'.claimed) !! s'.running.Keys
    && s.claimed - s'.claimed <= came.claims + came.tokens.Keys + s.running.Keys
    && came.claims * s'.claimed <= s'.running.Keys + goes.claims
    && (s.running.Keys - s'.running.Keys) * s'.claimed <= s'.retries.Keys
    && came.tokens.Keys * s'.claimed <= s'.retries.Keys + goes.claims
  }

  /** How a fold may move issues between the tracking maps. `came` is what was pending
      for the event, `goes` what is pending for the effects it emits. */
  predicate Moves(s: State, came: Pending, s': State, goes: Pending) {
    MovesQueue(s, came, s', goes) && MovesRunning(s, came, s', goes) && MovesClaimed(s, came, s', goes)
  }

  lemma MovesClaims(s: State, came: Pending, s': State, goes: Pending, rest: Pending)
    requires ClaimsOk(s, Join(came, rest).claims) && Apart(came, rest)
    requires forall id | id in came.tokens :: id in s.retries
    requires Moves(s, came, s', goes) && came.landed <= came.claims
    ensures ClaimsOk(s', Join(goes, rest).claims)
  {
  }

  lemma MovesHandles(w: World, sh: Shell, came: Pending, sh': Shell, goes: Pending, rest: Pending)
    requires ClaimsOk(sh.cur, Join(came, rest).claims) && Apart(came, rest)
    requires forall id | id in came.tokens :: id in sh.cur.retries
    requires HandlesOk(w, sh, Join(came, rest)) && Moves(sh.cur, came, sh'.cur, goes)
    requires sh'.workers == sh.workers && came.kills == {} && rest.gone == {} && rest.landed == {}
    requires goes.claims <= came.claims || rest.kills == {}
    ensures HandlesOk(w, sh', Join(goes, rest))
  {
  }

  lemma MovesTimers(sh: Shell, came: Pending, sh': Shell, goes: Pending, rest: Pending, frozen: Frozen)
    requires ClaimsOk(sh.cur, Join(came, rest).claims) && Apart(came, rest)
    requires TimersOk(sh, Join(came, rest).tokens, frozen) && Moves(sh.cur, came, sh'.cur, goes)
    requires sh'.armed == sh.armed && sh'.fires == sh.fires && sh'.nextTimer == sh.nextTimer && sh'.timers == sh.timers
    ensures TimersOk(sh', Join(goes, rest).tokens, frozen)
  {
    var tokens := Join(came, rest).tokens;
    assert came.tokens.Keys <= tokens.Keys && rest.tokens.Keys <= tokens.Keys;
    forall id | id in goes.tokens ensures id !in Scheduled(sh) {
      if id in Scheduled(sh) {
        ScheduledQueued(sh, id);
      }
    }
    forall t | t in sh.armed ensures Matches(sh'.cur, sh.armed[t]) {
      assert sh.armed[t].id in ArmedIds(sh.armed);
    }
    forall k | 0 <= k < |sh.fires| ensures Matches(sh'.cur, sh.fires[k]) {
      assert sh.fires[k].id in FireIds(sh.fires);
    }
    forall id | id in Join(goes, rest).tokens
      ensures Join(goes, rest).tokens[id].id == id && Matches(sh'.cur, Join(goes, rest).tokens[id])
    {
      if id in rest.tokens {
        assert tokens[id] == rest.tokens[id];
      }
    }
    assert Scheduled(sh') == Scheduled(sh);
    forall id | id in sh'.cur.retries && id in sh'.cur.claimed
      ensures id in Scheduled(sh) || id in goes.tokens || id in rest.tokens
    {
      if id !in goes.tokens && id !in came.tokens {
        assert id in sh.cur.retries && id in sh.cur.claimed;
      }
    }
  }

  lemma ScheduledQueued(sh: Shell, id: Id)
    requires forall t | t in sh.armed :: Matches(sh.cur, sh.armed[t])
    requires forall k | 0 <= k < |sh.fires| :: Matches(sh.cur, sh.fires[k])
    requires id in Scheduled(sh)
    ensures id in sh.cur.retries
  {
  }

  lemma MovesApart(s: State, came: Pending, s': State, goes: Pending, rest: Pending)
    requires ClaimsOk(s, Join(came, rest).claims) && Apart(came, rest)
    requires rest.kills !! s.running.Keys
    requires forall id | id in rest.tokens :: id in s.retries
    requires forall id | id in came.tokens :: id in s.retries
    requires Moves(s, came, s', goes)
    ensures Apart(goes, rest)
  {
  }

  // ---- sums over effect lists -----------------------------------------------

  lemma JoinAssociative(a: Pending, b: Pending, c: Pending)
    ensures Join(Join(a, b), c) == Join(a, Join(b, c))
  {
    assert (a.tokens + b.tokens) + c.tokens == a.tokens + (b.tokens + c.tokens);
  }

  lemma {:induction false} SumAppend(a: seq<Effect>, b: seq<Effect>)
    ensures Sum(a + b) == Join(Sum(a), Sum(b))
    ensures AllApart(a) && AllApart(b) && Apart(Sum(a), Sum(b)) ==> AllApart(a + b)
  {
    if a == [] {
      assert a + b == b;
      assert Join(NONE, Sum(b)) == Sum(b);
    } else {
      assert (a + b)[1..] == a[1..] + b;
      SumAppend(a[1..], b);
      JoinAssociative(OfEffect(a[0]), Sum(a[1..]), Sum(b));
    }
  }

  lemma SumOne(e: Effect)
    ensures Sum([e]) == OfEffect(e) && AllApart([e])
  {
    assert [e][1..] == [];
    assert Sum([e]) == Join(OfEffect(e), NONE);
  }

  lemma SumTwo(e: Effect, f: Effect)
    requires Apart(OfEffect(e), OfEffect(f))
    ensures Sum([e, f]) == Join(OfEffect(e), OfEffect(f)) && AllApart([e, f])
  {
    SumOne(f);
    assert [e, f][1..] == [f];
  }

  /** Effects that call nothing back into the loop. */
  predicate Leaf(effs: seq<Effect>) {
    forall i | 0 <= i < |effs| ::
      effs[i].EffKillWorker? || effs[i].EffRemoveWorkspace? || effs[i].EffArmRetryTimer?
  }

  /** Running issues leave Running, each with a kill, and either join the queue with
      a timer to arm or lose their claim. */
  predicate Sheds(s: State, s': State, g: Pending) {
    && g.claims == {} && g.landed == {} && g.gone == {}
    && s'.running.Keys == s.running.Keys - g.kills && g.kills <= s.running.Keys
    && g.tokens.Keys <= g.kills && s'.retries.Keys == s.retries.Keys + g.tokens.Keys
    && s'.claimed == s.claimed - (g.kills - g.tokens.Keys)
    && (forall id | id in s.retries && id !in g.tokens :: s'.retries[id] == s.retries[id])
    && (forall id | id in g.tokens :: g.tokens[id].id == id && Matches(s', g.tokens[id]))
  }

  lemma ShedsCompose(s: State, s1: State, s2: State, g1: Pending, g2: Pending)
    requires Sheds(s, s1, g1) && Sheds(s1, s2, g2)
    ensures Apart(g1, g2) && Sheds(s, s2, Join(g1, g2))
  {
    var g := Join(g1, g2);
    forall id | id in g.tokens ensures g.tokens[id].id == id && Matches(s2, g.tokens[id]) {
      if id !in g2.tokens {
        assert s2.retries[id] == s1.retries[id];
      }
    }
  }

  lemma ShedsMoves(s: State, s': State, g: Pending)
    requires Sheds(s, s', g) && s.running.Keys !! s.retries.Keys && s.running.Keys <= s.claimed
    ensures Moves(s, NONE, s', g)
  {
  }

  /** A reconcile pass and the effects it emits. */
  predicate Demotes(s: State, s': State, effs: seq<Effect>) {
    Leaf(effs) && AllApart(effs) && Sheds(s, s', Sum(effs))
  }

  lemma DemotesCompose(s: State, s1: State, s2: State, e1: seq<Effect>, e2: seq<Effect>)
    requires Demotes(s, s1, e1) && Demotes(s1, s2, e2)
    ensures Demotes(s, s2, e1 + e2)
  {
    ShedsCompose(s, s1, s2, Sum(e1), Sum(e2));
    SumAppend(e1, e2);
  }

  lemma KillRetryDemotes(s: State, id: Id, attempt: int, err: string, reason: string, cfg: Config, now: int)
    requires id in s.running && s.running.Keys !! s.retries.Keys && s.running.Keys <= s.claimed
    ensures Demotes(s, KillRetry(s, id, attempt, err, reason, cfg, now).0,
                    KillRetry(s, id, attempt, err, reason, cfg, now).1)
  {
    var effs := KillRetry(s, id, attempt, err, reason, cfg, now).1;
    SumTwo(effs[0], effs[1]);
    assert effs == [effs[0], effs[1]];
  }

  lemma TerminalDemotes(s: State, id: Id, identifier: string)
    requires id in s.running && s.running.Keys !! s.retries.Keys && s.running.Keys <= s.claimed
    ensures Demotes(s, ReleaseClaim(s, id), [EffKillWorker(id, "terminal"), EffRemoveWorkspace(identifier)])
  {
    SumTwo(EffKillWorker(id, "terminal"), EffRemoveWorkspace(identifier));
  }

  lemma RefreshOneDemotes(s: State, id: Id, issues: seq<Issue>, cfg: Config, now: int)
    requires s.running.Keys !! s.retries.Keys && s.running.Keys <= s.claimed
    ensures Demotes(s, RefreshOne(s, id, issues, cfg, now).0, RefreshOne(s, id, issues, cfg, now).1)
  {
    var (s', effs) := RefreshOne(s, id, issues, cfg, now);
    if id in s.running {
      var run := s.running[id];
      var iss := LastById(issues, id);
      if iss.None? {
        KillRetryDemotes(s, id, run.attempt, ERR_NOT_IN_REFRESH, "not-found", cfg, now);
      } else if Lower(iss.value.state) in NormSet(cfg.terminal) {
        TerminalDemotes(s, id, run.issue.identifier);
      } else if Lower(iss.value.state) !in NormSet(cfg.active) {
        KillRetryDemotes(s, id, run.attempt, ERR_LEFT_ACTIVE, "non-active", cfg, now);
      }
    }
  }

  lemma {:induction false} RefreshDemotes(s: State, ids: seq<Id>, issues: seq<Issue>, cfg: Config, now: int)
    requires s.running.Keys !! s.retries.Keys && s.running.Keys <= s.claimed
    ensures Demotes(s, RefreshAll(s, ids, issues, cfg, now).0, RefreshAll(s, ids, issues, cfg, now).1)
    decreases ids
  {
    if ids != [] {
      var (s1, e1) := RefreshOne(s, ids[0], issues, cfg, now);
      RefreshOneDemotes(s, ids[0], issues, cfg, now);
      RefreshDemotes(s1, ids[1..], issues, cfg, now);
      var (s2, e2) := RefreshAll(s1, ids[1..], issues, cfg, now);
      DemotesCompose(s, s1, s2, e1, e2);
    }
  }

  lemma {:induction false} StallDemotes(s: State, ids: seq<Id>, cfg: Config, now: int)
    requires s.running.Keys !! s.retries.Keys && s.running.Keys <= s.claimed
    ensures Demotes(s, StallAll(s, ids, cfg, now).0, StallAll(s, ids, cfg, now).1)
    decreases ids
  {
    if ids != [] {
      var (s1, e1) := StallOne(s, ids[0], cfg, now);
      if ids[0] in s.running && Stalled(s.running[ids[0]], cfg, now) {
        KillRetryDemotes(s, ids[0], s.running[ids[0]].attempt, ERR_STALL, "stall", cfg, now);
      }
      StallDemotes(s1, ids[1..], cfg, now);
      var (s2, e2) := StallAll(s1, ids[1..], cfg, now);
      DemotesCompose(s, s1, s2, e1, e2);
    }
  }

  lemma {:induction false} RevalidationsSum(ws: seq<Issue>)
    requires |D.IdSet(ws)| == |ws|
    ensures Sum(Revalidations(ws)) == NONE.(claims := D.IdSet(ws)) && AllApart(Revalidations(ws))
  {
    if ws != [] {
      var tail := ws[1..];
      assert ws == [ws[0]] + tail;
      D.IdSetCons(ws[0], tail);
      IdSetSize(tail);
      assert Revalidations(ws)[1..] == Revalidations(tail);
      RevalidationsSum(tail);
      assert OfEffect(Revalidations(ws)[0]).claims == {ws[0].id};
    } else {
      assert D.IdSet(ws) == {};
    }
  }

  lemma {:induction false} IdSetSize(ws: seq<Issue>)
    ensures |D.IdSet(ws)| <= |ws|
  {
    if ws == [] {
      assert D.IdSet(ws) == {};
    } else {
      assert ws == [ws[0]] + ws[1..];
      D.IdSetCons(ws[0], ws[1..]);
      IdSetSize(ws[1..]);
    }
  }

  // ---- one lemma per event --------------------------------------------------

  /** Only issue `x` changes place. */
  predicate OnlyAt(s: State, s': State, x: Id) {
    && s'.running.Keys - {x} == s.running.Keys - {x}
    && s'.claimed - {x} == s.claimed - {x}
    && s'.retries.Keys - {x} == s.retries.Keys - {x}
    && (forall id | id in s.retries && id in s'.retries && id != x :: s'.retries[id] == s.retries[id])
  }

  predicate AtMost(p: Pending, x: Id) {
    p.claims <= {x} && p.kills == {} && p.landed <= {x} && p.gone <= {x} && p.tokens.Keys <= {x}
  }

  predicate MovesQueueAt(s: State, came: Pending, s': State, goes: Pending, x: Id) {
    && (x in s.retries && x !in came.tokens ==> x in s'.retries && s'.retries[x] == s.retries[x])
    && (x in s'.retries ==> x in s.retries || x in goes.tokens)
    && (x in goes.tokens ==> goes.tokens[x].id == x && Matches(s', goes.tokens[x])
                             && (x in came.tokens || x in came.claims || x in s.running))
    && (x in came.tokens && x in s'.retries && x in s'.claimed ==> x in goes.tokens)
  }

  lemma OneMovesQueue(s: State, came: Pending, s': State, goes: Pending, x: Id)
    requires OnlyAt(s, s', x) && AtMost(came, x) && AtMost(goes, x) && MovesQueueAt(s, came, s', goes, x)
    ensures MovesQueue(s, came, s', goes)
  {
    forall id | id in s.retries && id !in came.tokens ensures id in s'.retries && s'.retries[id] == s.retries[id] {
      if id != x {
        assert id in s.retries.Keys - {x};
      }
    }
    forall id | id in s'.retries ensures id in s.retries || id in goes.tokens {
      if id != x {
        assert id in s'.retries.Keys - {x};
      }
    }
  }

  predicate MovesRunningAt(s: State, came: Pending, s': State, goes: Pending, x: Id) {
    && (x in s'.running ==> (x in s.running || x in came.landed) && x !in s'.retries)
    && (x in came.landed ==> x in s'.running)
    && (x in s.running ==> (x !in s'.running <==> x in came.gone))
    && goes.landed == {} && goes.gone == {}
  }

  lemma OneMovesRunning(s: State, came: Pending, s': State, goes: Pending, x: Id)
    requires OnlyAt(s, s', x) && AtMost(came, x) && AtMost(goes, x) && MovesRunningAt(s, came, s', goes, x)
    requires s.running.Keys !! s.retries.Keys
    ensures MovesRunning(s, came, s', goes)
  {
    forall id | id != x
      ensures id in s'.running <==> id in s.running
      ensures id in s'.retries <==> id in s.retries
    {
      assert id in s'.running.Keys - {x} <==> id in s.running.Keys - {x};
      assert id in s'.retries.Keys - {x} <==> id in s.retries.Keys - {x};
    }
  }

  predicate MovesClaimedAt(s: State, came: Pending, s': State, goes: Pending, x: Id) {
    && (x in goes.claims ==> x in s'.claimed && x !in s'.retries && x !in s'.running
                             && (x in came.claims || x in came.tokens || (x !in s.claimed && x !in s.retries)))
    && (x in s'.claimed && x !in s.claimed ==> x in goes.claims)
    && (x in s.claimed && x !in s'.claimed ==>
        x !in s'.running && (x in came.claims || x in came.tokens || x in s.running))
    && (x in came.claims && x in s'.claimed ==> x in s'.running || x in goes.claims)
    && (x in s.running && x !in s'.running && x in s'.claimed ==> x in s'.retries)
    && (x in came.tokens && x in s'.claimed ==> x in s'.retries || x in goes.claims)
  }

  lemma OneMovesClaimed(s: State, came: Pending, s': State, goes: Pending, x: Id)
    requires OnlyAt(s, s', x) && AtMost(came, x) && AtMost(goes, x) && MovesClaimedAt(s, came, s', goes, x)
    ensures MovesClaimed(s, came, s', goes)
  {
    forall id | id != x
      ensures id in s'.running <==> id in s.running
      ensures id in s'.claimed <==> id in s.claimed
    {
      assert id in s'.running.Keys - {x} <==> id in s.running.Keys - {x};
      assert id in s'.claimed - {x} <==> id in s.claimed - {x};
    }
  }

  predicate MovesAt(s: State, came: Pending, s': State, goes: Pending, x: Id) {
    && OnlyAt(s, s', x) && AtMost(came, x) && AtMost(goes, x)
    && MovesQueueAt(s, came, s', goes, x) && MovesRunningAt(s, came, s', goes, x)
    && MovesClaimedAt(s, came, s', goes, x)
  }

  lemma OneMoves(s: State, came: Pending, s': State, goes: Pending, x: Id)
    requires MovesAt(s, came, s', goes, x) && s.running.Keys !! s.retries.Keys
    ensures Moves(s, came, s', goes)
  {
    OneMovesQueue(s, came, s', goes, x);
    OneMovesRunning(s, came, s', goes, x);
    OneMovesClaimed(s, came, s', goes, x);
  }

  lemma SameMoves(s: State, s': State)
    requires s'.running.Keys == s.running.Keys && s'.claimed == s.claimed && s'.retries == s.retries
    requires s.running.Keys !! s.retries.Keys
    ensures Moves(s, NONE, s', NONE)
  {
  }

  lemma ClaimsMoves(s: State, s': State, ws: seq<Issue>)
    requires ClaimsOk(s, {}) && D.ClaimsExactly(s, s', ws) && D.IdSet(ws) !! s.retries.Keys
    ensures Moves(s, NONE, s', NONE.(claims := D.IdSet(ws)))
  {
  }

  lemma CandidatesMoves(s: State, cands: seq<Issue>, cfg: Config)
    requires ClaimsOk(s, {})
    ensures AllApart(ReduceCandidates(s, cands, cfg).1)
    ensures Moves(s, NONE, ReduceCandidates(s, cands, cfg).0, Sum(ReduceCandidates(s, cands, cfg).1))
  {
    var r := Winners(s, cands, cfg);
    D.WinnersClaim(s, cands, cfg);
    RevalidationsSum(r.1);
    ClaimsMoves(s, r.0, r.1);
  }

  /** A dispatch pass fills the free slots and no more. */
  lemma CandidatesCapped(s: State, ev: Event, cfg: Config)
    requires ClaimsOk(s, {}) && ev.EvCandidatesFetched?
    ensures Capped(Fold(s, ev, cfg, ReduceCandidates(s, ev.issues, cfg).0))
  {
    var r := Winners(s, ev.issues, cfg);
    D.WinnersClaim(s, ev.issues, cfg);
    TrackedGrows(s, r.0, D.IdSet(r.1));
    AllTrackedUsed(s);
    SizeIsCardinality(Tracked(s));
    SizeIsCardinality(Tracked(r.0));
  }

  lemma CandidatesOrphans(s: State, ev: Event, cfg: Config)
    requires ClaimsOk(s, {}) && ev.EvCandidatesFetched?
    ensures OrphansOk(Fold(s, ev, cfg, ReduceCandidates(s, ev.issues, cfg).0))
  {
    var r := Winners(s, ev.issues, cfg);
    D.WinnersClaim(s, ev.issues, cfg);
    OrphansKept(s, r.0, D.IdSet(r.1));
    SameOrphansOk(s, ev, cfg, r.0);
  }

  lemma SameOrphansOk(s: State, ev: Event, cfg: Config, s': State)
    requires Orphans(s') == Orphans(s) && s'.retries == s.retries && !ev.EvSpawnFailed?
    ensures OrphansOk(Fold(s, ev, cfg, s'))
  {
  }

  lemma TrackedGrows(s: State, s': State, won: set<Id>)
    requires won !! Tracked(s)
    requires s'.running == s.running && s'.retries == s.retries && s'.claimed == s.claimed + won
    ensures |Tracked(s')| == |Tracked(s)| + |won|
  {
    assert Tracked(s') == Tracked(s) + won;
  }

  lemma OrphansKept(s: State, s': State, won: set<Id>)
    requires won !! Tracked(s)
    requires s'.retries == s.retries && s'.claimed == s.claimed + won
    ensures Orphans(s') == Orphans(s)
  {
  }

  lemma AllTrackedUsed(s: State)
    requires ClaimsOk(s, {})
    ensures |Tracked(s)| == GlobalUsed(s)
  {
    TrackedIs(s);
    RunningSize(s.running);
    UnionSize(s.running.Keys, Queued(s));
  }

  lemma TrackedIs(s: State)
    requires ClaimsOk(s, {})
    ensures Tracked(s) == s.running.Keys + Queued(s)
  {
  }

  lemma RunningSize(running: map<Id, RunAttempt>)
    ensures |running| == |running.Keys|
  {
  }

  lemma UnionSize(a: set<Id>, b: set<Id>)
    requires a !! b
    ensures |a + b| == |a| + |b|
  {
  }

  lemma SumSnoc(effs: seq<Effect>, e: Effect)
    requires AllApart(effs) && OfEffect(e) == NONE
    ensures Sum(effs + [e]) == Sum(effs) && AllApart(effs + [e])
  {
    SumOne(e);
    SumAppend(effs, [e]);
    assert Join(Sum(effs), NONE) == Sum(effs);
  }

  lemma StallPassDemotes(s: State, cfg: Config, now: int)
    requires s.running.Keys !! s.retries.Keys && s.running.Keys <= s.claimed
    ensures Demotes(s, ReduceStall(s, cfg, now).0, ReduceStall(s, cfg, now).1)
  {
    if cfg.stallTimeoutMs > 0 {
      StallDemotes(s, Order.Sorted(s.running.Keys), cfg, now);
    }
  }

  lemma TickEffects(effs: seq<Effect>, refresh: seq<Effect>, fetch: seq<Effect>)
    requires Leaf(effs) && AllApart(effs)
    requires refresh == [] || (|refresh| == 1 && refresh[0].EffRefreshTracker?)
    requires fetch == [] || fetch == [EffFetchCandidates]
    ensures Sum(effs + refresh + fetch) == Sum(effs)
    ensures AllApart(effs + refresh + fetch) && WellOrdered(effs + refresh + fetch, NONE)
  {
    if refresh == [] {
      assert effs + refresh == effs;
    } else {
      assert refresh == [refresh[0]];
      SumSnoc(effs, refresh[0]);
    }
    if fetch == [] {
      assert effs + refresh + fetch == effs + refresh;
    } else {
      SumSnoc(effs + refresh, EffFetchCandidates);
    }
  }

  lemma TickMoves(s: State, valid: bool, cfg: Config, now: int)
    requires ClaimsOk(s, {})
    ensures AllApart(ReduceTick(s, valid, cfg, now).1) && WellOrdered(ReduceTick(s, valid, cfg, now).1, NONE)
    ensures Sheds(s, ReduceTick(s, valid, cfg, now).0, Sum(ReduceTick(s, valid, cfg, now).1))
  {
    StallPassDemotes(s, cfg, now);
    var r := ReduceStall(s, cfg, now);
    TickEffects(r.1, if r.0.running != map[] then [EffRefreshTracker(Order.Sorted(r.0.running.Keys))] else [],
                if valid then [EffFetchCandidates] else []);
  }

  lemma ExitMoves(s: State, e: Exit, entry: RetryEntry)
    requires s.running.Keys !! s.retries.Keys && e.id in s.running && e.id in s.claimed && entry.id == e.id
    ensures var r := ArmRetry(Demote(s, e.id), entry);
            AllApart(r.1) && MovesAt(s, OfEvent(EvWorkerExit(e)), r.0, Sum(r.1), e.id) && r.0.claimed == s.claimed
  {
    SumOne(ArmRetry(Demote(s, e.id), entry).1[0]);
  }

  lemma WorkerExitMoves(s: State, e: Exit, cfg: Config, now: int)
    requires s.running.Keys !! s.retries.Keys && s.running.Keys <= s.claimed
    ensures var r := ReduceWorkerExit(s, e, cfg, now);
            AllApart(r.1) && MovesAt(s, OfEvent(EvWorkerExit(e)), r.0, Sum(r.1), e.id) && r.0.claimed == s.claimed
  {
    if e.id in s.running {
      var r := ReduceWorkerExit(s, e, cfg, now);
      var entry := r.0.retries[e.id];
      ExitMoves(s, e, entry);
      assert r == ArmRetry(Demote(s, e.id), entry);
    }
  }

  lemma ReleaseMoves(s: State, req: FireReq)
    requires req.id in s.retries && req.id !in s.running
    ensures MovesAt(s, Token(req), ReleaseClaim(s, req.id), NONE, req.id)
  {
  }

  lemma RearmMoves(s: State, req: FireReq, again: FireReq, err: string, cfg: Config, now: int)
    requires req.id in s.retries && req.id !in s.running && again.id == req.id
    ensures var r := ArmBackoff(s, again, err, cfg, now);
            AllApart(r.1) && MovesAt(s, Token(req), r.0, Sum(r.1), req.id)
  {
    SumOne(ArmBackoff(s, again, err, cfg, now).1[0]);
  }

  lemma ReclaimMoves(s: State, req: FireReq, issue: Issue, attempt: int)
    requires ClaimFromRetry(s, req.id).Some? && issue.id == req.id
    ensures AllApart([EffSpawn(issue, attempt)])
    ensures MovesAt(s, Token(req), ClaimFromRetry(s, req.id).value, Sum([EffSpawn(issue, attempt)]), req.id)
  {
    SumOne(EffSpawn(issue, attempt));
  }

  lemma RefusedMoves(s: State, req: FireReq)
    requires ClaimFromRetry(s, req.id).None? && req.id in s.retries && req.id !in s.running
    ensures MovesAt(s, Token(req), s, NONE, req.id)
  {
  }

  lemma VerdictMoves(s: State, req: FireReq, v: Verdict, cfg: Config, now: int)
    requires req.id in s.retries && req.id !in s.running
    requires v.Dispatch? ==> v.issue.id == req.id
    ensures var r := ActOnVerdict(s, req, v, cfg, now);
            AllApart(r.1) && MovesAt(s, Token(req), r.0, Sum(r.1), req.id)
            && (s.claimed - r.0.claimed) !! r.0.retries.Keys
  {
    match v {
      case Again(e) => RearmMoves(s, req, FireReq(req.id, req.identifier, req.attempt + 1), e, cfg, now);
      case GiveUp => ReleaseMoves(s, req);
      case Dispatch(issue) =>
        if ClaimFromRetry(s, req.id).None? {
          RefusedMoves(s, req);
        } else {
          ReclaimMoves(s, req, issue, req.attempt);
        }
    }
  }

  lemma RevalidatedMoves(s: State, issue: Issue, attempt: int, latest: Option<Issue>, cfg: Config)
    requires issue.id in s.claimed && issue.id !in s.running && issue.id !in s.retries
    ensures var r := ReduceRevalidated(s, issue, attempt, latest, cfg);
            AllApart(r.1) && MovesAt(s, OfEvent(EvRevalidated(issue, attempt, latest)), r.0, Sum(r.1), issue.id)
            && (s.claimed - r.0.claimed) !! r.0.retries.Keys
  {
    SumOne(EffSpawn(issue, attempt));
  }

  lemma SpawnFailedMoves(s: State, issue: Issue, attempt: int, err: string, cfg: Config, now: int)
    requires issue.id in s.claimed && issue.id !in s.running && issue.id !in s.retries
    ensures var r := ReduceSpawnFailed(s, issue, attempt, err, cfg, now);
            AllApart(r.1) && MovesAt(s, OfEvent(EvSpawnFailed(issue, attempt, err)), r.0, Sum(r.1), issue.id)
            && (s.claimed - r.0.claimed) * r.0.retries.Keys == {issue.id}
  {
    SumOne(ReduceSpawnFailed(s, issue, attempt, err, cfg, now).1[0]);
  }

  lemma SpawnedMoves(s: State, issue: Issue, attempt: int, session: LiveSession)
    requires issue.id in s.claimed && issue.id !in s.running && issue.id !in s.retries
    ensures MovesAt(s, OfEvent(EvSpawned(issue, attempt, session)), MarkRunning(s, issue, attempt, session), NONE,
                    issue.id)
  {
  }

  // ---- every event ----------------------------------------------------------

  /** A fold that keeps the parts of the invariant: `effs` are the effects it emits. */
  ghost predicate Lawful(s: State, ev: Event, cfg: Config, s': State, effs: seq<Effect>) {
    && AllApart(effs) && Moves(s, OfEvent(ev), s', Sum(effs))
    && Capped(Fold(s, ev, cfg, s')) && OrphansOk(Fold(s, ev, cfg, s'))
    && (Sum(effs).claims <= OfEvent(ev).claims + OfEvent(ev).tokens.Keys || ev.EvCandidatesFetched?)
    && Sum(effs).landed == {} && Sum(effs).gone == {}
  }

  lemma SubsetSize(a: set<Id>, b: set<Id>)
    requires a <= b
    ensures |a| <= |b|
  {
    if a != {} {
      var x :| x in a;
      SubsetSize(a - {x}, b - {x});
    }
  }

  lemma TrackedShrinks(s: State, came: Pending, s': State, goes: Pending)
    requires s.running.Keys <= s.claimed && came.claims <= s.claimed && came.landed <= s.claimed
    requires came.tokens.Keys <= s.retries.Keys
    requires Moves(s, came, s', goes) && goes.claims <= came.claims + came.tokens.Keys
    ensures Tracked(s') <= Tracked(s)
  {
  }

  lemma OrphansExactly(s: State, came: Pending, s': State, goes: Pending, failed: set<Id>)
    requires s.running.Keys <= s.claimed && came.claims <= s.claimed
    requires came.tokens.Keys <= s.retries.Keys && Moves(s, came, s', goes)
    requires (s.claimed - s'.claimed) * s'.retries.Keys == failed
    ensures Orphans(s') == (Orphans(s) + failed) * s'.retries.Keys && failed <= s'.retries.Keys
  {
  }

  lemma SmallerCapped(s: State, ev: Event, cfg: Config, s': State)
    requires Tracked(s') <= Tracked(s)
    ensures Capped(Fold(s, ev, cfg, s'))
  {
    SubsetSize(Tracked(s'), Tracked(s));
    SizeIsCardinality(Tracked(s'));
    SizeIsCardinality(Tracked(s));
  }

  /** A fold that claims nothing new keeps the cap, and orphans only what failed to spawn. */
  lemma LawfulFrom(s: State, ev: Event, cfg: Config, s': State, effs: seq<Effect>)
    requires s.running.Keys <= s.claimed && OfEvent(ev).claims <= s.claimed && OfEvent(ev).landed <= s.claimed
    requires OfEvent(ev).tokens.Keys <= s.retries.Keys && AllApart(effs)
    requires Moves(s, OfEvent(ev), s', Sum(effs)) && Sum(effs).claims <= OfEvent(ev).claims + OfEvent(ev).tokens.Keys
    requires (s.claimed - s'.claimed) * s'.retries.Keys == FailedSpawn(ev)
    ensures Lawful(s, ev, cfg, s', effs)
  {
    TrackedShrinks(s, OfEvent(ev), s', Sum(effs));
    SmallerCapped(s, ev, cfg, s');
    OrphansExactly(s, OfEvent(ev), s', Sum(effs), FailedSpawn(ev));
  }

  lemma TickLawful(s: State, ev: Event, cfg: Config, now: int)
    requires ClaimsOk(s, {}) && ev.EvTick?
    ensures Lawful(s, ev, cfg, Reduce(s, ev, cfg, now).0, Reduce(s, ev, cfg, now).1)
  {
    TickMoves(s, ev.configValid, cfg, now);
    var r := ReduceTick(s, ev.configValid, cfg, now);
    ShedsMoves(s, r.0, Sum(r.1));
    ShedsStrips(s, r.0, Sum(r.1));
    LawfulFrom(s, ev, cfg, r.0, r.1);
  }

  lemma ShedsStrips(s: State, s': State, g: Pending)
    requires Sheds(s, s', g) && s.running.Keys !! s.retries.Keys
    ensures (s.claimed - s'.claimed) * s'.retries.Keys == {}
  {
  }

  lemma RefreshLawful(s: State, ev: Event, cfg: Config, now: int, claims: set<Id>)
    requires ClaimsOk(s, claims) && ev.EvTrackerRefreshed?
    ensures Lawful(s, ev, cfg, Reduce(s, ev, cfg, now).0, Reduce(s, ev, cfg, now).1)
    ensures Leaf(Reduce(s, ev, cfg, now).1)
  {
    RefreshDemotes(s, SortIds(ev.requested), ev.issues, cfg, now);
    var r := RefreshAll(s, SortIds(ev.requested), ev.issues, cfg, now);
    ShedsMoves(s, r.0, Sum(r.1));
    ShedsStrips(s, r.0, Sum(r.1));
    LawfulFrom(s, ev, cfg, r.0, r.1);
  }

  lemma CandidatesLawful(s: State, ev: Event, cfg: Config, now: int)
    requires ClaimsOk(s, {}) && ev.EvCandidatesFetched?
    ensures Lawful(s, ev, cfg, Reduce(s, ev, cfg, now).0, Reduce(s, ev, cfg, now).1)
  {
    CandidatesMoves(s, ev.issues, cfg);
    CandidatesCapped(s, ev, cfg);
    CandidatesOrphans(s, ev, cfg);
  }

  lemma RetryDueLawful(s: State, ev: Event, cfg: Config, now: int)
    requires ClaimsOk(s, {}) && ev.EvRetryDue? && Matches(s, ev.req)
    ensures Lawful(s, ev, cfg, Reduce(s, ev, cfg, now).0, Reduce(s, ev, cfg, now).1)
  {
    SumOne(EffRetryFetch(ev.req));
    OneMoves(s, Token(ev.req), s, Token(ev.req), ev.req.id);
    LawfulFrom(s, ev, cfg, s, [EffRetryFetch(ev.req)]);
  }

  lemma RetryResolvedLawful(s: State, ev: Event, cfg: Config, now: int)
    requires ClaimsOk(s, {}) && ev.EvRetryResolved? && Matches(s, ev.req)
    ensures Lawful(s, ev, cfg, Reduce(s, ev, cfg, now).0, Reduce(s, ev, cfg, now).1)
  {
    var v := RetryVerdict(s, ev.req.id, ev.issues, ev.fetchErr, cfg);
    VerdictMoves(s, ev.req, v, cfg, now);
    var r := ActOnVerdict(s, ev.req, v, cfg, now);
    OneMoves(s, Token(ev.req), r.0, Sum(r.1), ev.req.id);
    LawfulFrom(s, ev, cfg, r.0, r.1);
  }

  lemma SpawningLawful(s: State, ev: Event, cfg: Config, now: int, claims: set<Id>)
    requires ClaimsOk(s, claims) && OfEvent(ev).claims <= claims
    requires ev.EvRevalidated? || ev.EvSpawned? || ev.EvSpawnFailed?
    ensures Lawful(s, ev, cfg, Reduce(s, ev, cfg, now).0, Reduce(s, ev, cfg, now).1)
  {
    var r := Reduce(s, ev, cfg, now);
    assert ev.issue.id in claims;
    match ev {
      case EvRevalidated(issue, attempt, latest) => RevalidatedMoves(s, issue, attempt, latest, cfg);
      case EvSpawned(issue, attempt, session) => SpawnedMoves(s, issue, attempt, session);
      case EvSpawnFailed(issue, attempt, err) => SpawnFailedMoves(s, issue, attempt, err, cfg, now);
    }
    OneMoves(s, OfEvent(ev), r.0, Sum(r.1), ev.issue.id);
    LawfulFrom(s, ev, cfg, r.0, r.1);
  }

  lemma OutsideLawful(s: State, ev: Event, cfg: Config, now: int, claims: set<Id>)
    requires ClaimsOk(s, claims) && (ev.EvWorkerExit? || ev.EvCodexActivity?)
    ensures Lawful(s, ev, cfg, Reduce(s, ev, cfg, now).0, Reduce(s, ev, cfg, now).1)
  {
    var r := Reduce(s, ev, cfg, now);
    match ev {
      case EvWorkerExit(exit) =>
        WorkerExitMoves(s, exit, cfg, now);
        OneMoves(s, OfEvent(ev), r.0, Sum(r.1), exit.id);
      case EvCodexActivity(_) => SameMoves(s, r.0);
    }
    LawfulFrom(s, ev, cfg, r.0, r.1);
  }
}
