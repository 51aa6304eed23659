/** Per-state caps over whole drains: dispatching never lifts the number of running
    issues of a tracker state above its cap; only a relabel by the tracker can. */
module SchedulerCaps {
  import opened SchedulerTypes
  import opened SchedulerReduce
  import opened SchedulerDrain
  import opened SchedulerInvariant
  import opened SchedulerDispatch
  import opened SchedulerFolds
  import opened SchedulerTheorems
  import Order

  /** Nothing new runs except the given issue, under the state it was dispatched with. */
  predicate AddsOnly(s: State, s': State, issue: Issue) {
    forall id | id in s'.running ::
      (id in s.running && s'.running[id] == s.running[id]) || (id == issue.id && s'.running[id].issue == issue)
  }

  function InState(ws: seq<Issue>, norm: string): set<Id> {
    set i | 0 <= i < |ws| && Lower(ws[i].state) == norm :: ws[i].id
  }

  lemma SpawnAddsOnly(w: World, sh: Shell, issue: Issue, attempt: int)
    ensures AddsOnly(sh.cur, Exec(w, sh, EffSpawn(issue, attempt)).cur, issue)
  {
    if w.deps.spawner {
      var called := sh.(spawns := sh.spawns + [SpawnCall(sh.cur, issue, attempt)]);
      match w.spawn(|sh.trace|, issue, attempt)
      case Err(e) =>
        var r := ReduceSpawnFailed(sh.cur, issue, attempt, e, sh.cfg, w.now(|sh.trace|));
        ExecOne(w, Folded(called, EvSpawnFailed(issue, attempt, e), r.0), r.1[0], 1);
        StepUnfolds(w, called, EvSpawnFailed(issue, attempt, e));
      case Ok(res) =>
        StepUnfolds(w, Hired(called, issue.id, res), EvSpawned(issue, attempt, res.session));
    }
  }

  lemma RevalidateAddsOnly(w: World, sh: Shell, issue: Issue, attempt: int)
    ensures AddsOnly(sh.cur, Exec(w, sh, EffRevalidate(issue, attempt)).cur, issue)
  {
    var ev := EvRevalidated(issue, attempt, Revalidate(w, |sh.trace|, issue));
    var r := ReduceRevalidated(sh.cur, issue, attempt, ev.latest, sh.cfg);
    StepUnfolds(w, sh, ev);
    if r.1 != [] {
      ExecOne(w, Folded(sh, ev, r.0), EffSpawn(issue, attempt), 3);
      SpawnAddsOnly(w, Folded(sh, ev, r.0), issue, attempt);
    }
  }

  lemma {:induction false} RevalidationsAdd(w: World, sh: Shell, ws: seq<Issue>, norm: string, rank: nat)
    requires Below(Revalidations(ws), rank)
    ensures RunningIn(ExecAll(w, sh, Revalidations(ws), rank).cur, norm) <= RunningIn(sh.cur, norm) + InState(ws, norm)
    decreases |ws|
  {
    if ws != [] {
      var sh1 := Exec(w, sh, Revalidations(ws)[0]);
      RevalidateAddsOnly(w, sh, ws[0], 0);
      assert Revalidations(ws)[1..] == Revalidations(ws[1..]);
      RevalidationsAdd(w, sh1, ws[1..], norm, rank);
      assert RunningIn(sh1.cur, norm) <= RunningIn(sh.cur, norm) + InState([ws[0]], norm) by {
        assert [ws[0]][0] == ws[0];
      }
      assert InState([ws[0]], norm) + InState(ws[1..], norm) <= InState(ws, norm);
    }
  }

  lemma {:induction false} InStateCount(ws: seq<Issue>, norm: string)
    ensures |InState(ws, norm)| <= CountIn(ws, norm)
  {
    if ws != [] {
      InStateCount(ws[1..], norm);
      var head := if Lower(ws[0].state) == norm then {ws[0].id} else {};
      assert InState(ws, norm) <= head + InState(ws[1..], norm) by {
        forall i | 0 <= i < |ws| && Lower(ws[i].state) == norm ensures ws[i].id in head + InState(ws[1..], norm) {
          if i > 0 {
            assert ws[1..][i - 1] == ws[i];
          }
        }
      }
      SubsetSize(InState(ws, norm), head + InState(ws[1..], norm));
    }
  }

  lemma WinnersSize(s: State, issues: seq<Issue>, cfg: Config, norm: string)
    ensures var ws := Winners(s, issues, cfg).1;
            |RunningIn(s, norm)| + |InState(ws, norm)| <= Max(|RunningIn(s, norm)|, CapacityOf(norm, cfg))
  {
    var ws := Winners(s, issues, cfg).1;
    WinnersFit(s, Queue(s, issues, cfg), AvailableGlobalSlots(s, cfg), UsedByState(s), cfg, norm);
    UsedByStateCounts(s, norm);
    InStateCount(ws, norm);
  }

  lemma CandidatesFit(w: World, sh: Shell, issues: seq<Issue>, norm: string)
    ensures |RunningIn(Step(w, sh, EvCandidatesFetched(issues)).cur, norm)|
            <= Max(|RunningIn(sh.cur, norm)|, CapacityOf(norm, sh.cfg))
  {
    var ev := EvCandidatesFetched(issues);
    var r := Winners(sh.cur, issues, sh.cfg);
    StepUnfolds(w, sh, ev);
    WinnersClaim(sh.cur, issues, sh.cfg);
    WinnersSize(sh.cur, issues, sh.cfg, norm);
    var sh' := Folded(sh, ev, r.0);
    RevalidationsAdd(w, sh', r.1, norm, EventRank(ev));
    assert RunningIn(sh'.cur, norm) == RunningIn(sh.cur, norm);
    SubsetSize(RunningIn(ExecAll(w, sh', Revalidations(r.1), EventRank(ev)).cur, norm),
               RunningIn(sh.cur, norm) + InState(r.1, norm));
  }

  /** A dispatch pass, with all its revalidations and spawns, keeps every state within its cap. */
  lemma FreshDispatchFits(w: World, sh: Shell, norm: string)
    ensures |RunningIn(Exec(w, sh, EffFetchCandidates).cur, norm)|
            <= Max(|RunningIn(sh.cur, norm)|, CapacityOf(norm, sh.cfg))
  {
    if Wired(w) && w.candidates(|sh.trace|).Ok? {
      CandidatesFit(w, sh, w.candidates(|sh.trace|).value, norm);
    }
  }

  /** So does a retry, whatever becomes of it. */
  lemma RetryDispatchFits(w: World, sh: Shell, k: nat, cfg: Config, norm: string)
    requires k < |sh.fires|
    ensures |RunningIn(Handle(w, sh, RetryFire(k, Some(cfg))).cur, norm)|
            <= Max(|RunningIn(sh.cur, norm)|, CapacityOf(norm, cfg))
  {
    if Wired(w) {
      FireUnfolds(w, sh, k, cfg);
      VerdictFits(w, Firing(sh, k, cfg), sh.fires[k], FireVerdict(w, sh, k, cfg), FireEvent(w, sh, k), norm);
    } else {
      var req := sh.fires[k];
      var taken := sh.(fires := Without(sh.fires, k), timers := sh.timers - {req.id}, cfg := cfg, lastGood := cfg);
      ExecOne(w, Firing(sh, k, cfg), EffRetryFetch(req), EventRank(EvRetryDue(req)));
      assert Handle(w, sh, RetryFire(k, Some(cfg))) == Step(w, taken, EvRetryDue(req));
    }
  }

  lemma VerdictFits(w: World, sh: Shell, req: FireReq, v: Verdict, ev: Event, norm: string)
    requires ev.EvRetryResolved?
    requires Below(ActOnVerdict(sh.cur, req, v, sh.cfg, w.now(|sh.trace|)).1, EventRank(ev))
    requires v.Dispatch? ==> AvailablePerStateSlots(v.issue.state, sh.cur, sh.cfg) > 0
    ensures var r := ActOnVerdict(sh.cur, req, v, sh.cfg, w.now(|sh.trace|));
            |RunningIn(ExecAll(w, Folded(sh, ev, r.0), r.1, EventRank(ev)).cur, norm)|
            <= Max(|RunningIn(sh.cur, norm)|, CapacityOf(norm, sh.cfg))
  {
    var r := ActOnVerdict(sh.cur, req, v, sh.cfg, w.now(|sh.trace|));
    var sh' := Folded(sh, ev, r.0);
    var after := ExecAll(w, sh', r.1, EventRank(ev));
    if r.1 != [] {
      ExecOne(w, sh', r.1[0], EventRank(ev));
    }
    if v.Dispatch? && r.1 != [] {
      SpawnAddsOnly(w, sh', v.issue, req.attempt);
      var extra := if Lower(v.issue.state) == norm then {v.issue.id} else {};
      SubsetSize(RunningIn(after.cur, norm), RunningIn(sh.cur, norm) + extra);
    } else {
      SubsetSize(RunningIn(after.cur, norm), RunningIn(sh.cur, norm));
    }
  }

  /** A relabel by the tracker puts a second issue into a state capped at one. */
  lemma RelabelLifts(a: RunAttempt, b: RunAttempt, cfg: Config)
    requires a.issue.id == "a" && b.issue.id == "b" && a.issue.state == "review" && b.issue.state == "todo"
    requires cfg.byState == map["review" := 1] && cfg.active == ["review", "todo"] && cfg.terminal == []
    ensures var s := EMPTY_STATE.(running := map["a" := a, "b" := b], claimed := {"a", "b"});
            var s' := Reduce(s, EvTrackerRefreshed(["b"], [b.issue.(state := "review")]), cfg, 0).0;
            |RunningIn(s, "review")| == 1 == CapacityOf("review", cfg) && |RunningIn(s', "review")| == 2
  {
    var s := EMPTY_STATE.(running := map["a" := a, "b" := b], claimed := {"a", "b"});
    var relabeled := b.issue.(state := "review");
    assert SortIds(["b"]) == ["b"] by { assert ["b"][1..] == []; }
    assert Lower("review") == "review" && Lower("todo") == "todo";
    assert cfg.active[0] == "review";
    assert RefreshOne(s, "b", [relabeled], cfg, 0).0 == UpdateSnapshot(s, "b", relabeled);
    assert ["b"][1..] == [];
    assert RunningIn(s, "review") == {"a"};
    assert RunningIn(UpdateSnapshot(s, "b", relabeled), "review") == {"a", "b"};
  }
}
