/** Reconciliation issue by issue. The stall and refresh passes are loops over the whole state; here each is
    shown to treat every issue on its own, by a rule that looks at that issue only. */
module SchedulerReconcile {
  import opened SchedulerTypes
  import opened SchedulerReduce
  import Order
  import SchedulerStateCaps

  /** What the scheduler knows about one issue. */
  datatype Track = Track(run: Option<RunAttempt>, claimed: bool, retry: Option<RetryEntry>)

  const GONE := Track(None, false, None)

  function TrackOf(s: State, id: Id): Track {
    Track(if id in s.running then Some(s.running[id]) else None, id in s.claimed,
          if id in s.retries then Some(s.retries[id]) else None)
  }

  /** The effect, if it kills the issue's worker or arms its timer. */
  function About(eff: Effect, id: Id): seq<Effect> {
    if (eff.EffKillWorker? && eff.id == id) || (eff.EffArmRetryTimer? && eff.req.id == id) then [eff] else []
  }

  /** The kills and timers of one issue among the effects, in order. */
  function Concerning(effs: seq<Effect>, id: Id): seq<Effect> {
    if effs == [] then [] else About(effs[0], id) + Concerning(effs[1..], id)
  }

  lemma ConcerningTwo(e: Effect, f: Effect, id: Id)
    ensures Concerning([e, f], id) == About(e, id) + About(f, id)
  {
    assert [e, f][1..] == [f] && [f][1..] == [];
    assert Concerning([f], id) == About(f, id) + [] == About(f, id);
  }

  lemma {:induction false} ConcerningAppend(a: seq<Effect>, b: seq<Effect>, id: Id)
    ensures Concerning(a + b, id) == Concerning(a, id) + Concerning(b, id)
    decreases |a|
  {
    if a == [] {
      assert a + b == b;
    } else {
      assert (a + b)[1..] == a[1..] + b;
      ConcerningAppend(a[1..], b, id);
    }
  }

  /** Of two parts in a row, one of which does not concern the issue, the other is all that does. */
  lemma OnePart(a: seq<Effect>, b: seq<Effect>, id: Id)
    ensures Concerning(a, id) == [] ==> Concerning(a + b, id) == Concerning(b, id)
    ensures Concerning(b, id) == [] ==> Concerning(a + b, id) == Concerning(a, id)
  {
    ConcerningAppend(a, b, id);
  }

  // ---- the rules for one issue ----------------------------------------------

  /** The worker is killed; the issue keeps its claim and waits for its next attempt. */
  function Requeued(t: Track, id: Id, err: string, reason: string, cfg: Config, now: int): (Track, seq<Effect>)
    requires t.run.Some?
  {
    var next := t.run.value.attempt + 1;
    var identifier := t.run.value.issue.identifier;
    var delay := AfterBackoff(next, cfg.maxBackoffMs);
    (Track(None, t.claimed, Some(RetryEntry(id, identifier, next, Backoff, Some(err), now, delay))),
     [EffKillWorker(id, reason), EffArmRetryTimer(FireReq(id, identifier, next), delay)])
  }

  function StallRule(t: Track, id: Id, cfg: Config, now: int): (Track, seq<Effect>) {
    if t.run.Some? && Stalled(t.run.value, cfg, now) then Requeued(t, id, ERR_STALL, "stall", cfg, now) else (t, [])
  }

  /** Finished in the tracker: forgotten. Still active: relabelled. Anything else: requeued. */
  function RefreshRule(t: Track, id: Id, reported: Option<Issue>, cfg: Config, now: int): (Track, seq<Effect>) {
    if t.run.None? then (t, [])
    else if reported.None? then Requeued(t, id, ERR_NOT_IN_REFRESH, "not-found", cfg, now)
    else if Lower(reported.value.state) in NormSet(cfg.terminal) then (GONE, [EffKillWorker(id, "terminal")])
    else if Lower(reported.value.state) in NormSet(cfg.active) then
      (t.(run := Some(t.run.value.(issue := reported.value))), [])
    else Requeued(t, id, ERR_LEFT_ACTIVE, "non-active", cfg, now)
  }

  // ---- the passes -----------------------------------------------------------

  lemma KillRetryTrack(s: State, x: Id, err: string, reason: string, cfg: Config, now: int, id: Id)
    requires x in s.running
    ensures var r := KillRetry(s, x, s.running[x].attempt, err, reason, cfg, now);
            (TrackOf(r.0, id), Concerning(r.1, id))
            == if x == id then Requeued(TrackOf(s, id), id, err, reason, cfg, now) else (TrackOf(s, id), [])
  {
    var effs := KillRetry(s, x, s.running[x].attempt, err, reason, cfg, now).1;
    ConcerningTwo(effs[0], effs[1], id);
    assert effs == [effs[0], effs[1]];
  }

  lemma StallOneTrack(s: State, x: Id, cfg: Config, now: int, id: Id)
    ensures var r := StallOne(s, x, cfg, now);
            (TrackOf(r.0, id), Concerning(r.1, id))
            == if x == id then StallRule(TrackOf(s, id), id, cfg, now) else (TrackOf(s, id), [])
  {
    if x in s.running {
      KillRetryTrack(s, x, ERR_STALL, "stall", cfg, now, id);
    }
  }

  lemma {:induction false} StallAllTrack(s: State, ids: seq<Id>, cfg: Config, now: int, id: Id)
    ensures var r := StallAll(s, ids, cfg, now);
            (TrackOf(r.0, id), Concerning(r.1, id))
            == if id in ids then StallRule(TrackOf(s, id), id, cfg, now) else (TrackOf(s, id), [])
    decreases |ids|
  {
    if ids != [] {
      var (s1, e1) := StallOne(s, ids[0], cfg, now);
      StallOneTrack(s, ids[0], cfg, now, id);
      StallAllTrack(s1, ids[1..], cfg, now, id);
      OnePart(e1, StallAll(s1, ids[1..], cfg, now).1, id);
      assert id in ids <==> id == ids[0] || id in ids[1..];
    }
  }

  /** With a positive stall timeout every issue fares as StallRule says, whatever the others do; else nothing
      happens. */
  lemma StallByRule(s: State, cfg: Config, now: int, id: Id)
    ensures var r := ReduceStall(s, cfg, now);
            (TrackOf(r.0, id), Concerning(r.1, id))
            == if cfg.stallTimeoutMs > 0 then StallRule(TrackOf(s, id), id, cfg, now) else (TrackOf(s, id), [])
  {
    if cfg.stallTimeoutMs > 0 {
      Order.SortedIs(s.running.Keys);
      StallAllTrack(s, Order.Sorted(s.running.Keys), cfg, now, id);
    }
  }

  lemma TerminalEffects(x: Id, identifier: string, id: Id)
    ensures Concerning([EffKillWorker(x, "terminal"), EffRemoveWorkspace(identifier)], id)
            == if x == id then [EffKillWorker(x, "terminal")] else []
  {
    ConcerningTwo(EffKillWorker(x, "terminal"), EffRemoveWorkspace(identifier), id);
  }

  lemma ReleaseTrack(s: State, x: Id, id: Id)
    ensures TrackOf(ReleaseClaim(s, x), id) == if x == id then GONE else TrackOf(s, id)
  {
  }

  lemma RelabelTrack(s: State, x: Id, issue: Issue, id: Id)
    requires x in s.running
    ensures var t := TrackOf(s, id);
            TrackOf(UpdateSnapshot(s, x, issue), id)
            == if x == id then t.(run := Some(t.run.value.(issue := issue))) else t
  {
  }

  lemma RefreshOneTrack(s: State, x: Id, issues: seq<Issue>, cfg: Config, now: int, id: Id)
    ensures var r := RefreshOne(s, x, issues, cfg, now);
            (TrackOf(r.0, id), Concerning(r.1, id))
            == if x == id then RefreshRule(TrackOf(s, id), id, LastById(issues, id), cfg, now) else (TrackOf(s, id), [])
  {
    if x in s.running {
      var reported := LastById(issues, x);
      if reported.None? {
        KillRetryTrack(s, x, ERR_NOT_IN_REFRESH, "not-found", cfg, now, id);
      } else if Lower(reported.value.state) in NormSet(cfg.terminal) {
        ReleaseTrack(s, x, id);
        TerminalEffects(x, s.running[x].issue.identifier, id);
      } else if Lower(reported.value.state) in NormSet(cfg.active) {
        RelabelTrack(s, x, reported.value, id);
      } else {
        KillRetryTrack(s, x, ERR_LEFT_ACTIVE, "non-active", cfg, now, id);
      }
    }
  }

  lemma {:induction false} RefreshAllTrack(s: State, ids: seq<Id>, issues: seq<Issue>, cfg: Config, now: int, id: Id)
    ensures var r := RefreshAll(s, ids, issues, cfg, now);
            (TrackOf(r.0, id), Concerning(r.1, id))
            == if id in ids then RefreshRule(TrackOf(s, id), id, LastById(issues, id), cfg, now)
               else (TrackOf(s, id), [])
    decreases |ids|
  {
    if ids != [] {
      var (s1, e1) := RefreshOne(s, ids[0], issues, cfg, now);
      RefreshOneTrack(s, ids[0], issues, cfg, now, id);
      RefreshAllTrack(s1, ids[1..], issues, cfg, now, id);
      OnePart(e1, RefreshAll(s1, ids[1..], issues, cfg, now).1, id);
      assert id in ids <==> id == ids[0] || id in ids[1..];
    }
  }

  /** A requested issue fares as RefreshRule says of the last report about it, once, however often it was requested and
      whatever the others do; any other issue is left alone. */
  lemma RefreshByRule(s: State, requested: seq<Id>, issues: seq<Issue>, cfg: Config, now: int, id: Id)
    ensures var r := Reduce(s, EvTrackerRefreshed(requested, issues), cfg, now);
            (TrackOf(r.0, id), Concerning(r.1, id))
            == if id in requested then RefreshRule(TrackOf(s, id), id, LastById(issues, id), cfg, now)
               else (TrackOf(s, id), [])
  {
    RefreshAllTrack(s, SortIds(requested), issues, cfg, now, id);
    SchedulerStateCaps.SortIdsElements(requested, id);
  }

  // ---- last reports and workspaces ------------------------------------------

  /** The last of several reports about an issue counts. */
  lemma {:induction false} LastByIdIs(issues: seq<Issue>, id: Id, i: nat)
    requires i < |issues| && issues[i].id == id && forall j | i < j < |issues| :: issues[j].id != id
    ensures LastById(issues, id) == Some(issues[i])
    decreases |issues|
  {
    if i < |issues| - 1 {
      LastByIdIs(issues[..|issues| - 1], id, i);
    }
  }

  /** The issue runs and the tracker reports it finished. */
  predicate Finished(s: State, requested: seq<Id>, issues: seq<Issue>, cfg: Config, id: Id) {
    && id in requested && id in s.running && LastById(issues, id).Some?
    && Lower(LastById(issues, id).value.state) in NormSet(cfg.terminal)
  }

  lemma RefreshOneWorkspaces(s: State, id: Id, issues: seq<Issue>, cfg: Config, now: int, name: string)
    ensures EffRemoveWorkspace(name) in RefreshOne(s, id, issues, cfg, now).1
            <==> Finished(s, [id], issues, cfg, id) && s.running[id].issue.identifier == name
  {
    var effs := RefreshOne(s, id, issues, cfg, now).1;
    if Finished(s, [id], issues, cfg, id) {
      assert effs[1] == EffRemoveWorkspace(s.running[id].issue.identifier);
    }
  }

  lemma StillRunning(s: State, x: Id, issues: seq<Issue>, cfg: Config, now: int, id: Id)
    requires id != x
    ensures var s' := RefreshOne(s, x, issues, cfg, now).0;
            (id in s'.running <==> id in s.running) && (id in s.running ==> s'.running[id] == s.running[id])
  {
    RefreshOneTrack(s, x, issues, cfg, now, id);
    assert TrackOf(RefreshOne(s, x, issues, cfg, now).0, id).run == TrackOf(s, id).run;
  }

  lemma FinishedOnce(s: State, x: Id, issues: seq<Issue>, cfg: Config, now: int)
    requires Finished(s, [x], issues, cfg, x)
    ensures x !in RefreshOne(s, x, issues, cfg, now).0.running
  {
  }

  lemma FinishedRest(s: State, ids: seq<Id>, issues: seq<Issue>, cfg: Config, now: int, id: Id)
    requires ids != []
    ensures Finished(s, ids, issues, cfg, id)
            <==> (id == ids[0] && Finished(s, [id], issues, cfg, id))
                 || Finished(RefreshOne(s, ids[0], issues, cfg, now).0, ids[1..], issues, cfg, id)
  {
    var s1 := RefreshOne(s, ids[0], issues, cfg, now).0;
    assert id in ids <==> id == ids[0] || id in ids[1..];
    if id != ids[0] {
      StillRunning(s, ids[0], issues, cfg, now, id);
    }
  }

  lemma {:induction false} RefreshAllWorkspaces(s: State, ids: seq<Id>, issues: seq<Issue>, cfg: Config, now: int,
                                                name: string)
    ensures EffRemoveWorkspace(name) in RefreshAll(s, ids, issues, cfg, now).1
            <==> exists id :: Finished(s, ids, issues, cfg, id) && s.running[id].issue.identifier == name
    decreases |ids|
  {
    if ids != [] {
      var (s1, e1) := RefreshOne(s, ids[0], issues, cfg, now);
      var e2 := RefreshAll(s1, ids[1..], issues, cfg, now).1;
      RefreshOneWorkspaces(s, ids[0], issues, cfg, now, name);
      RefreshAllWorkspaces(s1, ids[1..], issues, cfg, now, name);
      forall id
        ensures Finished(s, ids, issues, cfg, id) && s.running[id].issue.identifier == name
                <==> (id == ids[0] && Finished(s, [id], issues, cfg, id) && s.running[id].issue.identifier == name)
                     || (Finished(s1, ids[1..], issues, cfg, id) && s1.running[id].issue.identifier == name)
      {
        FinishedRest(s, ids, issues, cfg, now, id);
        if id != ids[0] {
          StillRunning(s, ids[0], issues, cfg, now, id);
        }
      }
      if Finished(s, [ids[0]], issues, cfg, ids[0]) && s.running[ids[0]].issue.identifier == name {
        assert Finished(s, ids, issues, cfg, ids[0]) && s.running[ids[0]].issue.identifier == name;
      }
      assert EffRemoveWorkspace(name) in e1 + e2 <==> EffRemoveWorkspace(name) in e1 || EffRemoveWorkspace(name) in e2;
    }
  }

  /** A refresh removes the workspace of exactly the running issues it asked about that the tracker reports finished. */
  lemma WorkspacesExactly(s: State, requested: seq<Id>, issues: seq<Issue>, cfg: Config, now: int, name: string)
    ensures EffRemoveWorkspace(name) in Reduce(s, EvTrackerRefreshed(requested, issues), cfg, now).1
            <==> exists id :: Finished(s, requested, issues, cfg, id) && s.running[id].issue.identifier == name
  {
    RefreshAllWorkspaces(s, SortIds(requested), issues, cfg, now, name);
    forall id ensures Finished(s, SortIds(requested), issues, cfg, id) <==> Finished(s, requested, issues, cfg, id) {
      SchedulerStateCaps.SortIdsElements(requested, id);
    }
  }
}
