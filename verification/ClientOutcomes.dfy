/** How spawns end and what becomes of them, over whole runs: which answers are true, which frame a closure belongs to,
    when it is held and when it is run. */
module ClientOutcomes {
  import opened ClientState
  import opened ClientSessions
  import opened ClientTeardown
  import opened ClientRuntime

  // ---- how a spawn ended ----------------------------------------------------

  /** The outcome of the frame's spawn, once it has ended. */
  ghost function Ended(steps: seq<Step>, f: Fid): Option<Outcome> {
    if steps == [] then None else
    var front, step := steps[..|steps| - 1], steps[|steps| - 1];
    if step.Ends? && step.frame == f && f in RunSteps(front).spawning then Some(step.outcome) else Ended(front, f)
  }

  /** Spawns waiting to be handled as complete came up, those waiting as failed did not. */
  ghost predicate SortedOut(steps: seq<Step>) {
    var rt := RunSteps(steps);
    && (forall f | f in rt.completed :: Ended(steps, f).Some? && Ended(steps, f).value.Up?)
    && (forall f | f in rt.failed :: Ended(steps, f).Some? && !Ended(steps, f).value.Up?)
  }

  predicate Fewer(rt: Runtime, rt': Runtime) {
    && (forall f | f in rt'.completed :: f in rt.completed && rt'.completed[f] == rt.completed[f])
    && (forall f | f in rt'.failed :: f in rt.failed)
  }

  /** Only the end of a spawn adds to what waits to be handled. */
  lemma OthersAddNone(rt: Runtime, step: Step)
    requires !step.Ends?
    ensures Fewer(rt, Apply(rt, step))
  {
    match step
    case Handle(ev) => DispatchFrame(rt, ev);
    case Completes(f, boot) =>
      if f in rt.completed {
        var spawn := rt.completed[f].spawn;
        StoreFrame(rt, f);
        DispatchFrame(Store(rt, f), EvSpawned(spawn.sid, f, spawn.conn, spawn.req, boot));
        DispatchFrame(Store(rt, f), EvSpawnFailed(f, spawn.conn, spawn.req));
      }
    case Fails(f) =>
      if f in rt.failed {
        DispatchFrame(rt.(failed := rt.failed - {f}), EvSpawnFailed(f, rt.failed[f].conn, rt.failed[f].req));
      }
  }

  lemma SpawningApart(steps: seq<Step>)
    ensures var rt := RunSteps(steps); rt.spawning.Keys !! rt.completed.Keys && rt.spawning.Keys !! rt.failed.Keys
  {
    RunOk(steps);
  }

  lemma {:induction false} RunSortedOut(steps: seq<Step>)
    ensures SortedOut(steps)
    decreases |steps|
  {
    if steps != [] {
      var front, step := steps[..|steps| - 1], steps[|steps| - 1];
      RunSortedOut(front);
      if step.Ends? {
        SpawningApart(front);
        if step.frame in RunSteps(front).spawning { EndsFrame(RunSteps(front), step.frame, step.outcome); }
      } else {
        OthersAddNone(RunSteps(front), step);
      }
    }
  }

  // ---- true answers ---------------------------------------------------------

  /** The step handles the end of the frame's spawn. */
  predicate Handles(rt: Runtime, step: Step, f: Fid) {
    (step.Completes? && step.frame == f && f in rt.completed) || (step.Fails? && step.frame == f && f in rt.failed)
  }

  /** Whether the frame came up and its session still had it when its spawn was handled. */
  ghost function Arrival(steps: seq<Step>, f: Fid): Option<bool> {
    if steps == [] then None else
    var front, step := steps[..|steps| - 1], steps[|steps| - 1];
    var rt := RunSteps(front);
    if !Handles(rt, step, f) then Arrival(front, f)
    else Some(Ended(front, f).Some? && Ended(front, f).value.Up? && f in rt.accepted
              && TargetAlive(rt.state, rt.accepted[f].sid, f))
  }

  lemma {:induction false} ArrivalIs(steps: seq<Step>, f: Fid)
    ensures Arrival(steps, f) == CameUp(steps, f)
    decreases |steps|
  {
    if steps != [] {
      var front := steps[..|steps| - 1];
      ArrivalIs(front, f);
      RunSortedOut(front);
      RunOk(front);
    }
  }

  /** Every answer is the truth: after any run a frame's answer says ok if and only if its spawn came up, not having
      failed, panicked or been refused, and its session still had the frame when the loop got to it. */
  lemma AnswersTrue(steps: seq<Step>, f: Fid)
    requires f != 0
    ensures Say(RepliesTo(RunSteps(steps).replies, f), Arrival(steps, f))
  {
    TruthfulAnswer(steps, f);
    ArrivalIs(steps, f);
  }

  // ---- whose closure it is --------------------------------------------------

  /** Whether a spawn that ends this way had acquired a closure. */
  predicate Holding(outcome: Outcome) {
    outcome == PanickedHolding || outcome == BackendRefused(true) || outcome == Up(true)
  }

  /** The frames whose spawns acquired the closures, in the order they were acquired. */
  ghost function Acquirers(steps: seq<Step>): seq<Fid> {
    if steps == [] then [] else
    var front, step := steps[..|steps| - 1], steps[|steps| - 1];
    Acquirers(front)
    + if step.Ends? && step.frame in RunSteps(front).spawning && Holding(step.outcome) then [step.frame] else []
  }

  lemma DispatchAcquired(rt: Runtime, ev: Event)
    ensures Dispatch(rt, ev).acquired == rt.acquired
  {
    var (next, effs) := Reduce(rt.state, ev);
    DispatchFrame(rt, ev);
    ExecAllAcquired(rt.(state := next), effs);
  }

  lemma {:induction false} ExecAllAcquired(rt: Runtime, effs: seq<Effect>)
    ensures ExecAll(rt, effs).acquired == rt.acquired
    decreases |effs|
  {
    if effs != [] { ExecAllAcquired(Exec(rt, effs[0]), effs[1..]); }
  }

  lemma {:induction false} ExecAllHeld(rt: Runtime, effs: seq<Effect>, f: Fid)
    ensures var rt' := ExecAll(rt, effs);
            && (f in rt'.cleanups <==> f in rt.cleanups && f !in Acted(effs, Release))
            && (f in rt'.cleanups ==> rt'.cleanups[f] == rt.cleanups[f])
    decreases |effs|
  {
    if effs != [] {
      ExecAllHeld(Exec(rt, effs[0]), effs[1..], f);
      assert f in Acted(effs, Release)
             <==> (effs[0].EffRelease? && effs[0].frame == f) || f in Acted(effs[1..], Release);
    }
  }

  /** A dispatch stops holding exactly the closures of the frames it releases. */
  lemma DispatchHolds(rt: Runtime, ev: Event, f: Fid)
    ensures var rt', effs := Dispatch(rt, ev), Reduce(rt.state, ev).1;
            && (f in rt'.cleanups <==> f in rt.cleanups && f !in Acted(effs, Release))
            && (f in rt'.cleanups ==> rt'.cleanups[f] == rt.cleanups[f])
  {
    var (next, effs) := Reduce(rt.state, ev);
    DispatchFrame(rt, ev);
    ExecAllHeld(rt.(state := next), effs, f);
  }

  lemma SpawnedReleasesNone(s: State, sid: Sid, f: Fid, conn: Conn, req: string, boot: Boot)
    requires Good(s)
    ensures Acted(Reduce(s, EvSpawned(sid, f, conn, req, boot)).1, Release) == []
  {
    SpawnedKeeps(s, sid, f, conn, req, boot);
    PlainActs(ReduceSpawned(s, sid, f, conn, req, boot).1, Release);
  }

  /** A completion whose frame is still there: its closure is held for that frame and not run, and all others stay
      where they are. */
  lemma CompleteHolds(rt: Runtime, f: Fid, boot: Boot, g: Fid)
    requires Good(rt.state) && f in rt.completed && TargetAlive(rt.state, rt.completed[f].spawn.sid, f)
    ensures var rt', own := Complete(rt, f, boot), rt.completed[f].cleanup;
            && (g in rt'.cleanups <==> g in rt.cleanups || (g == f && own.Some?))
            && (g in rt'.cleanups ==> rt'.cleanups[g] == if g == f && own.Some? then own.value else rt.cleanups[g])
  {
    var spawn := rt.completed[f].spawn;
    var ev := EvSpawned(spawn.sid, f, spawn.conn, spawn.req, boot);
    SpawnedReleasesNone(rt.state, spawn.sid, f, spawn.conn, spawn.req, boot);
    DispatchHolds(Store(rt, f), ev, g);
  }

  /** Every closure that is held, or on its way in a completion, was acquired by the spawn of the frame it is for; and
      as many were acquired as spawns ended holding one. */
  ghost predicate Owned(steps: seq<Step>) {
    var rt, who := RunSteps(steps), Acquirers(steps);
    && rt.acquired == |who|
    && (forall f | f in rt.cleanups :: rt.cleanups[f] < |who| && who[rt.cleanups[f]] == f)
    && (forall f | f in rt.completed && rt.completed[f].cleanup.Some? ::
          rt.completed[f].cleanup.value < |who| && who[rt.completed[f].cleanup.value] == f)
  }

  /** What a step other than the end of a spawn does to the closures held. */
  lemma OthersHold(rt: Runtime, step: Step, f: Fid)
    requires !step.Ends?
    ensures var rt' := Apply(rt, step);
            && rt'.acquired == rt.acquired
            && (f in rt'.cleanups ==>
                  || (f in rt.cleanups && rt'.cleanups[f] == rt.cleanups[f])
                  || (f in rt.completed && rt.completed[f].cleanup == Some(rt'.cleanups[f])))
  {
    match step
    case Handle(ev) =>
      DispatchAcquired(rt, ev);
      DispatchHolds(rt, ev, f);
    case Completes(g, boot) =>
      if g in rt.completed {
        var spawn := rt.completed[g].spawn;
        var up, gone := EvSpawned(spawn.sid, g, spawn.conn, spawn.req, boot), EvSpawnFailed(g, spawn.conn, spawn.req);
        DispatchAcquired(Store(rt, g), up);
        DispatchAcquired(Store(rt, g), gone);
        DispatchHolds(Store(rt, g), up, f);
        DispatchHolds(Store(rt, g), gone, f);
      }
    case Fails(g) =>
      if g in rt.failed {
        var ev := EvSpawnFailed(g, rt.failed[g].conn, rt.failed[g].req);
        DispatchAcquired(rt.(failed := rt.failed - {g}), ev);
        DispatchHolds(rt.(failed := rt.failed - {g}), ev, f);
      }
  }

  lemma EndsOwn(rt: Runtime, f: Fid, outcome: Outcome)
    requires f in rt.spawning
    ensures var rt' := SpawnEnds(rt, f, outcome);
            && rt'.acquired == rt.acquired + (if Holding(outcome) then 1 else 0) && rt'.cleanups == rt.cleanups
            && (outcome.Up? ==>
                  && f in rt'.completed
                  && rt'.completed[f].cleanup == (if Holding(outcome) then Some(rt.acquired) else None))
            && rt'.completed == if outcome.Up? then rt.completed[f := rt'.completed[f]] else rt.completed
  {
  }

  lemma {:induction false} RunOwned(steps: seq<Step>)
    ensures Owned(steps)
    decreases |steps|
  {
    if steps != [] {
      var front, step := steps[..|steps| - 1], steps[|steps| - 1];
      var rt := RunSteps(front);
      RunOwned(front);
      if step.Ends? {
        if step.frame in rt.spawning { EndsOwn(rt, step.frame, step.outcome); }
      } else {
        OthersAddNone(rt, step);
        OthersHold(rt, step, 0);
        forall f | f in RunSteps(steps).cleanups
          ensures var c := RunSteps(steps).cleanups[f]; c < |Acquirers(front)| && Acquirers(front)[c] == f
        {
          OthersHold(rt, step, f);
        }
      }
    }
  }
}
