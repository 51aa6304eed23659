/** The client's event loop around the reducer: asynchronous spawns, sandbox cleanup closures,
    replies and persistence, under any interleaving, before shutdown. */
module ClientRuntime {
  import opened ClientState
  import opened ClientSessions
  import opened ClientTeardown

  /** A cleanup closure; numbered in the order they are acquired. */
  type Cid = nat

  /** A spawn under way and the request it answers to. */
  datatype Spawn = Spawn(sid: Sid, conn: Conn, req: string)

  datatype Completion = Completion(spawn: Spawn, cleanup: Option<Cid>)

  datatype Reply = Reply(conn: Conn, req: string, ok: bool, frame: Fid)

  /** `cleanups` is sandboxCleanups; `spawning`, `completed` and `failed` are spawns running, completions and failures
      not yet handled by the loop. `accepted`, `acquired`, `ran`, `lost` and `replies` record the history. */
  datatype Runtime = Runtime(
    state: State, store: map<Sid, Session>, cleanups: map<Fid, Cid>,
    spawning: map<Fid, Spawn>, completed: map<Fid, Completion>, failed: map<Fid, Spawn>,
    accepted: map<Fid, Spawn>, acquired: nat, ran: seq<Cid>, lost: set<Cid>, replies: seq<Reply>)

  const IDLE := Runtime(NEW, map[], map[], map[], map[], map[], map[], 0, [], {}, [])

  // ---- dispatch -------------------------------------------------------------

  function RunCleanup(rt: Runtime, f: Fid): Runtime {
    if f in rt.cleanups then rt.(ran := rt.ran + [rt.cleanups[f]], cleanups := rt.cleanups - {f}) else rt
  }

  function Exec(rt: Runtime, eff: Effect): Runtime {
    match eff
    case EffSpawn(sid, f, conn, req) =>
      rt.(spawning := rt.spawning[f := Spawn(sid, conn, req)], accepted := rt.accepted[f := Spawn(sid, conn, req)])
    case EffRelease(f) => RunCleanup(rt, f)
    case EffReply(conn, req, ok, f) => rt.(replies := rt.replies + [Reply(conn, req, ok, f)])
    case EffPersist => rt.(store := rt.store + rt.state.sessions)
    case _ => rt
  }

  function ExecAll(rt: Runtime, effs: seq<Effect>): Runtime
    decreases |effs|
  {
    if effs == [] then rt else ExecAll(Exec(rt, effs[0]), effs[1..])
  }

  /** reconcilePersist, by contents: nothing when the sessions are the same; else delete what is gone and save what is
      left. ClientLoop compares references, as the source does, and is proved to come to the same. */
  function Reconcile(rt: Runtime, prev: State): Runtime {
    if rt.state.sessions == prev.sessions then rt else
    var kept := rt.store - (prev.sessions.Keys - rt.state.sessions.Keys);
    rt.(store := if rt.state.sessions == map[] then kept else kept + rt.state.sessions)
  }

  /** What a dispatch does with the reducer's result. */
  function Settle(rt: Runtime, next: State, effs: seq<Effect>): Runtime {
    Reconcile(ExecAll(rt.(state := next), effs), rt.state)
  }

  ghost function Dispatch(rt: Runtime, ev: Event): Runtime {
    Settle(rt, Reduce(rt.state, ev).0, Reduce(rt.state, ev).1)
  }

  // ---- spawns ---------------------------------------------------------------

  /** How a spawn goroutine ends: before a closure was acquired, by a panic while holding one, with the backend
      refusing the frame, or with the frame up. `sandboxed` says whether there is a closure at all. */
  datatype Outcome = FailedEarly | PanickedHolding | BackendRefused(sandboxed: bool) | Up(sandboxed: bool)

  /** Whether a closure was acquired. */
  predicate Acquires(outcome: Outcome) {
    match outcome
    case FailedEarly => false
    case PanickedHolding => true
    case BackendRefused(sandboxed) => sandboxed
    case Up(sandboxed) => sandboxed
  }

  /** A refused frame's closure is run at once; a panic drops it; a completion carries it to the loop. */
  function SpawnEnds(rt: Runtime, f: Fid, outcome: Outcome): Runtime {
    if f !in rt.spawning then rt else
    var spawn := rt.spawning[f];
    var mine := if Acquires(outcome) then Some(rt.acquired) else None;
    rt.(spawning := rt.spawning - {f},
        failed := if outcome.Up? then rt.failed else rt.failed[f := spawn],
        completed := if outcome.Up? then rt.completed[f := Completion(spawn, mine)] else rt.completed,
        acquired := if mine.Some? then rt.acquired + 1 else rt.acquired,
        ran := if outcome.BackendRefused? && mine.Some? then rt.ran + [rt.acquired] else rt.ran,
        lost := if outcome.PanickedHolding? then rt.lost + {rt.acquired} else rt.lost)
  }

  predicate TargetAlive(s: State, sid: Sid, f: Fid) { sid in s.sessions && HasFrame(s.sessions[sid], f) }

  /** handleSpawnComplete, up to the event it dispatches: the closure is kept for a frame that is still there, and
      run for one that is gone. */
  function Store(rt: Runtime, f: Fid): Runtime
    requires f in rt.completed
  {
    var Completion(spawn, mine) := rt.completed[f];
    var alive := TargetAlive(rt.state, spawn.sid, f);
    rt.(completed := rt.completed - {f},
        cleanups := if mine.Some? && alive then rt.cleanups[f := mine.value] else rt.cleanups,
        ran := if mine.Some? && !alive then rt.ran + [mine.value] else rt.ran)
  }

  ghost function Complete(rt: Runtime, f: Fid, boot: Boot): Runtime {
    if f !in rt.completed then rt else
    var spawn := rt.completed[f].spawn;
    Dispatch(Store(rt, f),
      if TargetAlive(rt.state, spawn.sid, f) then EvSpawned(spawn.sid, f, spawn.conn, spawn.req, boot)
      else EvSpawnFailed(f, spawn.conn, spawn.req))
  }

  ghost function Failure(rt: Runtime, f: Fid): Runtime {
    if f !in rt.failed then rt else
    Dispatch(rt.(failed := rt.failed - {f}), EvSpawnFailed(f, rt.failed[f].conn, rt.failed[f].req))
  }

  /** Events that do not come from the spawn protocol. */
  type OutsideEvent = e: Event | !e.EvSpawned? && !e.EvSpawnFailed? witness EvVanished(0)

  datatype Step =
    | Handle(ev: OutsideEvent)
    | Ends(frame: Fid, outcome: Outcome)
    | Completes(frame: Fid, boot: Boot)
    | Fails(frame: Fid)

  ghost function Apply(rt: Runtime, step: Step): Runtime {
    match step
    case Handle(ev) => Dispatch(rt, ev)
    case Ends(f, outcome) => SpawnEnds(rt, f, outcome)
    case Completes(f, boot) => Complete(rt, f, boot)
    case Fails(f) => Failure(rt, f)
  }

  ghost function RunSteps(steps: seq<Step>): Runtime {
    if steps == [] then IDLE else Apply(RunSteps(steps[..|steps| - 1]), steps[|steps| - 1])
  }

  // ---- the invariant --------------------------------------------------------

  predicate Injective(m: map<Fid, Cid>) { forall a, b | a in m && b in m && m[a] == m[b] :: a == b }

  predicate NoRepeat(ids: seq<Cid>) { forall i, j | 0 <= i < j < |ids| :: ids[i] != ids[j] }

  predicate InCleanups(rt: Runtime, c: Cid) { exists f :: f in rt.cleanups && rt.cleanups[f] == c }

  predicate InCompleted(rt: Runtime, c: Cid) { exists f :: f in rt.completed && rt.completed[f].cleanup == Some(c) }

  predicate InRan(rt: Runtime, c: Cid) { c in rt.ran }

  predicate InLost(rt: Runtime, c: Cid) { c in rt.lost }

  /** Exactly one of four. */
  predicate One(a: bool, b: bool, c: bool, d: bool) {
    (a && !b && !c && !d) || (!a && b && !c && !d) || (!a && !b && c && !d) || (!a && !b && !c && d)
  }

  predicate Nowhere(rt: Runtime, c: Cid) {
    !InCleanups(rt, c) && !InCompleted(rt, c) && !InRan(rt, c) && !InLost(rt, c)
  }

  predicate Placed(rt: Runtime, c: Cid) {
    if c < rt.acquired then One(InCleanups(rt, c), InCompleted(rt, c), InRan(rt, c), InLost(rt, c)) else Nowhere(rt, c)
  }

  /** Every closure acquired is in exactly one place: held for a frame, held in an undelivered completion,
      run (once), or lost to a panic. */
  ghost predicate ClosuresOk(rt: Runtime) {
    && (forall c: Cid :: Placed(rt, c))
    && Injective(rt.cleanups) && NoRepeat(rt.ran)
    && (forall a, b | a in rt.completed && b in rt.completed && rt.completed[a].cleanup.Some?
                      && rt.completed[a].cleanup == rt.completed[b].cleanup :: a == b)
  }

  /** Spawns accepted and not yet answered. */
  function Pending(rt: Runtime): set<Fid> { rt.spawning.Keys + rt.completed.Keys + rt.failed.Keys }

  predicate PhasesOk(rt: Runtime) {
    Phases(rt.accepted, rt.spawning, rt.completed, rt.failed, rt.cleanups.Keys, rt.state.nextId)
  }

  /** A frame's spawn is in one phase, for the request that was accepted; closures are kept for delivered frames. */
  predicate Phases(accepted: map<Fid, Spawn>, spawning: map<Fid, Spawn>, completed: map<Fid, Completion>,
                   failed: map<Fid, Spawn>, held: set<Fid>, nextId: nat) {
    && (forall f | f in accepted :: 0 < f < nextId)
    && spawning.Keys !! completed.Keys && spawning.Keys !! failed.Keys && completed.Keys !! failed.Keys
    && (forall f | f in spawning :: f in accepted && spawning[f] == accepted[f])
    && (forall f | f in completed :: f in accepted && completed[f].spawn == accepted[f])
    && (forall f | f in failed :: f in accepted && failed[f] == accepted[f])
    && (forall f | f in held :: f in accepted && f !in spawning && f !in completed && f !in failed)
  }

  function RepliesTo(replies: seq<Reply>, f: Fid): seq<Reply> {
    if replies == [] then [] else
    RepliesTo(replies[..|replies| - 1], f)
    + (if replies[|replies| - 1].frame == f then [replies[|replies| - 1]] else [])
  }

  /** One answer, for the request the frame was accepted for; none when nobody asked. */
  predicate Answered(rs: seq<Reply>, spawn: Spawn) {
    if spawn.conn == 0 then rs == [] else |rs| == 1 && rs[0].conn == spawn.conn && rs[0].req == spawn.req
  }

  predicate RepliesOk(rt: Runtime) { ReplyFramesOk(rt) && Answers(rt.replies, rt.accepted, Pending(rt)) }

  /** Every answer is for an accepted frame or for none. */
  predicate ReplyFramesOk(rt: Runtime) {
    forall k | 0 <= k < |rt.replies| :: rt.replies[k].frame == 0 || rt.replies[k].frame in rt.accepted
  }

  /** Pending spawns have no answer yet; every other accepted one has exactly one. */
  predicate Answers(replies: seq<Reply>, accepted: map<Fid, Spawn>, pending: set<Fid>) {
    forall f | f in accepted :: AnswerFits(RepliesTo(replies, f), accepted[f], f in pending)
  }

  predicate AnswerFits(rs: seq<Reply>, spawn: Spawn, pending: bool) {
    if pending then rs == [] else Answered(rs, spawn)
  }

  /** What every dispatch keeps. */
  ghost predicate Steady(rt: Runtime) {
    && Good(rt.state) && rt.store == rt.state.sessions && rt.cleanups.Keys <= Live(rt.state)
    && ClosuresOk(rt) && PhasesOk(rt)
  }

  ghost predicate RuntimeOk(rt: Runtime) { Steady(rt) && RepliesOk(rt) }

  // ---- what an event asks for -----------------------------------------------

  function Spawned(effs: seq<Effect>): seq<Fid> {
    if effs == [] then [] else (if effs[0].EffSpawn? then [effs[0].frame] else []) + Spawned(effs[1..])
  }

  function RepliesIn(effs: seq<Effect>, f: Fid): seq<Reply> {
    if effs == [] then [] else
    ReplyIn(effs[0], f) + RepliesIn(effs[1..], f)
  }

  lemma {:induction false} SpawnedAppend(a: seq<Effect>, b: seq<Effect>)
    ensures Spawned(a + b) == Spawned(a) + Spawned(b)
    decreases |a|
  {
    if a == [] {
      assert a + b == b;
    } else {
      assert (a + b)[0] == a[0] && (a + b)[1..] == a[1..] + b;
      SpawnedAppend(a[1..], b);
    }
  }

  lemma {:induction false} RepliesInAppend(a: seq<Effect>, b: seq<Effect>, f: Fid)
    ensures RepliesIn(a + b, f) == RepliesIn(a, f) + RepliesIn(b, f)
    decreases |a|
  {
    if a == [] {
      assert a + b == b;
    } else {
      assert (a + b)[0] == a[0] && (a + b)[1..] == a[1..] + b;
      RepliesInAppend(a[1..], b, f);
    }
  }

  /** Effects that spawn nothing. */
  predicate NoSpawns(effs: seq<Effect>) { forall k | 0 <= k < |effs| :: !effs[k].EffSpawn? }

  /** Effects that answer no spawn. */
  predicate NoAnswers(effs: seq<Effect>) { forall k | 0 <= k < |effs| && effs[k].EffReply? :: effs[k].frame == 0 }

  lemma {:induction false} NoneSpawned(effs: seq<Effect>)
    requires NoSpawns(effs)
    ensures Spawned(effs) == []
    decreases |effs|
  {
    if effs != [] { NoneSpawned(effs[1..]); }
  }

  lemma {:induction false} NoneAnswered(effs: seq<Effect>, f: Fid)
    requires NoAnswers(effs) && f != 0
    ensures RepliesIn(effs, f) == []
    decreases |effs|
  {
    if effs != [] { NoneAnswered(effs[1..], f); }
  }

  /** New frames are numbered from the old counter on, each spawned once. */
  predicate FreshSpawns(s: State, s': State, effs: seq<Effect>) {
    && s.nextId <= s'.nextId
    && (forall i | 0 <= i < |Spawned(effs)| :: s.nextId <= Spawned(effs)[i] < s'.nextId)
    && Distinct(Spawned(effs))
  }

  lemma QuietSpawns(s: State, s': State, effs: seq<Effect>)
    requires NoSpawns(effs) && s'.nextId == s.nextId
    ensures FreshSpawns(s, s', effs)
  {
    NoneSpawned(effs);
  }

  lemma {:induction false} TeardownQuiet(ids: seq<Fid>, kill: bool)
    ensures NoSpawns(TeardownAll(ids, kill)) && NoAnswers(TeardownAll(ids, kill))
    decreases |ids|
  {
    if ids != [] { TeardownQuiet(ids[1..], kill); }
  }

  lemma EvictQuiet(s: State, f: Fid, kill: bool)
    ensures NoSpawns(Evict(s, f, kill).1) && NoAnswers(Evict(s, f, kill).1) && Evict(s, f, kill).0.nextId == s.nextId
  {
    if Alive(s, f) { TeardownQuiet(Ids(s.sessions[Owner(s, f)].frames), kill); }
  }

  lemma {:induction false} PostProcessQuiet(s: State, sid: Sid, f: Fid, raw: seq<Raw>)
    ensures var r := PostProcess(s, sid, f, raw); NoSpawns(r.1) && NoAnswers(r.1) && r.0.nextId == s.nextId
    decreases |raw|
  {
    if raw != [] {
      var s1 := if raw[0].StartJob?
                then s.(nextJob := s.nextJob + 1, jobs := s.jobs[s.nextJob + 1 := Job(f, raw[0].kind)])
                else s;
      PostProcessQuiet(s1, sid, f, raw[1..]);
    }
  }

  lemma StepDriverQuiet(s: State, dr: Drive)
    requires StepDriver(s, dr).Some?
    ensures var r := StepDriver(s, dr).value; NoSpawns(r.1) && NoAnswers(r.1) && r.0.nextId == s.nextId
  {
    var sid := Owner(s, dr.frame);
    var sess := s.sessions[sid];
    var i := IndexIn(sess.frames, dr.frame);
    var r := DriverStep(sess.frames[i].driver, i == 0, dr);
    PostProcessQuiet(PutSession(s, sid, SetDriver(sess, i, r.0)), sid, dr.frame, r.1);
  }

  lemma {:induction false} StepDriversQuiet(s: State, drives: seq<Drive>)
    ensures var r := StepDrivers(s, drives); NoSpawns(r.1) && NoAnswers(r.1) && r.0.nextId == s.nextId
    decreases |drives|
  {
    if drives != [] {
      var r := StepDriver(s, drives[0]);
      if r.Some? {
        StepDriverQuiet(s, drives[0]);
        StepDriversQuiet(r.value.0, drives[1..]);
      } else {
        StepDriversQuiet(s, drives[1..]);
      }
    }
  }

  lemma {:induction false} ResolveFresh(s: State, effs: seq<Effect>)
    requires NoSpawns(effs) && NoAnswers(effs)
    ensures FreshSpawns(s, ResolvePushes(s, effs).0, ResolvePushes(s, effs).1) && NoAnswers(ResolvePushes(s, effs).1)
    decreases |effs|
  {
    if effs != [] {
      if !effs[0].EffPushDriver? {
        ResolveFresh(s, effs[1..]);
        var rest := ResolvePushes(s, effs[1..]).1;
        assert ([effs[0]] + rest)[1..] == rest;
      } else if effs[0].launch.Launched? && effs[0].sid in s.sessions {
        var p := PushFrame(s, effs[0].sid, effs[0].launch.plan, 0, "");
        ResolveFresh(p.0, effs[1..]);
        var rest := ResolvePushes(p.0, effs[1..]).1;
        assert (p.1 + rest)[0] == p.1[0] && (p.1 + rest)[1..] == rest;
      } else {
        ResolveFresh(s, effs[1..]);
      }
    }
  }

  lemma FreshPlus(s: State, s': State, effs: seq<Effect>, tail: seq<Effect>)
    requires FreshSpawns(s, s', effs) && NoSpawns(tail)
    ensures FreshSpawns(s, s', effs + tail)
  {
    SpawnedAppend(effs, tail);
    NoneSpawned(tail);
    assert Spawned(effs) + [] == Spawned(effs);
  }

  lemma DriveFresh(s: State, f: Fid, note: Note, drives: seq<OutsideDrive>, resolves: bool, persists: bool)
    ensures var r := ReduceDrive(s, f, note, drives, resolves, persists); FreshSpawns(s, r.0, r.1) && NoAnswers(r.1)
  {
    var s1 := Annotate(s, f, note);
    var r := StepDrivers(s1, drives);
    StepDriversQuiet(s1, drives);
    ResolveFresh(r.0, r.1);
    QuietSpawns(s, r.0, r.1);
    var r' := if resolves then ResolvePushes(r.0, r.1) else r;
    FreshPlus(s, r'.0, r'.1, if persists then [EffPersist, EffBroadcast] else []);
  }

  lemma ExitedFresh(s: State, dr: Drive, code: int)
    ensures var r := ReduceExited(s, dr, code); FreshSpawns(s, r.0, r.1) && NoAnswers(r.1)
  {
    var st := StepDriver(s, dr.(stimulus := CommandExit));
    EvictQuiet(s, dr.frame, true);
    if st.Some? { StepDriverQuiet(s, dr.(stimulus := CommandExit)); }
    QuietSpawns(s, ReduceExited(s, dr, code).0, ReduceExited(s, dr, code).1);
  }

  lemma JobResultFresh(s: State, job: JobId, raw: seq<Raw>, stops: bool)
    ensures var r := ReduceJobResult(s, job, raw, stops); FreshSpawns(s, r.0, r.1) && NoAnswers(r.1)
  {
    var r := ReduceJobResult(s, job, raw, stops);
    if job in s.jobs {
      var s1 := s.(jobs := s.jobs - {job});
      var dr := Drive(s.jobs[job].frame, Result(s.jobs[job].kind), raw, stops);
      if StepDriver(s1, dr).Some? { StepDriverQuiet(s1, dr); }
    }
    QuietSpawns(s, r.0, r.1);
  }

  lemma OneSpawn(s: State, s': State, eff: Effect)
    requires eff.EffSpawn? && s.nextId <= eff.frame < s'.nextId
    ensures FreshSpawns(s, s', [eff]) && NoAnswers([eff])
  {
    assert [eff][1..] == [];
  }

  lemma StopFresh(s: State, conn: Conn, req: string, sid: Sid)
    ensures var r := ReduceStop(s, conn, req, sid); FreshSpawns(s, r.0, r.1) && NoAnswers(r.1)
  {
    if sid in s.sessions { TeardownQuiet(Ids(s.sessions[sid].frames), true); }
    QuietSpawns(s, ReduceStop(s, conn, req, sid).0, ReduceStop(s, conn, req, sid).1);
  }

  /** An event from outside the spawn protocol spawns only new frames and answers no earlier spawn. */
  lemma OutsideFresh(s: State, ev: OutsideEvent)
    requires Good(s)
    ensures FreshSpawns(s, Reduce(s, ev).0, Reduce(s, ev).1) && NoAnswers(Reduce(s, ev).1)
  {
    var r := Reduce(s, ev);
    match ev
    case EvCreate(conn, req, project, launch) =>
      if project != "" && launch.Launched? { OneSpawn(s, r.0, r.1[0]); } else { QuietSpawns(s, r.0, r.1); }
    case EvFork(conn, req, sid, launch) =>
      if sid in s.sessions && launch.Launched? { OneSpawn(s, r.0, r.1[0]); } else { QuietSpawns(s, r.0, r.1); }
    case EvPush(conn, req, sid, launch) =>
      if sid in s.sessions && launch.Launched? { OneSpawn(s, r.0, r.1[0]); } else { QuietSpawns(s, r.0, r.1); }
    case EvStop(conn, req, sid) => StopFresh(s, conn, req, sid);
    case EvSetHead(_, _, _, _) => QuietSpawns(s, r.0, r.1);
    case EvVanished(f) =>
      EvictQuiet(s, f, false);
      QuietSpawns(s, r.0, r.1);
    case EvExited(dr, code) => ExitedFresh(s, dr, code);
    case EvDrive(f, note, drives, resolves, persists) => DriveFresh(s, f, note, drives, resolves, persists);
    case EvJobResult(job, raw, stops) => JobResultFresh(s, job, raw, stops);
  }

  lemma AnswerLast(effs: seq<Effect>, conn: Conn, req: string, ok: bool, f: Fid, g: Fid)
    requires NoAnswers(effs) && g != 0
    ensures RepliesIn(effs + ReplyTo(conn, req, ok, f), g)
            == if g == f && conn != 0 then [Reply(conn, req, ok, f)] else []
  {
    var last := ReplyTo(conn, req, ok, f);
    RepliesInAppend(effs, last, g);
    NoneAnswered(effs, g);
    assert last != [] ==> last[1..] == [];
  }

  lemma SpawnedQuiet(s: State, sid: Sid, f: Fid, boot: Boot)
    requires TargetAlive(s, sid, f)
    ensures var r := Arrived(s, sid, f, boot); NoSpawns(r.1) && NoAnswers(r.1) && r.0.nextId == s.nextId
  {
    var s1 := Prepared(s, f, boot);
    var dr := Drive(f, Elsewhere, boot.raw, boot.stops);
    PreparedCounters(s, f, boot);
    if StepDriver(s1, dr).Some? { StepDriverQuiet(s1, dr); }
  }

  /** A finished spawn spawns nothing and is answered once. */
  lemma SpawnedAnswers(s: State, sid: Sid, f: Fid, conn: Conn, req: string, boot: Boot, g: Fid)
    requires TargetAlive(s, sid, f) && g != 0
    ensures var r := ReduceSpawned(s, sid, f, conn, req, boot);
            FreshSpawns(s, r.0, r.1)
            && RepliesIn(r.1, g) == if g == f && conn != 0 then [Reply(conn, req, true, f)] else []
  {
    var r := ReduceSpawned(s, sid, f, conn, req, boot);
    SpawnedQuiet(s, sid, f, boot);
    AnswerLast(Arrived(s, sid, f, boot).1 + [EffRegister(f), EffPersist, EffBroadcast], conn, req, true, f, g);
    QuietSpawns(s, r.0, r.1);
  }

  lemma FailedAnswers(s: State, f: Fid, conn: Conn, req: string, g: Fid)
    requires g != 0
    ensures var r := ReduceSpawnFailed(s, f, conn, req);
            FreshSpawns(s, r.0, r.1)
            && RepliesIn(r.1, g) == if g == f && conn != 0 then [Reply(conn, req, false, f)] else []
  {
    EvictQuiet(s, f, false);
    AnswerLast(Evict(s, f, false).1, conn, req, false, f, g);
    QuietSpawns(s, ReduceSpawnFailed(s, f, conn, req).0, ReduceSpawnFailed(s, f, conn, req).1);
  }

  // ---- executing effects ----------------------------------------------------

  lemma RunCleanupClosures(rt: Runtime, f: Fid)
    requires ClosuresOk(rt)
    ensures ClosuresOk(RunCleanup(rt, f))
  {
    if f in rt.cleanups {
      var c := rt.cleanups[f];
      assert InCleanups(rt, c) && Placed(rt, c);
      forall x: Cid ensures Placed(RunCleanup(rt, f), x) {
        assert Placed(rt, x);
        CleanupTaken(rt, f, x);
      }
    }
  }

  lemma CleanupTaken(rt: Runtime, f: Fid, x: Cid)
    requires Injective(rt.cleanups) && f in rt.cleanups
    ensures InCleanups(RunCleanup(rt, f), x) <==> InCleanups(rt, x) && x != rt.cleanups[f]
    ensures InRan(RunCleanup(rt, f), x) <==> InRan(rt, x) || x == rt.cleanups[f]
    ensures InCompleted(RunCleanup(rt, f), x) <==> InCompleted(rt, x)
  {
    var rt' := RunCleanup(rt, f);
    if InCleanups(rt, x) && x != rt.cleanups[f] {
      var g :| g in rt.cleanups && rt.cleanups[g] == x;
      assert g in rt'.cleanups && rt'.cleanups[g] == x;
    }
    if InCleanups(rt', x) {
      var g :| g in rt'.cleanups && rt'.cleanups[g] == x;
      assert g in rt.cleanups && rt.cleanups[g] == x;
    }
  }

  /** The closures do not depend on anything else. */
  lemma SameClosures(rt: Runtime, rt': Runtime)
    requires ClosuresOk(rt) && rt'.cleanups == rt.cleanups && rt'.completed == rt.completed
    requires rt'.ran == rt.ran && rt'.lost == rt.lost && rt'.acquired == rt.acquired
    ensures ClosuresOk(rt')
  {
    forall c: Cid ensures Placed(rt', c) {
      assert Placed(rt, c);
    }
  }

  lemma ExecClosures(rt: Runtime, eff: Effect)
    requires ClosuresOk(rt)
    ensures ClosuresOk(Exec(rt, eff))
  {
    if eff.EffRelease? {
      RunCleanupClosures(rt, eff.frame);
    } else {
      SameClosures(rt, Exec(rt, eff));
    }
  }

  lemma {:induction false} ExecAllClosures(rt: Runtime, effs: seq<Effect>)
    requires ClosuresOk(rt)
    ensures ClosuresOk(ExecAll(rt, effs))
    decreases |effs|
  {
    if effs != [] {
      ExecClosures(rt, effs[0]);
      ExecAllClosures(Exec(rt, effs[0]), effs[1..]);
    }
  }

  /** What executing effects leaves alone. */
  lemma {:induction false} ExecAllFrame(rt: Runtime, effs: seq<Effect>)
    ensures var rt' := ExecAll(rt, effs);
            rt'.state == rt.state && rt'.completed == rt.completed && rt'.failed == rt.failed
    decreases |effs|
  {
    if effs != [] { ExecAllFrame(Exec(rt, effs[0]), effs[1..]); }
  }

  lemma SaveTwice(store: map<Sid, Session>, sessions: map<Sid, Session>)
    ensures store + sessions + sessions == store + sessions
  {
  }

  lemma ExecStore(rt: Runtime, eff: Effect)
    ensures Exec(rt, eff).state == rt.state
    ensures Exec(rt, eff).store == rt.store || Exec(rt, eff).store == rt.store + rt.state.sessions
  {
  }

  lemma {:induction false} ExecAllStore(rt: Runtime, effs: seq<Effect>)
    ensures var rt' := ExecAll(rt, effs); rt'.store == rt.store || rt'.store == rt.store + rt.state.sessions
    decreases |effs|
  {
    if effs != [] {
      ExecStore(rt, effs[0]);
      SaveTwice(rt.store, rt.state.sessions);
      ExecAllStore(Exec(rt, effs[0]), effs[1..]);
    }
  }

  lemma {:induction false} ExecAllCleanups(rt: Runtime, effs: seq<Effect>)
    ensures ExecAll(rt, effs).cleanups.Keys == rt.cleanups.Keys - AsSet(Acted(effs, Release))
    decreases |effs|
  {
    if effs != [] {
      ExecCleanups(rt, effs[0]);
      ExecAllCleanups(Exec(rt, effs[0]), effs[1..]);
      ReleasedRest(effs);
    }
  }

  lemma ExecCleanups(rt: Runtime, eff: Effect)
    ensures Exec(rt, eff).cleanups.Keys == rt.cleanups.Keys - if eff.EffRelease? then {eff.frame} else {}
  {
  }

  lemma ReleasedRest(effs: seq<Effect>)
    requires effs != []
    ensures AsSet(Acted(effs, Release))
            == (if effs[0].EffRelease? then {effs[0].frame} else {}) + AsSet(Acted(effs[1..], Release))
  {
    var head := if effs[0].EffRelease? then [effs[0].frame] else [];
    AsSetAppend(head, Acted(effs[1..], Release));
    assert AsSet(head) == if effs[0].EffRelease? then {effs[0].frame} else {} by {
      if effs[0].EffRelease? { assert head[0] == effs[0].frame; }
    }
  }

  lemma AsSetAppend(a: seq<Fid>, b: seq<Fid>)
    ensures AsSet(a + b) == AsSet(a) + AsSet(b)
  {
    forall x | x in AsSet(a) + AsSet(b) ensures x in AsSet(a + b) {
      if x in AsSet(a) {
        var i :| 0 <= i < |a| && a[i] == x;
        assert (a + b)[i] == x;
      } else {
        var i :| 0 <= i < |b| && b[i] == x;
        assert (a + b)[|a| + i] == x;
      }
    }
  }

  lemma RepliesToSnoc(rs: seq<Reply>, r: Reply, f: Fid)
    ensures RepliesTo(rs + [r], f) == RepliesTo(rs, f) + if r.frame == f then [r] else []
  {
    assert (rs + [r])[..|rs|] == rs;
  }

  function ReplyIn(eff: Effect, f: Fid): seq<Reply> {
    if eff.EffReply? && eff.frame == f then [Reply(eff.conn, eff.req, eff.ok, f)] else []
  }

  lemma ExecReply(rt: Runtime, eff: Effect, f: Fid)
    ensures RepliesTo(Exec(rt, eff).replies, f) == RepliesTo(rt.replies, f) + ReplyIn(eff, f)
  {
    if eff.EffReply? {
      RepliesToSnoc(rt.replies, Reply(eff.conn, eff.req, eff.ok, eff.frame), f);
    }
  }

  lemma ReplyAssociates(a: seq<Reply>, b: seq<Reply>, c: seq<Reply>)
    ensures (a + b) + c == a + (b + c)
  {
  }

  lemma {:induction false} ExecAllReplies(rt: Runtime, effs: seq<Effect>, f: Fid)
    ensures RepliesTo(ExecAll(rt, effs).replies, f) == RepliesTo(rt.replies, f) + RepliesIn(effs, f)
    decreases |effs|
  {
    if effs != [] {
      ExecReply(rt, effs[0], f);
      ExecAllReplies(Exec(rt, effs[0]), effs[1..], f);
      ReplyAssociates(RepliesTo(rt.replies, f), ReplyIn(effs[0], f), RepliesIn(effs[1..], f));
    }
  }

  predicate AnswersWithin(effs: seq<Effect>, frames: set<Fid>) {
    forall k | 0 <= k < |effs| && effs[k].EffReply? :: effs[k].frame == 0 || effs[k].frame in frames
  }

  lemma {:induction false} ExecAllReplyFrames(rt: Runtime, effs: seq<Effect>)
    requires ReplyFramesOk(rt) && AnswersWithin(effs, rt.accepted.Keys)
    ensures ReplyFramesOk(ExecAll(rt, effs))
    decreases |effs|
  {
    if effs != [] { ExecAllReplyFrames(Exec(rt, effs[0]), effs[1..]); }
  }

  /** The added frames are accepted and spawning, and nothing else about spawns changes. */
  predicate Grown(rt: Runtime, rt': Runtime, added: set<Fid>) {
    && rt'.spawning.Keys == rt.spawning.Keys + added && rt'.accepted.Keys == rt.accepted.Keys + added
    && (forall f | f in rt.accepted :: rt'.accepted[f] == rt.accepted[f])
    && (forall f | f in rt.spawning :: rt'.spawning[f] == rt.spawning[f])
    && (forall f | f in added :: rt'.spawning[f] == rt'.accepted[f])
  }

  lemma GrownTwice(a: Runtime, b: Runtime, c: Runtime, x: set<Fid>, y: set<Fid>)
    requires Grown(a, b, x) && Grown(b, c, y)
    ensures Grown(a, c, x + y)
  {
  }

  lemma ExecGrows(rt: Runtime, eff: Effect)
    requires eff.EffSpawn? ==> eff.frame !in rt.accepted && eff.frame !in rt.spawning
    ensures Grown(rt, Exec(rt, eff), if eff.EffSpawn? then {eff.frame} else {})
  {
  }

  lemma {:induction false} ExecAllSpawns(rt: Runtime, effs: seq<Effect>)
    requires Distinct(Spawned(effs)) && AsSet(Spawned(effs)) !! rt.accepted.Keys && rt.spawning.Keys <= rt.accepted.Keys
    ensures Grown(rt, ExecAll(rt, effs), AsSet(Spawned(effs)))
    decreases |effs|
  {
    if effs != [] {
      var rest := Spawned(effs[1..]);
      var head := if effs[0].EffSpawn? then [effs[0].frame] else [];
      AsSetAppend(head, rest);
      HeadApart(head, rest);
      assert AsSet(head) == if effs[0].EffSpawn? then {effs[0].frame} else {} by {
        if effs[0].EffSpawn? { assert head[0] == effs[0].frame; }
      }
      ExecGrows(rt, effs[0]);
      ExecAllSpawns(Exec(rt, effs[0]), effs[1..]);
      GrownTwice(rt, Exec(rt, effs[0]), ExecAll(rt, effs), AsSet(head), AsSet(rest));
    }
  }

  lemma HeadApart(head: seq<Fid>, rest: seq<Fid>)
    requires Distinct(head + rest)
    ensures AsSet(head) !! AsSet(rest) && Distinct(rest)
  {
    var all := head + rest;
    assert forall k | 0 <= k < |rest| :: all[|head| + k] == rest[k];
    assert forall k | 0 <= k < |head| :: all[k] == head[k];
  }

  lemma GrownPhases(rt: Runtime, rt': Runtime, added: set<Fid>)
    requires PhasesOk(rt) && Grown(rt, rt', added) && rt'.completed == rt.completed && rt'.failed == rt.failed
    requires rt'.cleanups.Keys <= rt.cleanups.Keys && 0 < rt.state.nextId <= rt'.state.nextId
    requires forall f | f in added :: rt.state.nextId <= f < rt'.state.nextId
    ensures PhasesOk(rt') && Pending(rt') == Pending(rt) + added && added !! rt.accepted.Keys && 0 !in added
  {
  }

  // ---- dispatch -------------------------------------------------------------

  lemma ReconcileStore(store: map<Sid, Session>, prev: map<Sid, Session>, next: map<Sid, Session>)
    requires store == prev || store == prev + next
    ensures var kept := store - (prev.Keys - next.Keys); (next == map[] ==> kept == next) && kept + next == next
  {
    var kept := store - (prev.Keys - next.Keys);
    assert kept.Keys <= next.Keys;
    assert (kept + next).Keys == next.Keys;
  }

  /** After effects that saved the new sessions or not, reconciling leaves exactly the new sessions stored. */
  lemma ReconcileIs(rt: Runtime, prev: State)
    requires rt.store == prev.sessions || rt.store == prev.sessions + rt.state.sessions
    ensures Reconcile(rt, prev) == rt.(store := rt.state.sessions)
  {
    ReconcileStore(rt.store, prev.sessions, rt.state.sessions);
    assert prev.sessions == rt.state.sessions ==> prev.sessions + rt.state.sessions == prev.sessions;
  }

  lemma SettleStore(rt: Runtime, next: State, effs: seq<Effect>)
    requires rt.store == rt.state.sessions
    ensures Settle(rt, next, effs).store == Settle(rt, next, effs).state.sessions
  {
    var rt1 := rt.(state := next);
    ExecAllStore(rt1, effs);
    ExecAllFrame(rt1, effs);
    ReconcileIs(ExecAll(rt1, effs), rt.state);
  }

  /** Persistence: the store is exactly the sessions in memory again. */
  lemma DispatchStore(rt: Runtime, ev: Event)
    requires rt.store == rt.state.sessions
    ensures Dispatch(rt, ev).store == Dispatch(rt, ev).state.sessions
  {
    SettleStore(rt, Reduce(rt.state, ev).0, Reduce(rt.state, ev).1);
  }

  lemma DispatchCleanups(rt: Runtime, ev: Event)
    requires Good(rt.state) && rt.cleanups.Keys <= Live(rt.state)
    ensures Dispatch(rt, ev).cleanups.Keys <= Live(Dispatch(rt, ev).state)
  {
    var (next, effs) := Reduce(rt.state, ev);
    var rt1 := rt.(state := next);
    TeardownExact(rt.state, ev);
    ExecAllCleanups(rt1, effs);
    ExecAllFrame(rt1, effs);
    var ids := Acted(effs, Unregister);
    AsSetAppend(ids, KeptRelease(rt.state, ev, effs));
  }

  lemma SettleFrame(rt: Runtime, next: State, effs: seq<Effect>)
    ensures var rt2 := ExecAll(rt.(state := next), effs);
            var rt' := Settle(rt, next, effs);
            && rt'.state == next && rt'.completed == rt.completed && rt'.failed == rt.failed
            && rt'.cleanups == rt2.cleanups && rt'.spawning == rt2.spawning && rt'.accepted == rt2.accepted
            && rt'.ran == rt2.ran && rt'.lost == rt2.lost && rt'.acquired == rt2.acquired && rt'.replies == rt2.replies
  {
    ExecAllFrame(rt.(state := next), effs);
  }

  lemma DispatchFrame(rt: Runtime, ev: Event)
    ensures var (next, effs) := Reduce(rt.state, ev);
            var rt2 := ExecAll(rt.(state := next), effs);
            var rt' := Dispatch(rt, ev);
            && rt'.state == next && rt'.completed == rt.completed && rt'.failed == rt.failed
            && rt'.cleanups == rt2.cleanups && rt'.spawning == rt2.spawning && rt'.accepted == rt2.accepted
            && rt'.ran == rt2.ran && rt'.lost == rt2.lost && rt'.acquired == rt2.acquired && rt'.replies == rt2.replies
  {
    SettleFrame(rt, Reduce(rt.state, ev).0, Reduce(rt.state, ev).1);
  }

  lemma SettleClosures(rt: Runtime, next: State, effs: seq<Effect>)
    requires ClosuresOk(rt)
    ensures ClosuresOk(Settle(rt, next, effs))
  {
    SameClosures(rt, rt.(state := next));
    ExecAllClosures(rt.(state := next), effs);
    SettleFrame(rt, next, effs);
    ExecAllFrame(rt.(state := next), effs);
    SameClosures(ExecAll(rt.(state := next), effs), Settle(rt, next, effs));
  }

  lemma DispatchClosures(rt: Runtime, ev: Event)
    requires ClosuresOk(rt)
    ensures ClosuresOk(Dispatch(rt, ev))
  {
    SettleClosures(rt, Reduce(rt.state, ev).0, Reduce(rt.state, ev).1);
  }

  lemma DispatchGrows(rt: Runtime, ev: Event)
    requires PhasesOk(rt) && FreshSpawns(rt.state, Reduce(rt.state, ev).0, Reduce(rt.state, ev).1)
    ensures Grown(rt, Dispatch(rt, ev), AsSet(Spawned(Reduce(rt.state, ev).1)))
    ensures Dispatch(rt, ev).cleanups.Keys <= rt.cleanups.Keys
  {
    var (next, effs) := Reduce(rt.state, ev);
    var rt1 := rt.(state := next);
    DispatchFrame(rt, ev);
    ExecAllSpawns(rt1, effs);
    ExecAllCleanups(rt1, effs);
  }

  lemma DispatchPhases(rt: Runtime, ev: Event)
    requires PhasesOk(rt) && FreshSpawns(rt.state, Reduce(rt.state, ev).0, Reduce(rt.state, ev).1)
    requires rt.state.nextId > 0
    ensures var rt' := Dispatch(rt, ev);
            var added := AsSet(Spawned(Reduce(rt.state, ev).1));
            && PhasesOk(rt') && Grown(rt, rt', added) && Pending(rt') == Pending(rt) + added
            && added !! rt.accepted.Keys && 0 !in added
  {
    DispatchGrows(rt, ev);
    DispatchFrame(rt, ev);
    GrownPhases(rt, Dispatch(rt, ev), AsSet(Spawned(Reduce(rt.state, ev).1)));
  }

  lemma DispatchSteady(rt: Runtime, ev: Event)
    requires Steady(rt) && FreshSpawns(rt.state, Reduce(rt.state, ev).0, Reduce(rt.state, ev).1)
    ensures Steady(Dispatch(rt, ev))
  {
    DispatchFrame(rt, ev);
    ReduceGood(rt.state, ev);
    DispatchStore(rt, ev);
    DispatchCleanups(rt, ev);
    DispatchClosures(rt, ev);
    DispatchPhases(rt, ev);
  }

  lemma {:induction false} NotAccepted(rs: seq<Reply>, f: Fid)
    requires forall k | 0 <= k < |rs| :: rs[k].frame != f
    ensures RepliesTo(rs, f) == []
    decreases |rs|
  {
    if rs != [] { NotAccepted(rs[..|rs| - 1], f); }
  }

  /** Dispatching an event from outside keeps everything. */
  lemma HandleOk(rt: Runtime, ev: OutsideEvent)
    requires RuntimeOk(rt)
    ensures RuntimeOk(Dispatch(rt, ev))
  {
    var (next, effs) := Reduce(rt.state, ev);
    OutsideFresh(rt.state, ev);
    DispatchSteady(rt, ev);
    DispatchPhases(rt, ev);
    DispatchFrame(rt, ev);
    ExecAllReplyFrames(rt.(state := next), effs);
    var rt' := Dispatch(rt, ev);
    forall f | f in rt'.accepted ensures AnswerFits(RepliesTo(rt'.replies, f), rt'.accepted[f], f in Pending(rt')) {
      NoneAnswered(effs, f);
      ExecAllReplies(rt.(state := next), effs, f);
      if f !in rt.accepted { NotAccepted(rt.replies, f); }
      assert RepliesTo(rt.replies, f) + [] == RepliesTo(rt.replies, f);
    }
  }

  // ---- the spawn protocol ---------------------------------------------------

  lemma CompletedPlus(rt: Runtime, f: Fid, cp: Completion, c: Cid)
    requires f !in rt.completed
    ensures InCompleted(rt.(completed := rt.completed[f := cp]), c) <==> InCompleted(rt, c) || cp.cleanup == Some(c)
  {
    var rt' := rt.(completed := rt.completed[f := cp]);
    if InCompleted(rt, c) {
      var g :| g in rt.completed && rt.completed[g].cleanup == Some(c);
      assert g in rt'.completed && rt'.completed[g].cleanup == Some(c);
    }
    if cp.cleanup == Some(c) { assert rt'.completed[f].cleanup == Some(c); }
  }

  lemma PlacedAfterEnd(rt: Runtime, f: Fid, outcome: Outcome, c: Cid)
    requires ClosuresOk(rt) && f in rt.spawning && f !in rt.completed
    ensures Placed(SpawnEnds(rt, f, outcome), c)
  {
    var rt' := SpawnEnds(rt, f, outcome);
    assert Placed(rt, c) && Placed(rt, rt.acquired);
    assert InCleanups(rt', c) <==> InCleanups(rt, c);
    if outcome.Up? {
      var cp := Completion(rt.spawning[f], if outcome.sandboxed then Some(rt.acquired) else None);
      CompletedPlus(rt, f, cp, c);
      assert InCompleted(rt', c) <==> InCompleted(rt.(completed := rt.completed[f := cp]), c);
    } else {
      assert InCompleted(rt', c) <==> InCompleted(rt, c);
    }
  }

  lemma EndsClosures(rt: Runtime, f: Fid, outcome: Outcome)
    requires ClosuresOk(rt) && f in rt.spawning && f !in rt.completed
    ensures ClosuresOk(SpawnEnds(rt, f, outcome))
  {
    var rt' := SpawnEnds(rt, f, outcome);
    forall c: Cid ensures Placed(rt', c) {
      PlacedAfterEnd(rt, f, outcome, c);
    }
    assert Placed(rt, rt.acquired);
    forall g | g in rt.completed && rt.completed[g].cleanup.Some? ensures rt.completed[g].cleanup.value != rt.acquired {
      assert InCompleted(rt, rt.completed[g].cleanup.value);
    }
  }

  lemma PhasesToFailed(accepted: map<Fid, Spawn>, spawning: map<Fid, Spawn>, completed: map<Fid, Completion>,
                       failed: map<Fid, Spawn>, held: set<Fid>, nextId: nat, f: Fid)
    requires Phases(accepted, spawning, completed, failed, held, nextId) && f in spawning
    ensures Phases(accepted, spawning - {f}, completed, failed[f := spawning[f]], held, nextId)
  {
  }

  lemma PhasesToCompleted(accepted: map<Fid, Spawn>, spawning: map<Fid, Spawn>, completed: map<Fid, Completion>,
                          failed: map<Fid, Spawn>, held: set<Fid>, nextId: nat, f: Fid, cp: Completion)
    requires Phases(accepted, spawning, completed, failed, held, nextId) && f in spawning && cp.spawn == spawning[f]
    ensures Phases(accepted, spawning - {f}, completed[f := cp], failed, held, nextId)
  {
  }

  lemma PhasesStored(accepted: map<Fid, Spawn>, spawning: map<Fid, Spawn>, completed: map<Fid, Completion>,
                     failed: map<Fid, Spawn>, held: set<Fid>, held': set<Fid>, nextId: nat, f: Fid)
    requires Phases(accepted, spawning, completed, failed, held, nextId) && f in completed && held' <= held + {f}
    ensures Phases(accepted, spawning, completed - {f}, failed, held', nextId) && f !in held
  {
  }

  /** What the end of a spawn goroutine leaves alone. */
  lemma EndsFrame(rt: Runtime, f: Fid, outcome: Outcome)
    requires f in rt.spawning
    ensures var rt' := SpawnEnds(rt, f, outcome);
            && rt'.state == rt.state && rt'.store == rt.store
            && rt'.cleanups == rt.cleanups && rt'.accepted == rt.accepted
            && rt'.replies == rt.replies && rt'.spawning == rt.spawning - {f}
            && (!outcome.Up? ==> rt'.completed == rt.completed && rt'.failed == rt.failed[f := rt.spawning[f]])
            && (outcome.Up? ==>
                rt'.failed == rt.failed && f in rt'.completed && rt'.completed[f].spawn == rt.spawning[f]
                                && rt'.completed == rt.completed[f := rt'.completed[f]])
  {
  }

  lemma EndsPhases(rt: Runtime, f: Fid, outcome: Outcome)
    requires PhasesOk(rt) && f in rt.spawning
    ensures PhasesOk(SpawnEnds(rt, f, outcome)) && Pending(SpawnEnds(rt, f, outcome)) == Pending(rt)
  {
    EndsFrame(rt, f, outcome);
    if outcome.Up? {
      PhasesToCompleted(rt.accepted, rt.spawning, rt.completed, rt.failed, rt.cleanups.Keys, rt.state.nextId, f,
                        SpawnEnds(rt, f, outcome).completed[f]);
    } else {
      PhasesToFailed(rt.accepted, rt.spawning, rt.completed, rt.failed, rt.cleanups.Keys, rt.state.nextId, f);
    }
  }

  lemma EndsOk(rt: Runtime, f: Fid, outcome: Outcome)
    requires RuntimeOk(rt)
    ensures RuntimeOk(SpawnEnds(rt, f, outcome))
  {
    if f in rt.spawning {
      EndsClosures(rt, f, outcome);
      EndsPhases(rt, f, outcome);
      EndsFrame(rt, f, outcome);
      SteadyFrom(SpawnEnds(rt, f, outcome), rt);
    }
  }

  lemma SteadyFrom(rt': Runtime, rt: Runtime)
    requires RuntimeOk(rt) && rt'.state == rt.state && rt'.store == rt.store && rt'.cleanups == rt.cleanups
    requires rt'.accepted == rt.accepted && rt'.replies == rt.replies && Pending(rt') == Pending(rt)
    requires ClosuresOk(rt') && PhasesOk(rt')
    ensures RuntimeOk(rt')
  {
  }

  lemma PlacedAfterStore(rt: Runtime, f: Fid, c: Cid)
    requires ClosuresOk(rt) && f in rt.completed && f !in rt.cleanups
    ensures Placed(Store(rt, f), c)
  {
    var rt' := Store(rt, f);
    var mine := rt.completed[f].cleanup;
    assert Placed(rt, c);
    if mine.Some? { assert InCompleted(rt, mine.value) && Placed(rt, mine.value); }
    assert InCompleted(rt', c) <==> InCompleted(rt, c) && mine != Some(c) by {
      if InCompleted(rt, c) && mine != Some(c) {
        var g :| g in rt.completed && rt.completed[g].cleanup == Some(c);
        assert g in rt'.completed && rt'.completed[g].cleanup == Some(c);
      }
    }
    assert InCleanups(rt', c)
           <==> InCleanups(rt, c) || (mine == Some(c) && TargetAlive(rt.state, rt.completed[f].spawn.sid, f)) by {
      if InCleanups(rt, c) {
        var g :| g in rt.cleanups && rt.cleanups[g] == c;
        assert g in rt'.cleanups && rt'.cleanups[g] == c;
      }
      if mine == Some(c) && TargetAlive(rt.state, rt.completed[f].spawn.sid, f) { assert rt'.cleanups[f] == c; }
    }
  }

  lemma StoreClosures(rt: Runtime, f: Fid)
    requires ClosuresOk(rt) && f in rt.completed && f !in rt.cleanups
    ensures ClosuresOk(Store(rt, f))
  {
    var mine := rt.completed[f].cleanup;
    forall c: Cid ensures Placed(Store(rt, f), c) {
      PlacedAfterStore(rt, f, c);
    }
    if mine.Some? {
      assert InCompleted(rt, mine.value) && Placed(rt, mine.value);
      forall g | g in rt.cleanups ensures rt.cleanups[g] != mine.value {
        assert InCleanups(rt, rt.cleanups[g]);
      }
    }
  }

  lemma AliveIsLive(s: State, sid: Sid, f: Fid)
    requires TargetAlive(s, sid, f)
    ensures f in Live(s)
  {
    HasFrameIs(s.sessions[sid], f);
  }

  lemma StoreFrame(rt: Runtime, f: Fid)
    requires f in rt.completed
    ensures var rt' := Store(rt, f);
            && rt'.state == rt.state && rt'.store == rt.store
            && rt'.accepted == rt.accepted && rt'.replies == rt.replies
            && rt'.spawning == rt.spawning && rt'.failed == rt.failed && rt'.completed == rt.completed - {f}
            && rt'.cleanups.Keys <= rt.cleanups.Keys + {f}
            && (f in rt'.cleanups ==> f in rt.cleanups || TargetAlive(rt.state, rt.completed[f].spawn.sid, f))
  {
  }

  lemma StorePhases(rt: Runtime, f: Fid)
    requires PhasesOk(rt) && f in rt.completed
    ensures PhasesOk(Store(rt, f)) && Pending(Store(rt, f)) == Pending(rt) - {f} && f !in rt.cleanups
  {
    StoreFrame(rt, f);
    PhasesStored(rt.accepted, rt.spawning, rt.completed, rt.failed, rt.cleanups.Keys, Store(rt, f).cleanups.Keys,
                 rt.state.nextId, f);
  }

  lemma StoreSteady(rt: Runtime, f: Fid)
    requires Steady(rt) && f in rt.completed
    ensures Steady(Store(rt, f))
  {
    StoreFrame(rt, f);
    StorePhases(rt, f);
    StoreClosures(rt, f);
    if TargetAlive(rt.state, rt.completed[f].spawn.sid, f) { AliveIsLive(rt.state, rt.completed[f].spawn.sid, f); }
  }

  /** Everything is answered but one spawn that has just left the protocol. */
  predicate AnswerDue(rt: Runtime, f: Fid, spawn: Spawn) {
    && f in rt.accepted && f !in Pending(rt) && rt.accepted[f] == spawn && RepliesTo(rt.replies, f) == []
    && ReplyFramesOk(rt)
    && (forall g | g in rt.accepted && g != f :: AnswerFits(RepliesTo(rt.replies, g), rt.accepted[g], g in Pending(rt)))
  }

  /** The event that ends a spawn: success with its frame alive, or failure. */
  predicate Ending(s: State, ev: Event, f: Fid, spawn: Spawn, ok: bool) {
    if ok then
      && ev.EvSpawned? && ev.sid == spawn.sid && ev.frame == f && ev.conn == spawn.conn && ev.req == spawn.req
      && TargetAlive(s, spawn.sid, f)
    else ev == EvSpawnFailed(f, spawn.conn, spawn.req)
  }

  /** Dispatching the end of a spawn pays its answer. */
  lemma AnswerOk(rt: Runtime, ev: Event, f: Fid, spawn: Spawn, ok: bool)
    requires Steady(rt) && AnswerDue(rt, f, spawn)
    requires Ending(rt.state, ev, f, spawn, ok)
    ensures RuntimeOk(Dispatch(rt, ev))
  {
    var (next, effs) := Reduce(rt.state, ev);
    assert f != 0;
    EndAnswers(rt.state, ev, f, spawn, ok, f);
    DispatchSteady(rt, ev);
    DispatchPhases(rt, ev);
    DispatchFrame(rt, ev);
    EndAnswersWithin(rt.state, ev, f);
    ExecAllReplyFrames(rt.(state := next), effs);
    var rt' := Dispatch(rt, ev);
    forall g | g in rt'.accepted ensures AnswerFits(RepliesTo(rt'.replies, g), rt'.accepted[g], g in Pending(rt')) {
      EndAnswers(rt.state, ev, f, spawn, ok, g);
      ExecAllReplies(rt.(state := next), effs, g);
      if g !in rt.accepted { NotAccepted(rt.replies, g); }
      assert RepliesTo(rt.replies, g) + [] == RepliesTo(rt.replies, g);
    }
  }

  lemma EndAnswers(s: State, ev: Event, f: Fid, spawn: Spawn, ok: bool, g: Fid)
    requires g != 0
    requires Ending(s, ev, f, spawn, ok)
    ensures FreshSpawns(s, Reduce(s, ev).0, Reduce(s, ev).1)
    ensures RepliesIn(Reduce(s, ev).1, g)
            == if g == f && spawn.conn != 0 then [Reply(spawn.conn, spawn.req, ok, f)] else []
  {
    if ev.EvSpawned? {
      SpawnedAnswers(s, spawn.sid, f, spawn.conn, spawn.req, ev.boot, g);
    } else {
      FailedAnswers(s, f, spawn.conn, spawn.req, g);
    }
  }

  lemma EndAnswersWithin(s: State, ev: Event, f: Fid)
    requires (ev.EvSpawned? && ev.frame == f) || (ev.EvSpawnFailed? && ev.frame == f)
    ensures AnswersWithin(Reduce(s, ev).1, {f})
  {
    if ev.EvSpawned? {
      if TargetAlive(s, ev.sid, f) { SpawnedQuiet(s, ev.sid, f, ev.boot); }
    } else {
      EvictQuiet(s, f, false);
    }
  }

  lemma StoreDue(rt: Runtime, f: Fid)
    requires RuntimeOk(rt) && f in rt.completed
    ensures AnswerDue(Store(rt, f), f, rt.completed[f].spawn)
  {
    StoreFrame(rt, f);
    StorePhases(rt, f);
    assert AnswerFits(RepliesTo(rt.replies, f), rt.accepted[f], f in Pending(rt));
    forall g | g in rt.accepted && g != f
      ensures AnswerFits(RepliesTo(rt.replies, g), rt.accepted[g], g in Pending(Store(rt, f)))
    {
      assert AnswerFits(RepliesTo(rt.replies, g), rt.accepted[g], g in Pending(rt));
    }
  }

  lemma CompleteOk(rt: Runtime, f: Fid, boot: Boot)
    requires RuntimeOk(rt)
    ensures RuntimeOk(Complete(rt, f, boot))
  {
    if f in rt.completed {
      var spawn := rt.completed[f].spawn;
      StoreSteady(rt, f);
      StoreDue(rt, f);
      if TargetAlive(rt.state, spawn.sid, f) {
        AnswerOk(Store(rt, f), EvSpawned(spawn.sid, f, spawn.conn, spawn.req, boot), f, spawn, true);
      } else {
        AnswerOk(Store(rt, f), EvSpawnFailed(f, spawn.conn, spawn.req), f, spawn, false);
      }
    }
  }

  lemma FailureOk(rt: Runtime, f: Fid)
    requires RuntimeOk(rt)
    ensures RuntimeOk(Failure(rt, f))
  {
    if f in rt.failed {
      var rt1 := rt.(failed := rt.failed - {f});
      SameClosures(rt, rt1);
      assert Pending(rt1) == Pending(rt) - {f};
      AnswerOk(rt1, EvSpawnFailed(f, rt.failed[f].conn, rt.failed[f].req), f, rt.failed[f], false);
    }
  }

  lemma IdleOk()
    ensures RuntimeOk(IDLE)
  {
    forall c: Cid ensures Placed(IDLE, c) {
    }
  }

  /** Every step of the loop keeps the protocol invariant. */
  lemma ApplyOk(rt: Runtime, step: Step)
    requires RuntimeOk(rt)
    ensures RuntimeOk(Apply(rt, step))
  {
    match step
    case Handle(ev) => HandleOk(rt, ev);
    case Ends(f, outcome) => EndsOk(rt, f, outcome);
    case Completes(f, boot) => CompleteOk(rt, f, boot);
    case Fails(f) => FailureOk(rt, f);
  }

  lemma {:induction false} RunOk(steps: seq<Step>)
    ensures RuntimeOk(RunSteps(steps))
    decreases |steps|
  {
    if steps == [] {
      IdleOk();
    } else {
      RunOk(steps[..|steps| - 1]);
      ApplyOk(RunSteps(steps[..|steps| - 1]), steps[|steps| - 1]);
    }
  }

  // ---- the promises ---------------------------------------------------------

  /** Sandbox conservation: after any run each closure ever acquired is held for a live frame, held in an undelivered
      completion, or was run exactly once, except those a panic dropped. */
  lemma SandboxConservation(steps: seq<Step>, c: Cid)
    requires c < RunSteps(steps).acquired
    ensures var rt := RunSteps(steps);
            && One(InCleanups(rt, c), InCompleted(rt, c), InRan(rt, c), InLost(rt, c))
            && NoRepeat(rt.ran) && rt.cleanups.Keys <= Live(rt.state)
  {
    RunOk(steps);
    assert Placed(RunSteps(steps), c);
  }

  /** A spawn goroutine panics while it holds a closure. */
  predicate Panics(rt: Runtime, step: Step) { step.Ends? && step.outcome.PanickedHolding? && step.frame in rt.spawning }

  lemma {:induction false} ExecAllLost(rt: Runtime, effs: seq<Effect>)
    ensures ExecAll(rt, effs).lost == rt.lost
    decreases |effs|
  {
    if effs != [] { ExecAllLost(Exec(rt, effs[0]), effs[1..]); }
  }

  lemma DispatchLost(rt: Runtime, ev: Event)
    ensures Dispatch(rt, ev).lost == rt.lost
  {
    ExecAllLost(rt.(state := Reduce(rt.state, ev).0), Reduce(rt.state, ev).1);
  }

  lemma ApplyLost(rt: Runtime, step: Step)
    ensures Apply(rt, step).lost == rt.lost + if Panics(rt, step) then {rt.acquired} else {}
  {
    match step
    case Handle(ev) => DispatchLost(rt, ev);
    case Ends(_, _) =>
    case Completes(f, boot) =>
      if f in rt.completed {
        var spawn := rt.completed[f].spawn;
        DispatchLost(Store(rt, f), EvSpawned(spawn.sid, f, spawn.conn, spawn.req, boot));
        DispatchLost(Store(rt, f), EvSpawnFailed(f, spawn.conn, spawn.req));
      }
    case Fails(f) =>
      if f in rt.failed {
        DispatchLost(rt.(failed := rt.failed - {f}), EvSpawnFailed(f, rt.failed[f].conn, rt.failed[f].req));
      }
  }

  /** The closures held at the panics of a run. */
  ghost function Panicked(steps: seq<Step>): set<Cid> {
    if steps == [] then {} else
    var front := steps[..|steps| - 1];
    Panicked(front) + if Panics(RunSteps(front), steps[|steps| - 1]) then {RunSteps(front).acquired} else {}
  }

  /** After any run the closures lost are exactly those a spawn goroutine held when it panicked; none of them was run or
      is held anywhere, and no other is lost. */
  lemma {:induction false} LostExactlyByPanics(steps: seq<Step>)
    ensures var rt := RunSteps(steps);
            && rt.lost == Panicked(steps)
            && (forall c | c in Panicked(steps) :: !InRan(rt, c) && !InCleanups(rt, c) && !InCompleted(rt, c))
    decreases |steps|
  {
    if steps != [] {
      LostExactlyByPanics(steps[..|steps| - 1]);
      ApplyLost(RunSteps(steps[..|steps| - 1]), steps[|steps| - 1]);
    }
    RunOk(steps);
    forall c | c in Panicked(steps)
      ensures !InRan(RunSteps(steps), c) && !InCleanups(RunSteps(steps), c) && !InCompleted(RunSteps(steps), c)
    {
      assert Placed(RunSteps(steps), c) && InLost(RunSteps(steps), c);
    }
  }

  /** Each accepted create, push or fork with a connection gets exactly one answer, for its own request, once its spawn
      has been handled, and none before. */
  lemma OneAnswer(steps: seq<Step>, f: Fid)
    requires f in RunSteps(steps).accepted
    ensures var rt := RunSteps(steps);
            if f in Pending(rt) then RepliesTo(rt.replies, f) == []
            else Answered(RepliesTo(rt.replies, f), rt.accepted[f])
  {
    var rt := RunSteps(steps);
    RunOk(steps);
    assert AnswerFits(RepliesTo(rt.replies, f), rt.accepted[f], f in Pending(rt));
  }

  /** Whether a step handles the end of a frame's spawn, and if so whether the frame is up and still wanted. */
  function HandledBy(rt: Runtime, step: Step, f: Fid): Option<bool> {
    if step.Completes? && step.frame == f && f in rt.completed
    then Some(TargetAlive(rt.state, rt.completed[f].spawn.sid, f))
    else if step.Fails? && step.frame == f && f in rt.failed then Some(false) else None
  }

  /** How the spawn of a frame was last handled in a run. */
  ghost function CameUp(steps: seq<Step>, f: Fid): Option<bool> {
    if steps == [] then None else
    var now := HandledBy(RunSteps(steps[..|steps| - 1]), steps[|steps| - 1], f);
    if now.Some? then now else CameUp(steps[..|steps| - 1], f)
  }

  lemma DispatchReplies(rt: Runtime, ev: Event, f: Fid)
    ensures RepliesTo(Dispatch(rt, ev).replies, f) == RepliesTo(rt.replies, f) + RepliesIn(Reduce(rt.state, ev).1, f)
  {
    var (next, effs) := Reduce(rt.state, ev);
    DispatchFrame(rt, ev);
    ExecAllReplies(rt.(state := next), effs, f);
  }

  lemma EndReplies(rt: Runtime, ev: Event, g: Fid, spawn: Spawn, ok: bool, f: Fid)
    requires Ending(rt.state, ev, g, spawn, ok) && f != 0
    ensures RepliesTo(Dispatch(rt, ev).replies, f)
            == RepliesTo(rt.replies, f)
               + if f == g && spawn.conn != 0 then [Reply(spawn.conn, spawn.req, ok, g)] else []
  {
    EndAnswers(rt.state, ev, g, spawn, ok, f);
    DispatchReplies(rt, ev, f);
  }

  lemma CompleteReplies(rt: Runtime, g: Fid, boot: Boot, f: Fid)
    requires g in rt.completed && f != 0
    ensures var spawn := rt.completed[g].spawn;
            RepliesTo(Complete(rt, g, boot).replies, f)
            == RepliesTo(rt.replies, f)
               + if f == g && spawn.conn != 0
                 then [Reply(spawn.conn, spawn.req, TargetAlive(rt.state, spawn.sid, g), g)] else []
  {
    var spawn := rt.completed[g].spawn;
    StoreFrame(rt, g);
    if TargetAlive(rt.state, spawn.sid, g) {
      EndReplies(Store(rt, g), EvSpawned(spawn.sid, g, spawn.conn, spawn.req, boot), g, spawn, true, f);
    } else {
      EndReplies(Store(rt, g), EvSpawnFailed(g, spawn.conn, spawn.req), g, spawn, false, f);
    }
  }

  lemma FailureReplies(rt: Runtime, g: Fid, f: Fid)
    requires g in rt.failed && f != 0
    ensures var spawn := rt.failed[g];
            RepliesTo(Failure(rt, g).replies, f)
            == RepliesTo(rt.replies, f)
               + if f == g && spawn.conn != 0 then [Reply(spawn.conn, spawn.req, false, g)] else []
  {
    var spawn := rt.failed[g];
    EndReplies(rt.(failed := rt.failed - {g}), EvSpawnFailed(g, spawn.conn, spawn.req), g, spawn, false, f);
  }

  /** The same replies, or one more that tells the verdict. */
  predicate Continued(rs: seq<Reply>, rs': seq<Reply>, verdict: Option<bool>) {
    || rs' == rs
    || (verdict.Some? && |rs'| == |rs| + 1 && rs'[..|rs|] == rs && rs'[|rs|].ok == verdict.value)
  }

  /** A step answers for a frame only when it handles the end of its spawn, and then says how that went. */
  lemma ApplyReplies(rt: Runtime, step: Step, f: Fid)
    requires Good(rt.state) && f != 0
    ensures Continued(RepliesTo(rt.replies, f), RepliesTo(Apply(rt, step).replies, f), HandledBy(rt, step, f))
  {
    match step
    case Handle(ev) =>
      OutsideFresh(rt.state, ev);
      NoneAnswered(Reduce(rt.state, ev).1, f);
      DispatchReplies(rt, ev, f);
    case Ends(_, _) =>
    case Completes(g, boot) => if g in rt.completed { CompleteReplies(rt, g, boot, f); }
    case Fails(g) => if g in rt.failed { FailureReplies(rt, g, f); }
  }

  lemma UnansweredYet(rt: Runtime, step: Step, f: Fid)
    requires RuntimeOk(rt) && HandledBy(rt, step, f).Some?
    ensures RepliesTo(rt.replies, f) == []
  {
    assert f in rt.accepted && f in Pending(rt);
    assert AnswerFits(RepliesTo(rt.replies, f), rt.accepted[f], f in Pending(rt));
  }

  /** All of the replies say ok, or none does, as the verdict has it. */
  predicate Say(rs: seq<Reply>, verdict: Option<bool>) {
    forall k | 0 <= k < |rs| :: verdict.Some? && rs[k].ok == verdict.value
  }

  lemma SayMore(rs: seq<Reply>, rs': seq<Reply>, came: Option<bool>, now: Option<bool>)
    requires Say(rs, came) && Continued(rs, rs', now) && (now.Some? ==> rs == [])
    ensures Say(rs', if now.Some? then now else came)
  {
  }

  lemma AnswerStep(rt: Runtime, step: Step, f: Fid, came: Option<bool>)
    requires RuntimeOk(rt) && f != 0 && Say(RepliesTo(rt.replies, f), came)
    ensures var now := HandledBy(rt, step, f);
            Say(RepliesTo(Apply(rt, step).replies, f), if now.Some? then now else came)
  {
    ApplyReplies(rt, step, f);
    if HandledBy(rt, step, f).Some? { UnansweredYet(rt, step, f); }
    SayMore(RepliesTo(rt.replies, f), RepliesTo(Apply(rt, step).replies, f), came, HandledBy(rt, step, f));
  }

  /** Every answer is the truth: after any run a frame's answer says ok if and only if its spawn ended with the frame
      up and still wanted. */
  lemma {:induction false} TruthfulAnswer(steps: seq<Step>, f: Fid)
    requires f != 0
    ensures Say(RepliesTo(RunSteps(steps).replies, f), CameUp(steps, f))
    decreases |steps|
  {
    if steps != [] {
      var front, step := steps[..|steps| - 1], steps[|steps| - 1];
      TruthfulAnswer(front, f);
      RunOk(front);
      AnswerStep(RunSteps(front), step, f, CameUp(front, f));
    }
  }

  /** Between two steps of the loop the stored sessions are the sessions in memory. */
  lemma StoreAgrees(steps: seq<Step>)
    ensures RunSteps(steps).store == RunSteps(steps).state.sessions
  {
    RunOk(steps);
  }
}
