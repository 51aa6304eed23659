/** The client's session state and its pure reducer: sessions as stacks of frames with a
    head and a most-recently-used list, jobs, and the effects each event asks for.
    Drivers are abstract, except for the job guards of the Claude driver. */
module ClientState {
  type Sid = nat
  /** 0 stands for the empty frame ID. */
  type Fid = nat
  /** 0 stands for "no connection". */
  type Conn = nat
  type JobId = nat

  const MRU_CAP := 16

  datatype Option<+T> = None | Some(value: T)

  datatype JobKind = Transcript | Branch | Summary | OtherJob

  /** The Claude driver by its in-flight flags; any other driver by its status; or no driver registered. */
  datatype Driver =
    | Claude(transcript: bool, branch: bool, summary: bool, stopped: bool)
    | OtherDriver(stopped: bool)
    | NoDriver

  /** Backend identities; 0 stands for none, and a frame's own ID may serve as its target. */
  type Handle = nat

  /** What the backend and the launch record on a frame. */
  datatype Meta = Meta(subsystem: Handle, target: Handle, options: string)

  datatype Frame = Frame(id: Fid, driver: Driver, meta: Meta)

  /** `full` is the list that mru would be without its cap. */
  datatype Session = Session(frames: seq<Frame>, head: Fid, mru: seq<Fid>, full: seq<Fid>)

  datatype Job = Job(frame: Fid, kind: JobKind)

  /** Session and frame IDs are random in the source; here they are numbers never given out before. */
  datatype State = State(sessions: map<Sid, Session>, jobs: map<JobId, Job>, nextJob: nat, nextId: nat)

  const NEW := State(map[], map[], 0, 1)

  /** The driver of a command and the options PrepareLaunch settles on. */
  datatype Plan = Plan(claude: bool, options: string)

  /** Refused: no driver, or its planner declines. Unlaunchable: PrepareLaunch fails. */
  datatype Launch = Launched(plan: Plan) | Refused | Unlaunchable(claude: bool)

  /** Effects as a driver's Step returns them. */
  datatype Raw = StartJob(kind: JobKind) | PushDriver(launch: Launch) | Misc

  datatype Hook =
    | SessionStart(newPath: bool, hasDir: bool)
    | UserPrompt(hasPath: bool, hasPrompt: bool)
    | StatusChange(hasPath: bool, stops: bool)
    | Ignored

  /** What a driver is stepped with; the conditions its code reads from elsewhere are arbitrary. */
  datatype Stimulus =
    | HookEvent(hook: Hook)
    | TickEvent(wantsBranch: bool)
    | FileChange(hasPath: bool)
    | Result(kind: JobKind)
    | CommandExit
    | WindowTitle(marked: bool)
    | StatusLineClick(plan: bool, launch: Launch)
    | Elsewhere

  /** `raw` and `stops` are what a driver other than Claude answers with. */
  datatype Drive = Drive(frame: Fid, stimulus: Stimulus, raw: seq<Raw>, stops: bool)

  /** Job results reach a driver through EvJobResult only. */
  type OutsideDrive = d: Drive | !d.stimulus.Result? witness Drive(0, Elsewhere, [], false)

  /** What is written on a frame outside its driver; no handle writes nothing. */
  datatype Note = Subsystem(handle: Handle) | Target(handle: Handle)

  /** What a finished spawn reports, and how its driver answers: `resolved` is a worktree made for it, `bootstraps`
      says whether its driver is a bootstrapper. */
  datatype Boot = Boot(subsystem: Handle, resolved: bool, resolvedStops: bool, bootstraps: bool, raw: seq<Raw>,
                       stops: bool)

  datatype Event =
    | EvCreate(conn: Conn, req: string, project: string, launch: Launch)
    | EvPush(conn: Conn, req: string, sid: Sid, launch: Launch)
    | EvFork(conn: Conn, req: string, sid: Sid, launch: Launch)
    | EvStop(conn: Conn, req: string, sid: Sid)
    | EvSetHead(conn: Conn, req: string, sid: Sid, frame: Fid)
    | EvSpawned(sid: Sid, frame: Fid, conn: Conn, req: string, boot: Boot)
    | EvSpawnFailed(frame: Fid, conn: Conn, req: string)
    | EvVanished(frame: Fid)
    | EvExited(drive: Drive, code: int)
    | EvDrive(noted: Fid, note: Note, drives: seq<OutsideDrive>, resolves: bool, persists: bool)
    | EvJobResult(job: JobId, raw: seq<Raw>, stops: bool)

  datatype Effect =
    | EffSpawn(sid: Sid, frame: Fid, conn: Conn, req: string)
    | EffKill(frame: Fid)
    | EffRelease(frame: Fid)
    | EffUnregister(frame: Fid)
    | EffUnwatch(frame: Fid)
    | EffRegister(frame: Fid)
    | EffReply(conn: Conn, req: string, ok: bool, frame: Fid)
    | EffStartJob(job: JobId, frame: Fid, kind: JobKind)
    | EffPushDriver(sid: Sid, launch: Launch)
    | EffPersist
    | EffBroadcast
    | EffMisc

  // ---- frames ---------------------------------------------------------------

  function Ids(frames: seq<Frame>): seq<Fid> {
    seq(|frames|, i requires 0 <= i < |frames| => frames[i].id)
  }

  predicate HasFrame(sess: Session, f: Fid) { exists i :: 0 <= i < |sess.frames| && sess.frames[i].id == f }

  function IndexIn(frames: seq<Frame>, f: Fid): (i: nat)
    ensures i <= |frames|
    ensures i < |frames| ==> frames[i].id == f
    ensures forall j | 0 <= j < i :: frames[j].id != f
  {
    if frames == [] || frames[0].id == f then 0 else 1 + IndexIn(frames[1..], f)
  }

  predicate Alive(s: State, f: Fid) { exists sid :: sid in s.sessions && HasFrame(s.sessions[sid], f) }

  /** findFrame; frame IDs occur once, so any session that has the frame is the one. */
  ghost function Owner(s: State, f: Fid): (sid: Sid)
    requires Alive(s, f)
    ensures sid in s.sessions && HasFrame(s.sessions[sid], f)
  {
    var sid :| sid in s.sessions && HasFrame(s.sessions[sid], f);
    sid
  }

  function PutSession(s: State, sid: Sid, sess: Session): State {
    s.(sessions := s.sessions[sid := sess])
  }

  function DropSession(s: State, sid: Sid): State {
    s.(sessions := s.sessions - {sid})
  }

  // ---- the most-recently-used list ------------------------------------------

  function Remove(ids: seq<Fid>, f: Fid): seq<Fid> {
    if ids == [] then [] else (if ids[0] == f then [] else [ids[0]]) + Remove(ids[1..], f)
  }

  function Take(ids: seq<Fid>, n: nat): seq<Fid> { if |ids| > n then ids[..n] else ids }

  function PushAll(ids: seq<Fid>, f: Fid): seq<Fid> { if f == 0 then ids else [f] + Remove(ids, f) }

  function PushMru(ids: seq<Fid>, f: Fid): seq<Fid> { if f == 0 then ids else Take([f] + Remove(ids, f), MRU_CAP) }

  /** The first listed frame that still exists (0 if none) and the list behind it. */
  function PopMru(ids: seq<Fid>, frames: seq<Frame>): (Fid, seq<Fid>) {
    if ids == [] then (0, [])
    else if ids[0] in Ids(frames) then (ids[0], ids[1..])
    else PopMru(ids[1..], frames)
  }

  // ---- teardown -------------------------------------------------------------

  function Teardown(f: Fid, kill: bool): seq<Effect> {
    (if kill then [EffKill(f)] else []) + [EffRelease(f), EffUnregister(f), EffUnwatch(f)]
  }

  function TeardownAll(ids: seq<Fid>, kill: bool): seq<Effect> {
    if ids == [] then [] else Teardown(ids[0], kill) + TeardownAll(ids[1..], kill)
  }

  function WithoutFrame(sess: Session, i: nat): Session
    requires 0 < i < |sess.frames|
  {
    var frames := sess.frames[..i] + sess.frames[i + 1..];
    if sess.head != sess.frames[i].id then sess.(frames := frames) else
    var (fallback, mru) := PopMru(sess.mru, frames);
    Session(frames, if fallback == 0 then frames[0].id else fallback, mru, PopMru(sess.full, frames).1)
  }

  /** evictFrame; the state is unchanged and nothing is emitted when the frame is unknown. */
  ghost function Evict(s: State, f: Fid, kill: bool): (State, seq<Effect>) {
    if !Alive(s, f) then (s, []) else
    var sid := Owner(s, f);
    var sess := s.sessions[sid];
    var i := IndexIn(sess.frames, f);
    if i == 0 || i >= |sess.frames| then
      (DropSession(s, sid), TeardownAll(Ids(sess.frames), kill) + [EffPersist, EffBroadcast])
    else
      (PutSession(s, sid, WithoutFrame(sess, i)), Teardown(f, kill) + [EffPersist, EffBroadcast])
  }

  // ---- drivers --------------------------------------------------------------

  /** ClaudeDriver.Step, as far as jobs and the stopped status go. */
  function ClaudeStep(d: Driver, root: bool, stim: Stimulus): (Driver, seq<Raw>)
    requires d.Claude?
  {
    if !root then (d, []) else
    match stim
    case HookEvent(SessionStart(newPath, hasDir)) =>
      var job := newPath && !d.transcript;
      var branch := hasDir && !d.branch;
      (d.(transcript := d.transcript || job, branch := d.branch || branch, stopped := false),
       (if newPath then [Misc] else []) + (if job then [StartJob(Transcript)] else []) + [Misc]
       + (if branch then [StartJob(Branch)] else []))
    case HookEvent(UserPrompt(hasPath, hasPrompt)) =>
      var summary := hasPrompt && !d.summary;
      var job := hasPath && !d.transcript;
      (d.(summary := d.summary || summary, transcript := d.transcript || job, stopped := false),
       [Misc] + (if summary then [StartJob(Summary)] else []) + (if job then [StartJob(Transcript)] else []))
    case HookEvent(StatusChange(hasPath, stops)) =>
      var job := hasPath && !d.transcript;
      (d.(transcript := d.transcript || job, stopped := stops), [Misc] + (if job then [StartJob(Transcript)] else []))
    case HookEvent(Ignored) => (d, [Misc])
    case TickEvent(wants) =>
      var branch := wants && !d.branch;
      (d.(branch := d.branch || branch), if branch then [StartJob(Branch)] else [])
    case FileChange(hasPath) =>
      var job := hasPath && !d.transcript;
      (d.(transcript := d.transcript || job), [Misc] + (if job then [StartJob(Transcript)] else []))
    case Result(kind) =>
      ((match kind
        case Transcript => d.(transcript := false)
        case Branch => d.(branch := false)
        case Summary => d.(summary := false)
        case OtherJob => d), [])
    case CommandExit => (d.(stopped := true), [])
    case WindowTitle(marked) => (if marked then d.(stopped := false) else d, [])
    case StatusLineClick(plan, launch) => (d, if plan then [PushDriver(launch)] else [])
    case Elsewhere => (d, [])
  }

  function DriverStep(d: Driver, root: bool, dr: Drive): (Driver, seq<Raw>)
    requires !d.NoDriver?
  {
    if d.Claude? then ClaudeStep(d, root, dr.stimulus) else (OtherDriver(dr.stops), dr.raw)
  }

  /** postProcessEffect over a driver's effects: jobs get fresh IDs and are recorded for the frame. */
  function PostProcess(s: State, sid: Sid, f: Fid, raw: seq<Raw>): (State, seq<Effect>)
    decreases |raw|
  {
    if raw == [] then (s, []) else
    var (s1, eff) :=
      match raw[0]
      case StartJob(kind) =>
        (s.(nextJob := s.nextJob + 1, jobs := s.jobs[s.nextJob + 1 := Job(f, kind)]),
         EffStartJob(s.nextJob + 1, f, kind))
      case PushDriver(launch) => (s, EffPushDriver(sid, launch))
      case Misc => (s, EffMisc);
    var (s2, effs) := PostProcess(s1, sid, f, raw[1..]);
    (s2, [eff] + effs)
  }

  function SetDriver(sess: Session, i: nat, d: Driver): Session
    requires i < |sess.frames|
  {
    sess.(frames := sess.frames[i := sess.frames[i].(driver := d)])
  }

  /** stepDriver; None when the frame or its driver is unknown. */
  ghost function StepDriver(s: State, dr: Drive): Option<(State, seq<Effect>)> {
    if !Alive(s, dr.frame) then None else
    var sid := Owner(s, dr.frame);
    var sess := s.sessions[sid];
    var i := IndexIn(sess.frames, dr.frame);
    if i >= |sess.frames| || sess.frames[i].driver.NoDriver? then None else
    var (d, raw) := DriverStep(sess.frames[i].driver, i == 0, dr);
    Some(PostProcess(PutSession(s, sid, SetDriver(sess, i, d)), sid, dr.frame, raw))
  }

  function Noted(m: Meta, note: Note): Meta {
    if note.handle == 0 then m else
    match note
    case Subsystem(handle) => m.(subsystem := handle)
    case Target(handle) => m.(target := handle)
  }

  function SetMeta(sess: Session, i: nat, meta: Meta): Session
    requires i < |sess.frames|
  {
    sess.(frames := sess.frames[i := sess.frames[i].(meta := meta)])
  }

  /** The note is written on the frame, if it is there. */
  ghost function Annotate(s: State, f: Fid, note: Note): State {
    if !Alive(s, f) then s else
    var sid := Owner(s, f);
    var sess := s.sessions[sid];
    var i := IndexIn(sess.frames, f);
    if i >= |sess.frames| then s else PutSession(s, sid, SetMeta(sess, i, Noted(sess.frames[i].meta, note)))
  }

  ghost function StepDrivers(s: State, drives: seq<Drive>): (State, seq<Effect>)
    decreases |drives|
  {
    if drives == [] then (s, []) else
    var r := StepDriver(s, drives[0]);
    if r.None? then StepDrivers(s, drives[1..]) else
    var (s1, e1) := r.value;
    var (s2, e2) := StepDrivers(s1, drives[1..]);
    (s2, e1 + e2)
  }

  // ---- launching ------------------------------------------------------------

  function NewDriver(claude: bool): Driver {
    if claude then Claude(false, false, false, false) else OtherDriver(false)
  }

  /** A frame pushed or created is its own target; that of a fork has none yet. */
  function NewFrame(f: Fid, plan: Plan, own: bool): Frame {
    Frame(f, NewDriver(plan.claude), Meta(0, if own then f else 0, plan.options))
  }

  /** A new session with one frame; its spawn answers to the given request. */
  function OpenSession(s: State, plan: Plan, own: bool, conn: Conn, req: string): (State, seq<Effect>) {
    var (sid, f) := (s.nextId, s.nextId + 1);
    (PutSession(s, sid, Session([NewFrame(f, plan, own)], f, [], [])).(nextId := s.nextId + 2),
     [EffSpawn(sid, f, conn, req)])
  }

  /** The session with a new head frame on top. */
  function Pushed(sess: Session, frame: Frame): Session {
    Session(sess.frames + [frame], frame.id, PushMru(sess.mru, sess.head), PushAll(sess.full, sess.head))
  }

  /** pushDriverInternal with an accepted launch. */
  function PushFrame(s: State, sid: Sid, plan: Plan, conn: Conn, req: string): (State, seq<Effect>)
    requires sid in s.sessions
  {
    var sess := s.sessions[sid];
    var f := s.nextId;
    (PutSession(s, sid, Pushed(sess, NewFrame(f, plan, true))).(nextId := s.nextId + 1), [EffSpawn(sid, f, conn, req)])
  }

  /** resolvePushDriverEffects: a refused push is dropped. */
  function ResolvePushes(s: State, effs: seq<Effect>): (State, seq<Effect>)
    decreases |effs|
  {
    if effs == [] then (s, [])
    else if !effs[0].EffPushDriver? then
      var (s', rest) := ResolvePushes(s, effs[1..]); (s', [effs[0]] + rest)
    else if !effs[0].launch.Launched? || effs[0].sid !in s.sessions then ResolvePushes(s, effs[1..])
    else
      var (s1, e1) := PushFrame(s, effs[0].sid, effs[0].launch.plan, 0, "");
      var (s2, e2) := ResolvePushes(s1, effs[1..]);
      (s2, e1 + e2)
  }

  // ---- the reducers ---------------------------------------------------------

  function Fail(s: State, conn: Conn, req: string): (State, seq<Effect>) { (s, [EffReply(conn, req, false, 0)]) }

  function ReduceCreate(s: State, conn: Conn, req: string, project: string, launch: Launch): (State, seq<Effect>) {
    if project == "" || !launch.Launched? then Fail(s, conn, req) else OpenSession(s, launch.plan, true, conn, req)
  }

  function ReducePush(s: State, conn: Conn, req: string, sid: Sid, launch: Launch): (State, seq<Effect>) {
    if sid !in s.sessions || !launch.Launched? then Fail(s, conn, req) else PushFrame(s, sid, launch.plan, conn, req)
  }

  function ReduceFork(s: State, conn: Conn, req: string, sid: Sid, launch: Launch): (State, seq<Effect>) {
    if sid !in s.sessions || !launch.Launched? then Fail(s, conn, req) else
    OpenSession(s, launch.plan, false, conn, req)
  }

  function ReduceStop(s: State, conn: Conn, req: string, sid: Sid): (State, seq<Effect>) {
    if sid !in s.sessions then Fail(s, conn, req) else
    (DropSession(s, sid),
     [EffBroadcast] + TeardownAll(Ids(s.sessions[sid].frames), true) + [EffReply(conn, req, true, 0), EffPersist])
  }

  function ReduceSetHead(s: State, conn: Conn, req: string, sid: Sid, f: Fid): (State, seq<Effect>) {
    if sid !in s.sessions || !HasFrame(s.sessions[sid], f) then Fail(s, conn, req) else
    var sess := s.sessions[sid];
    if sess.head == f then (s, [EffReply(conn, req, true, 0)]) else
    (PutSession(s, sid, sess.(head := f, mru := PushMru(sess.mru, sess.head), full := PushAll(sess.full, sess.head))),
     [EffReply(conn, req, true, 0), EffPersist, EffBroadcast])
  }

  function ReplyTo(conn: Conn, req: string, ok: bool, f: Fid): seq<Effect> {
    if conn == 0 then [] else [EffReply(conn, req, ok, f)]
  }

  /** The subsystem and the worktree of a finished spawn, recorded before anything else. The drivers answer a
      resolved worktree with no effects. */
  ghost function Prepared(s: State, f: Fid, boot: Boot): State {
    var s1 := Annotate(s, f, Subsystem(boot.subsystem));
    var r := if boot.resolved then StepDriver(s1, Drive(f, Elsewhere, [], boot.resolvedStops)) else None;
    if r.Some? then r.value.0 else s1
  }

  /** Only the root frame of a session is bootstrapped, and Claude is not a bootstrapper. */
  ghost function Booted(s: State, sid: Sid, f: Fid, boot: Boot): (State, seq<Effect>)
    requires sid in s.sessions && s.sessions[sid].frames != []
  {
    var root := s.sessions[sid].frames[0];
    var r := if root.id == f && root.driver.OtherDriver? && boot.bootstraps
             then StepDriver(s, Drive(f, Elsewhere, boot.raw, boot.stops)) else None;
    if r.Some? then r.value else (s, [])
  }

  /** The state and the driver effects of a finished spawn. */
  ghost function Arrived(s: State, sid: Sid, f: Fid, boot: Boot): (State, seq<Effect>) {
    var s1 := Prepared(s, f, boot);
    if sid in s1.sessions && s1.sessions[sid].frames != [] then Booted(s1, sid, f, boot) else (s1, [])
  }

  ghost function ReduceSpawned(s: State, sid: Sid, f: Fid, conn: Conn, req: string, boot: Boot): (State, seq<Effect>) {
    if sid !in s.sessions || !HasFrame(s.sessions[sid], f) then (s, []) else
    var (s', effs) := Arrived(s, sid, f, boot);
    (s', effs + [EffRegister(f), EffPersist, EffBroadcast] + ReplyTo(conn, req, true, f))
  }

  ghost function ReduceSpawnFailed(s: State, f: Fid, conn: Conn, req: string): (State, seq<Effect>) {
    var (s', effs) := Evict(s, f, false);
    (s', effs + ReplyTo(conn, req, false, f))
  }

  predicate IntentionalExit(code: int) { code in {0, 129, 130, 137, 143} }

  predicate IsStopped(d: Driver) { !d.NoDriver? && d.stopped }

  ghost function ReduceExited(s: State, dr: Drive, code: int): (State, seq<Effect>) {
    if !Alive(s, dr.frame) then (s, [])
    else if IntentionalExit(code) then Evict(s, dr.frame, true)
    else
      var sess := s.sessions[Owner(s, dr.frame)];
      var i := IndexIn(sess.frames, dr.frame);
      if i < |sess.frames| && IsStopped(sess.frames[i].driver) then (s, []) else
      var r := StepDriver(s, dr.(stimulus := CommandExit));
      var (s', effs) := if r.Some? then r.value else (s, []);
      (s', effs + [EffRelease(dr.frame)])
  }

  /** Ticks, hooks, subsystem and file events: a note may be written, then one or more drivers are stepped. Some of
      these events persist always, some only when a driver asked for something. */
  ghost function ReduceDrive(s: State, f: Fid, note: Note, drives: seq<OutsideDrive>, resolves: bool, persists: bool):
    (State, seq<Effect>)
  {
    var (s1, effs) := StepDrivers(Annotate(s, f, note), drives);
    var (s2, effs') := if resolves then ResolvePushes(s1, effs) else (s1, effs);
    (s2, effs' + if persists then [EffPersist, EffBroadcast] else [])
  }

  ghost function ReduceJobResult(s: State, job: JobId, raw: seq<Raw>, stops: bool): (State, seq<Effect>) {
    if job !in s.jobs then (s, []) else
    var meta := s.jobs[job];
    var s1 := s.(jobs := s.jobs - {job});
    var r := StepDriver(s1, Drive(meta.frame, Result(meta.kind), raw, stops));
    if r.None? then (s1, []) else (r.value.0, r.value.1 + [EffPersist, EffBroadcast])
  }

  ghost function Reduce(s: State, ev: Event): (State, seq<Effect>) {
    match ev
    case EvCreate(conn, req, project, launch) => ReduceCreate(s, conn, req, project, launch)
    case EvPush(conn, req, sid, launch) => ReducePush(s, conn, req, sid, launch)
    case EvFork(conn, req, sid, launch) => ReduceFork(s, conn, req, sid, launch)
    case EvStop(conn, req, sid) => ReduceStop(s, conn, req, sid)
    case EvSetHead(conn, req, sid, f) => ReduceSetHead(s, conn, req, sid, f)
    case EvSpawned(sid, f, conn, req, boot) => ReduceSpawned(s, sid, f, conn, req, boot)
    case EvSpawnFailed(f, conn, req) => ReduceSpawnFailed(s, f, conn, req)
    case EvVanished(f) => Evict(s, f, false)
    case EvExited(dr, code) => ReduceExited(s, dr, code)
    case EvDrive(f, note, drives, resolves, persists) => ReduceDrive(s, f, note, drives, resolves, persists)
    case EvJobResult(job, raw, stops) => ReduceJobResult(s, job, raw, stops)
  }

  /** The state after a sequence of events. */
  ghost function Run(s: State, evs: seq<Event>): State {
    if evs == [] then s else Reduce(Run(s, evs[..|evs| - 1]), evs[|evs| - 1]).0
  }
}
