/** The reducer as the source runs it: states share their Sessions map by reference, and sessions share their slices of
    frames. A write goes into a map or a slice made for it. No method here has a modifies clause, so nothing that a
    caller can reach is ever written; each is proved to compute what ClientState says. */
module ClientReducer {
  import opened ClientState
  import opened ClientSessions
  import ClientTeardown

  /** A session as the map holds it. */
  datatype Entry = Entry(frames: array<Frame>, head: Fid, mru: seq<Fid>, full: seq<Fid>)

  class SessionMap {
    var m: map<Sid, Entry>

    constructor ()
      ensures m == map[]
    {
      m := map[];
    }

    /** cloneSessions. */
    method Clone() returns (out: SessionMap)
      ensures fresh(out) && out.m == m
    {
      out := new SessionMap();
      var todo := m.Keys;
      while todo != {}
        invariant todo <= m.Keys && out.m == map sid | sid in m && sid !in todo :: m[sid]
        decreases todo
      {
        var sid :| sid in todo;
        todo := todo - {sid};
        out.m := out.m[sid := m[sid]];
      }
    }
  }

  datatype StateRef = StateRef(sessions: SessionMap, jobs: map<JobId, Job>, nextJob: nat, nextId: nat)

  ghost function Slices(m: map<Sid, Entry>): set<object> { set sid | sid in m :: m[sid].frames }

  function SessionOf(e: Entry): Session
    reads e.frames
  {
    Session(e.frames[..], e.head, e.mru, e.full)
  }

  ghost function SessionsOf(m: map<Sid, Entry>): map<Sid, Session>
    reads Slices(m)
  {
    map sid | sid in m :: SessionOf(m[sid])
  }

  ghost function Value(s: StateRef): State
    reads s.sessions, Slices(s.sessions.m)
  {
    State(SessionsOf(s.sessions.m), s.jobs, s.nextJob, s.nextId)
  }

  /** Entering a session into a map of entries. */
  lemma SessionsPut(m: map<Sid, Entry>, sid: Sid, e: Entry)
    ensures SessionsOf(m[sid := e]) == SessionsOf(m)[sid := SessionOf(e)]
  {
  }

  lemma SessionsDrop(m: map<Sid, Entry>, sid: Sid)
    ensures SessionsOf(m - {sid}) == SessionsOf(m) - {sid}
  {
  }

  // ---- slices ---------------------------------------------------------------

  /** append([]SessionFrame(nil), frames...). */
  method CopyFrames(frames: array<Frame>) returns (out: array<Frame>)
    ensures fresh(out) && out[..] == frames[..]
  {
    out := new Frame[frames.Length](i requires 0 <= i < frames.Length reads frames => frames[i]);
  }

  method AppendFrame(frames: array<Frame>, frame: Frame) returns (out: array<Frame>)
    ensures fresh(out) && out[..] == frames[..] + [frame]
  {
    var n := frames.Length;
    out := new Frame[n + 1](i requires 0 <= i < n + 1 reads frames => if i < n then frames[i] else frame);
  }

  /** removeFrameByIndex. */
  method DropFrame(frames: array<Frame>, k: nat) returns (out: array<Frame>)
    requires k < frames.Length
    ensures fresh(out) && out[..] == frames[..k] + frames[k + 1..]
  {
    out := new Frame[frames.Length - 1](i requires 0 <= i < frames.Length - 1 reads frames =>
      if i < k then frames[i] else frames[i + 1]);
  }

  /** findFrameIndex; the length stands for "not there". */
  method FindFrameIndex(frames: array<Frame>, f: Fid) returns (i: nat)
    ensures i == IndexIn(old(frames[..]), f)
  {
    i := 0;
    while i < frames.Length
      invariant i <= frames.Length && forall j | 0 <= j < i :: frames[..][j].id != f
    {
      if frames[i].id == f {
        return;
      }
      i := i + 1;
    }
  }

  lemma FoundOwner(v: State, f: Fid, sid: Sid)
    requires Sound(v) && sid in v.sessions && IndexIn(v.sessions[sid].frames, f) < |v.sessions[sid].frames|
    ensures Alive(v, f) && Owner(v, f) == sid
  {
    SoundGood(v);
    HasFrameIs(v.sessions[sid], f);
    assert HasFrame(v.sessions[sid], f);
    HasFrameIs(v.sessions[Owner(v, f)], f);
    ClientTeardown.OneOwner(v, f, sid, Owner(v, f));
  }

  lemma NotFound(v: State, f: Fid)
    requires forall sid | sid in v.sessions :: IndexIn(v.sessions[sid].frames, f) == |v.sessions[sid].frames|
    ensures !Alive(v, f)
  {
    forall sid | sid in v.sessions ensures !HasFrame(v.sessions[sid], f) {
      HasFrameIs(v.sessions[sid], f);
    }
  }

  /** findFrame: the sessions in any order. */
  method FindFrame(s: StateRef, f: Fid) returns (found: bool, sid: Sid, i: nat)
    requires Sound(Value(s))
    ensures Value(s) == old(Value(s)) && found == Alive(old(Value(s)), f)
    ensures found ==> sid in s.sessions.m && sid == Owner(old(Value(s)), f)
    ensures found ==> i < s.sessions.m[sid].frames.Length && i == IndexIn(old(Value(s)).sessions[sid].frames, f)
  {
    ghost var v := Value(s);
    var todo := s.sessions.m.Keys;
    sid, i := 0, 0;
    while todo != {}
      invariant todo <= s.sessions.m.Keys
      invariant forall x | x in v.sessions && x !in todo :: IndexIn(v.sessions[x].frames, f) == |v.sessions[x].frames|
      decreases todo
    {
      sid :| sid in todo;
      todo := todo - {sid};
      var frames := s.sessions.m[sid].frames;
      i := 0;
      while i < frames.Length && frames[i].id != f
        invariant i <= frames.Length && forall j | 0 <= j < i :: frames[..][j].id != f
      {
        i := i + 1;
      }
      assert i == IndexIn(v.sessions[sid].frames, f);
      if i < frames.Length {
        FoundOwner(v, f, sid);
        return true, sid, i;
      }
    }
    NotFound(v, f);
    found := false;
  }

  // ---- reduce_helpers.go ----------------------------------------------------

  /** The loop over a driver's effects in stepDriver. */
  method PostProcessAll(s: StateRef, sid: Sid, f: Fid, raw: seq<Raw>) returns (s': StateRef, effs: seq<Effect>)
    ensures (Value(s'), effs) == PostProcess(old(Value(s)), sid, f, raw) && s'.sessions == s.sessions
  {
    s', effs := s, [];
    ghost var goal := PostProcess(Value(s), sid, f, raw);
    assert raw[0..] == raw && [] + goal.1 == goal.1;
    for k := 0 to |raw|
      invariant s'.sessions == s.sessions
      invariant goal.0 == PostProcess(Value(s'), sid, f, raw[k..]).0
      invariant goal.1 == effs + PostProcess(Value(s'), sid, f, raw[k..]).1
    {
      assert raw[k..][0] == raw[k] && raw[k..][1..] == raw[k + 1..];
      ghost var rest := PostProcess(Value(s'), sid, f, raw[k..]).1;
      var eff;
      match raw[k] {
        case StartJob(kind) =>
          s' := s'.(nextJob := s'.nextJob + 1, jobs := s'.jobs[s'.nextJob + 1 := Job(f, kind)]);
          eff := EffStartJob(s'.nextJob, f, kind);
        case PushDriver(launch) => eff := EffPushDriver(sid, launch);
        case Misc => eff := EffMisc;
      }
      assert rest == [eff] + PostProcess(Value(s'), sid, f, raw[k + 1..]).1;
      assert effs + ([eff] + PostProcess(Value(s'), sid, f, raw[k + 1..]).1)
             == effs + [eff] + PostProcess(Value(s'), sid, f, raw[k + 1..]).1;
      effs := effs + [eff];
    }
    assert raw[|raw|..] == [] && effs + [] == effs;
  }

  /** The write in stepDriver: a new map and a new slice, then the frame with its new driver state. */
  method WriteDriver(s: StateRef, sid: Sid, i: nat, d: Driver) returns (s': StateRef)
    requires sid in s.sessions.m && i < s.sessions.m[sid].frames.Length
    ensures Value(s) == old(Value(s)) && fresh(s'.sessions)
    ensures Value(s') == PutSession(old(Value(s)), sid, SetDriver(old(Value(s)).sessions[sid], i, d))
  {
    var sess := s.sessions.m[sid];
    var sessions := s.sessions.Clone();
    var frames := CopyFrames(sess.frames);
    frames[i] := frames[i].(driver := d);
    sessions.m := sessions.m[sid := sess.(frames := frames)];
    SessionsPut(s.sessions.m, sid, sess.(frames := frames));
    assert frames[..] == SetDriver(Value(s).sessions[sid], i, d).frames;
    s' := s.(sessions := sessions);
  }

  lemma StepDriverIs(v: State, dr: Drive, sid: Sid, i: nat)
    requires Alive(v, dr.frame) && sid == Owner(v, dr.frame)
    requires i == IndexIn(v.sessions[sid].frames, dr.frame) < |v.sessions[sid].frames|
    ensures StepDriver(v, dr).Some? <==> !v.sessions[sid].frames[i].driver.NoDriver?
    ensures !v.sessions[sid].frames[i].driver.NoDriver? ==>
              var (d, raw) := DriverStep(v.sessions[sid].frames[i].driver, i == 0, dr);
              StepDriver(v, dr).value
              == PostProcess(PutSession(v, sid, SetDriver(v.sessions[sid], i, d)), sid, dr.frame, raw)
  {
  }

  /** stepDriver, once the frame is found. */
  method StepAt(s: StateRef, sid: Sid, i: nat, dr: Drive) returns (ok: bool, s': StateRef, effs: seq<Effect>)
    requires Alive(Value(s), dr.frame) && sid in s.sessions.m && sid == Owner(Value(s), dr.frame)
    requires i < s.sessions.m[sid].frames.Length && i == IndexIn(Value(s).sessions[sid].frames, dr.frame)
    ensures Value(s) == old(Value(s)) && ok == StepDriver(old(Value(s)), dr).Some?
    ensures if ok then (Value(s'), effs) == StepDriver(old(Value(s)), dr).value else s' == s && effs == []
    ensures s'.sessions == s.sessions || fresh(s'.sessions)
  {
    ghost var v := Value(s);
    StepDriverIs(v, dr, sid, i);
    var driver := s.sessions.m[sid].frames[i].driver;
    if driver.NoDriver? {
      return false, s, [];
    }
    var (d, raw) := DriverStep(driver, i == 0, dr);
    var s1 := WriteDriver(s, sid, i, d);
    s', effs := PostProcessAll(s1, sid, dr.frame, raw);
    ok := true;
  }

  /** stepDriver. */
  method StepFrameDriver(s: StateRef, dr: Drive) returns (ok: bool, s': StateRef, effs: seq<Effect>)
    requires Sound(Value(s))
    ensures Value(s) == old(Value(s)) && ok == StepDriver(old(Value(s)), dr).Some?
    ensures if ok then (Value(s'), effs) == StepDriver(old(Value(s)), dr).value else s' == s && effs == []
    ensures s'.sessions == s.sessions || fresh(s'.sessions)
  {
    var found, sid, i := FindFrame(s, dr.frame);
    if !found {
      return false, s, [];
    }
    ok, s', effs := StepAt(s, sid, i, dr);
  }

  /** The field writes outside a driver: the subsystem of a spawned frame, the target of a subsystem event. A new map is
      made only when something changes. */
  method NoteFrame(s: StateRef, sid: Sid, i: nat, note: Note) returns (s': StateRef)
    requires sid in s.sessions.m && i < s.sessions.m[sid].frames.Length
    ensures Value(s) == old(Value(s))
    ensures var sess := old(Value(s)).sessions[sid];
            Value(s') == PutSession(old(Value(s)), sid, SetMeta(sess, i, Noted(sess.frames[i].meta, note)))
    ensures s'.sessions == s.sessions || fresh(s'.sessions)
  {
    var sess := s.sessions.m[sid];
    var meta := Noted(sess.frames[i].meta, note);
    ghost var before := Value(s).sessions;
    if meta == sess.frames[i].meta {
      assert SetMeta(before[sid], i, meta).frames == before[sid].frames;
      assert before[sid := before[sid]] == before;
      return s;
    }
    var sessions := s.sessions.Clone();
    var frames := CopyFrames(sess.frames);
    frames[i] := frames[i].(meta := meta);
    sessions.m := sessions.m[sid := sess.(frames := frames)];
    SessionsPut(s.sessions.m, sid, sess.(frames := frames));
    assert frames[..] == SetMeta(before[sid], i, meta).frames;
    s' := s.(sessions := sessions);
  }

  // ---- recency lists and teardown -------------------------------------------

  lemma {:induction false} RemoveSnoc(ids: seq<Fid>, x: Fid, f: Fid)
    ensures Remove(ids + [x], f) == Remove(ids, f) + if x == f then [] else [x]
    decreases |ids|
  {
    if ids == [] {
      assert ids + [x] == [x] && [x][1..] == [];
    } else {
      assert (ids + [x])[0] == ids[0] && (ids + [x])[1..] == ids[1..] + [x];
      RemoveSnoc(ids[1..], x, f);
    }
  }

  /** pushMRU. */
  method PushRecent(ids: seq<Fid>, f: Fid) returns (mru: seq<Fid>)
    ensures mru == PushMru(ids, f)
  {
    if f == 0 {
      return ids;
    }
    mru := [f];
    for i := 0 to |ids|
      invariant mru == [f] + Remove(ids[..i], f)
    {
      assert ids[..i + 1] == ids[..i] + [ids[i]];
      RemoveSnoc(ids[..i], ids[i], f);
      if ids[i] != f {
        mru := mru + [ids[i]];
      }
    }
    assert ids[..|ids|] == ids;
    if |mru| > 16 {
      mru := mru[..16];
    }
  }

  /** popMRU: the set of live frames first, then the first listed one among them. */
  method PopRecent(ids: seq<Fid>, frames: seq<Frame>) returns (fallback: Fid, mru: seq<Fid>)
    ensures (fallback, mru) == PopMru(ids, frames)
  {
    var existing: set<Fid> := {};
    for i := 0 to |frames|
      invariant forall x :: x in existing <==> x in Ids(frames)[..i]
    {
      assert Ids(frames)[..i + 1] == Ids(frames)[..i] + [frames[i].id];
      existing := existing + {frames[i].id};
    }
    assert Ids(frames)[..|frames|] == Ids(frames);
    assert ids[0..] == ids;
    for i := 0 to |ids|
      invariant PopMru(ids, frames) == PopMru(ids[i..], frames)
    {
      assert ids[i..][1..] == ids[i + 1..];
      if ids[i] in existing {
        return ids[i], ids[i + 1..];
      }
    }
    return 0, [];
  }

  /** The teardown loop of evictRootFrame and reduceStopSession. */
  method TeardownFrames(frames: seq<Frame>, kill: bool) returns (effs: seq<Effect>)
    ensures effs == TeardownAll(Ids(frames), kill)
  {
    effs := [];
    ghost var ids := Ids(frames);
    assert ids[0..] == ids;
    for i := 0 to |frames|
      invariant TeardownAll(ids, kill) == effs + TeardownAll(ids[i..], kill)
    {
      assert ids[i..][0] == frames[i].id && ids[i..][1..] == ids[i + 1..];
      var one := Teardown(frames[i].id, kill);
      assert (effs + one) + TeardownAll(ids[i + 1..], kill) == effs + (one + TeardownAll(ids[i + 1..], kill));
      effs := effs + one;
    }
  }

  // ---- reduce_frame_evict.go ------------------------------------------------

  /** A new map without the session. */
  method RemoveSession(s: StateRef, sid: Sid) returns (s': StateRef)
    ensures Value(s) == old(Value(s)) && Value(s') == DropSession(old(Value(s)), sid) && fresh(s'.sessions)
  {
    var sessions := s.sessions.Clone();
    sessions.m := sessions.m - {sid};
    SessionsDrop(s.sessions.m, sid);
    s' := s.(sessions := sessions);
  }

  /** evictRootFrame. */
  method EvictRoot(s: StateRef, sid: Sid, kill: bool) returns (s': StateRef, effs: seq<Effect>)
    requires sid in s.sessions.m
    ensures Value(s) == old(Value(s)) && Value(s') == DropSession(old(Value(s)), sid) && fresh(s'.sessions)
    ensures effs == TeardownAll(Ids(old(Value(s)).sessions[sid].frames), kill) + [EffPersist, EffBroadcast]
  {
    var removed := s.sessions.m[sid].frames[..];
    effs := TeardownFrames(removed, kill);
    effs := effs + [EffPersist, EffBroadcast];
    s' := RemoveSession(s, sid);
  }

  /** The session without one of its child frames, in a slice of its own. */
  method WithoutChild(sess: Entry, i: nat) returns (sess': Entry)
    requires 0 < i < sess.frames.Length
    ensures SessionOf(sess) == old(SessionOf(sess)) && SessionOf(sess') == WithoutFrame(old(SessionOf(sess)), i)
  {
    var wasActive := sess.head == sess.frames[i].id;
    var frames := DropFrame(sess.frames, i);
    sess' := sess.(frames := frames);
    if wasActive {
      var fallback, mru := PopRecent(sess.mru, frames[..]);
      if fallback == 0 {
        fallback := frames[0].id;
      }
      sess' := Entry(frames, fallback, mru, PopMru(sess.full, frames[..]).1);
    }
  }

  /** The common end of the reducers that write a session: a new map with the entry in it. */
  method EnterSession(s: StateRef, sid: Sid, sess: Entry) returns (s': StateRef)
    ensures Value(s) == old(Value(s)) && SessionOf(sess) == old(SessionOf(sess))
    ensures Value(s') == PutSession(old(Value(s)), sid, old(SessionOf(sess))) && fresh(s'.sessions)
    ensures s'.sessions.m == s.sessions.m[sid := sess] && s' == s.(sessions := s'.sessions)
  {
    var sessions := s.sessions.Clone();
    sessions.m := sessions.m[sid := sess];
    SessionsPut(s.sessions.m, sid, sess);
    s' := s.(sessions := sessions);
  }

  lemma EvictIs(v: State, f: Fid, kill: bool, sid: Sid, i: nat)
    requires Alive(v, f) && sid == Owner(v, f) && i == IndexIn(v.sessions[sid].frames, f) < |v.sessions[sid].frames|
    ensures Evict(v, f, kill) ==
            if i == 0
            then (DropSession(v, sid), TeardownAll(Ids(v.sessions[sid].frames), kill) + [EffPersist, EffBroadcast])
            else (PutSession(v, sid, WithoutFrame(v.sessions[sid], i)), Teardown(f, kill) + [EffPersist, EffBroadcast])
  {
  }

  /** evictFrame, once the frame is found. */
  method EvictAt(s: StateRef, sid: Sid, i: nat, f: Fid, kill: bool) returns (s': StateRef, effs: seq<Effect>)
    requires Alive(Value(s), f) && sid in s.sessions.m && sid == Owner(Value(s), f)
    requires i < s.sessions.m[sid].frames.Length && i == IndexIn(Value(s).sessions[sid].frames, f)
    ensures Value(s) == old(Value(s)) && (Value(s'), effs) == Evict(old(Value(s)), f, kill) && fresh(s'.sessions)
  {
    EvictIs(Value(s), f, kill, sid, i);
    if i == 0 {
      s', effs := EvictRoot(s, sid, kill);
    } else {
      var sess := WithoutChild(s.sessions.m[sid], i);
      s' := EnterSession(s, sid, sess);
      effs := Teardown(f, kill) + [EffPersist, EffBroadcast];
    }
  }

  /** evictFrame. */
  method EvictFrame(s: StateRef, f: Fid, kill: bool) returns (s': StateRef, effs: seq<Effect>)
    requires Sound(Value(s))
    ensures Value(s) == old(Value(s)) && (Value(s'), effs) == Evict(old(Value(s)), f, kill)
    ensures s'.sessions == s.sessions || fresh(s'.sessions)
  {
    var found, sid, i := FindFrame(s, f);
    if !found {
      return s, [];
    }
    s', effs := EvictAt(s, sid, i, f, kill);
  }

  // ---- reduce_session.go ----------------------------------------------------

  /** reduceCreateSession; its launch is prepared before anything is written. */
  method CreateSession(s: StateRef, conn: Conn, req: string, project: string, launch: Launch)
    returns (s': StateRef, effs: seq<Effect>)
    ensures Value(s) == old(Value(s)) && (Value(s'), effs) == ReduceCreate(old(Value(s)), conn, req, project, launch)
    ensures s'.sessions == s.sessions || fresh(s'.sessions)
  {
    if project == "" || !launch.Launched? {
      return s, [EffReply(conn, req, false, 0)];
    }
    s', effs := OpenRef(s, launch.plan, true, conn, req);
  }

  /** reduceForkSession. */
  method ForkSession(s: StateRef, conn: Conn, req: string, sid: Sid, launch: Launch)
    returns (s': StateRef, effs: seq<Effect>)
    ensures Value(s) == old(Value(s)) && (Value(s'), effs) == ReduceFork(old(Value(s)), conn, req, sid, launch)
    ensures s'.sessions == s.sessions || fresh(s'.sessions)
  {
    if sid !in s.sessions.m || !launch.Launched? {
      return s, [EffReply(conn, req, false, 0)];
    }
    s', effs := OpenRef(s, launch.plan, false, conn, req);
  }

  method OpenRef(s: StateRef, plan: Plan, own: bool, conn: Conn, req: string) returns (s': StateRef, effs: seq<Effect>)
    ensures Value(s) == old(Value(s)) && (Value(s'), effs) == OpenSession(old(Value(s)), plan, own, conn, req)
    ensures fresh(s'.sessions)
  {
    var sid, f := s.nextId, s.nextId + 1;
    var frames := new Frame[1](i => Frame(f, NewDriver(plan.claude), Meta(0, if own then f else 0, "")));
    frames[0] := frames[0].(meta := frames[0].meta.(options := plan.options));
    assert frames[..] == [NewFrame(f, plan, own)];
    s' := EnterSession(s, sid, Entry(frames, f, [], []));
    s' := s'.(nextId := s.nextId + 2);
    effs := [EffSpawn(sid, f, conn, req)];
  }

  /** pushDriverInternal. The session is entered first; PrepareLaunch comes after, and when it fails the state returned
      has the new frame all the same: the callers go on with the state they had. The launch options are then written
      through the slice that the new map already holds. */
  method PushDriverInternal(s: StateRef, sid: Sid, launch: Launch, conn: Conn, req: string)
    returns (err: bool, s': StateRef, effs: seq<Effect>)
    ensures Value(s) == old(Value(s)) && err == (sid !in s.sessions.m || !launch.Launched?)
    ensures !err ==> (Value(s'), effs) == PushFrame(old(Value(s)), sid, launch.plan, conn, req)
    ensures sid in s.sessions.m && launch.Unlaunchable? ==>
              && sid in s'.sessions.m
              && |Value(s').sessions[sid].frames| == |old(Value(s)).sessions[sid].frames| + 1
    ensures s'.sessions == s.sessions || fresh(s'.sessions)
  {
    if sid !in s.sessions.m || launch.Refused? {
      return true, s, [];
    }
    var sess := s.sessions.m[sid];
    var f := s.nextId;
    var frame := Frame(f, NewDriver(if launch.Launched? then launch.plan.claude else launch.claude), Meta(0, f, ""));
    var mru := PushRecent(sess.mru, sess.head);
    var frames := AppendFrame(sess.frames, frame);
    sess := Entry(frames, f, mru, PushAll(sess.full, sess.head));
    var sessions := s.sessions.Clone();
    sessions.m := sessions.m[sid := sess];
    s' := s.(sessions := sessions, nextId := s.nextId + 1);
    if launch.Unlaunchable? {
      return true, s', [];
    }
    frames[frames.Length - 1] := frame.(meta := frame.meta.(options := launch.plan.options));
    sessions.m := sessions.m[sid := sess];
    assert sessions.m == s.sessions.m[sid := sess];
    SessionsPut(s.sessions.m, sid, sess);
    assert SessionOf(sess) == Pushed(old(Value(s)).sessions[sid], NewFrame(f, launch.plan, true)) by {
      assert frames[..] == old(Value(s)).sessions[sid].frames + [NewFrame(f, launch.plan, true)];
    }
    err, effs := false, [EffSpawn(sid, f, conn, req)];
  }

  /** reducePushDriver: the state that came in is kept when the push fails. */
  method PushDriverRef(s: StateRef, conn: Conn, req: string, sid: Sid, launch: Launch)
    returns (s': StateRef, effs: seq<Effect>)
    ensures Value(s) == old(Value(s)) && (Value(s'), effs) == ReducePush(old(Value(s)), conn, req, sid, launch)
    ensures s'.sessions == s.sessions || fresh(s'.sessions)
  {
    var err, next, pushed := PushDriverInternal(s, sid, launch, conn, req);
    if err {
      return s, [EffReply(conn, req, false, 0)];
    }
    s', effs := next, pushed;
  }

  /** resolvePushDriverEffects. */
  method ResolveAll(s: StateRef, raw: seq<Effect>) returns (s': StateRef, effs: seq<Effect>)
    ensures Value(s) == old(Value(s)) && (Value(s'), effs) == ResolvePushes(old(Value(s)), raw)
    ensures s'.sessions == s.sessions || fresh(s'.sessions)
  {
    s', effs := s, [];
    ghost var v, v' := Value(s), Value(s);
    ghost var goal := ResolvePushes(v, raw);
    assert raw[0..] == raw && [] + goal.1 == goal.1;
    for k := 0 to |raw|
      invariant Value(s) == v && Value(s') == v' && (s'.sessions == s.sessions || fresh(s'.sessions))
      invariant goal.0 == ResolvePushes(v', raw[k..]).0 && goal.1 == effs + ResolvePushes(v', raw[k..]).1
    {
      ResolveHead(v', raw, k, effs);
      if !raw[k].EffPushDriver? {
        effs := effs + [raw[k]];
      } else {
        var err, next, pushed := PushDriverInternal(s', raw[k].sid, raw[k].launch, 0, "");
        if !err {
          s', effs, v' := next, effs + pushed, Value(next);
        }
      }
    }
    assert raw[|raw|..] == [] && effs + [] == effs;
  }

  /** One step of ResolvePushes, with what was resolved before it. */
  lemma ResolveHead(v: State, raw: seq<Effect>, k: nat, done: seq<Effect>)
    requires k < |raw|
    ensures var r := ResolvePushes(v, raw[k..]);
            if !raw[k].EffPushDriver? then
              var r' := ResolvePushes(v, raw[k + 1..]); r.0 == r'.0 && done + r.1 == done + [raw[k]] + r'.1
            else if raw[k].sid in v.sessions && raw[k].launch.Launched? then
              var p := PushFrame(v, raw[k].sid, raw[k].launch.plan, 0, "");
              var r' := ResolvePushes(p.0, raw[k + 1..]); r.0 == r'.0 && done + r.1 == done + p.1 + r'.1
            else r == ResolvePushes(v, raw[k + 1..])
  {
    assert raw[k..][0] == raw[k] && raw[k..][1..] == raw[k + 1..];
  }

  /** reduceStopSession. */
  method StopSession(s: StateRef, conn: Conn, req: string, sid: Sid) returns (s': StateRef, effs: seq<Effect>)
    ensures Value(s) == old(Value(s)) && (Value(s'), effs) == ReduceStop(old(Value(s)), conn, req, sid)
    ensures s'.sessions == s.sessions || fresh(s'.sessions)
  {
    if sid !in s.sessions.m {
      return s, [EffReply(conn, req, false, 0)];
    }
    var removed := s.sessions.m[sid].frames[..];
    effs := TeardownFrames(removed, true);
    effs := [EffBroadcast] + effs + [EffReply(conn, req, true, 0), EffPersist];
    s' := RemoveSession(s, sid);
  }

  /** reduceSetHeadFrame. */
  method SetHeadFrame(s: StateRef, conn: Conn, req: string, sid: Sid, f: Fid) returns (s': StateRef, effs: seq<Effect>)
    ensures Value(s) == old(Value(s)) && (Value(s'), effs) == ReduceSetHead(old(Value(s)), conn, req, sid, f)
    ensures s'.sessions == s.sessions || fresh(s'.sessions)
  {
    ghost var v := Value(s);
    if sid !in s.sessions.m {
      return s, [EffReply(conn, req, false, 0)];
    }
    var sess := s.sessions.m[sid];
    var i := FindFrameIndex(sess.frames, f);
    HasFrameIs(v.sessions[sid], f);
    if i >= sess.frames.Length {
      return s, [EffReply(conn, req, false, 0)];
    }
    if sess.head == f {
      return s, [EffReply(conn, req, true, 0)];
    }
    var mru := PushRecent(sess.mru, sess.head);
    s' := EnterSession(s, sid, sess.(head := f, mru := mru, full := PushAll(sess.full, sess.head)));
    effs := [EffReply(conn, req, true, 0), EffPersist, EffBroadcast];
  }

  // ---- reduce_session_nav.go, reduce_tick.go and reduce_job.go --------------

  /** The subsystem write of reduceFrameSpawned and the target write of reduceSubsystem. */
  method AnnotateFrame(s: StateRef, f: Fid, note: Note) returns (s': StateRef)
    requires Sound(Value(s))
    ensures Value(s) == old(Value(s)) && Value(s') == Annotate(old(Value(s)), f, note)
    ensures s'.sessions == s.sessions || fresh(s'.sessions)
  {
    var found, sid, i := FindFrame(s, f);
    if !found {
      return s;
    }
    s' := NoteFrame(s, sid, i, note);
  }

  /** What reduceFrameSpawned records before the bootstrap. */
  method PrepareFrame(s: StateRef, f: Fid, boot: Boot) returns (s': StateRef)
    requires Sound(Value(s))
    ensures Value(s) == old(Value(s)) && Value(s') == Prepared(old(Value(s)), f, boot)
    ensures s'.sessions == s.sessions || fresh(s'.sessions)
  {
    AnnotateSound(Value(s), f, Subsystem(boot.subsystem));
    s' := AnnotateFrame(s, f, Subsystem(boot.subsystem));
    if boot.resolved {
      var ok, next, _ := StepFrameDriver(s', Drive(f, Elsewhere, [], boot.resolvedStops));
      if ok {
        s' := next;
      }
    }
  }

  /** bootstrapDriverSessionStart: only a root frame, and only of a bootstrapper. */
  method BootFrame(s: StateRef, sid: Sid, f: Fid, boot: Boot) returns (s': StateRef, effs: seq<Effect>)
    requires Sound(Value(s)) && sid in s.sessions.m && s.sessions.m[sid].frames.Length > 0
    ensures Value(s) == old(Value(s)) && (Value(s'), effs) == Booted(old(Value(s)), sid, f, boot)
    ensures s'.sessions == s.sessions || fresh(s'.sessions)
  {
    var root := s.sessions.m[sid].frames[0];
    s', effs := s, [];
    if root.id == f && root.driver.OtherDriver? && boot.bootstraps {
      var _, next, started := StepFrameDriver(s, Drive(f, Elsewhere, boot.raw, boot.stops));
      s', effs := next, started;
    }
  }

  /** reduceFrameSpawned. */
  method FrameSpawned(s: StateRef, sid: Sid, f: Fid, conn: Conn, req: string, boot: Boot)
    returns (s': StateRef, effs: seq<Effect>)
    requires Sound(Value(s))
    ensures Value(s) == old(Value(s)) && (Value(s'), effs) == ReduceSpawned(old(Value(s)), sid, f, conn, req, boot)
    ensures s'.sessions == s.sessions || fresh(s'.sessions)
  {
    ghost var v := Value(s);
    if sid !in s.sessions.m {
      return s, [];
    }
    var i := FindFrameIndex(s.sessions.m[sid].frames, f);
    HasFrameIs(v.sessions[sid], f);
    if i >= s.sessions.m[sid].frames.Length {
      return s, [];
    }
    assert Value(s) == v;
    s', effs := ArriveFrame(s, sid, f, boot);
    effs := effs + [EffRegister(f), EffPersist, EffBroadcast];
    assert effs + [] == effs;
    if conn != 0 {
      effs := effs + [EffReply(conn, req, true, f)];
    }
  }

  method ArriveFrame(s: StateRef, sid: Sid, f: Fid, boot: Boot) returns (s': StateRef, effs: seq<Effect>)
    requires Sound(Value(s))
    ensures Value(s) == old(Value(s)) && (Value(s'), effs) == Arrived(old(Value(s)), sid, f, boot)
    ensures s'.sessions == s.sessions || fresh(s'.sessions)
  {
    PreparedSound(Value(s), f, boot);
    s' := PrepareFrame(s, f, boot);
    effs := [];
    if sid in s'.sessions.m && s'.sessions.m[sid].frames.Length > 0 {
      s', effs := BootFrame(s', sid, f, boot);
    }
  }

  /** reduceSpawnFailed. */
  method SpawnFailed(s: StateRef, f: Fid, conn: Conn, req: string) returns (s': StateRef, effs: seq<Effect>)
    requires Sound(Value(s))
    ensures Value(s) == old(Value(s)) && (Value(s'), effs) == ReduceSpawnFailed(old(Value(s)), f, conn, req)
    ensures s'.sessions == s.sessions || fresh(s'.sessions)
  {
    s', effs := EvictFrame(s, f, false);
    assert effs + [] == effs;
    if conn != 0 {
      effs := effs + [EffReply(conn, req, false, f)];
    }
  }

  /** The crash branch of reduceFrameCommandExited. */
  method Crash(s: StateRef, dr: Drive) returns (s': StateRef, effs: seq<Effect>)
    requires Sound(Value(s))
    ensures Value(s) == old(Value(s)) && (s'.sessions == s.sessions || fresh(s'.sessions))
    ensures var r := StepDriver(old(Value(s)), dr.(stimulus := CommandExit));
            var (v', out) := if r.Some? then r.value else (old(Value(s)), []);
            Value(s') == v' && effs == out + [EffRelease(dr.frame)]
  {
    var _, next, out := StepFrameDriver(s, dr.(stimulus := CommandExit));
    s', effs := next, out + [EffRelease(dr.frame)];
  }

  /** reduceFrameCommandExited. */
  method CommandExited(s: StateRef, dr: Drive, code: int) returns (s': StateRef, effs: seq<Effect>)
    requires Sound(Value(s))
    ensures Value(s) == old(Value(s)) && (Value(s'), effs) == ReduceExited(old(Value(s)), dr, code)
    ensures s'.sessions == s.sessions || fresh(s'.sessions)
  {
    var found, sid, i := FindFrame(s, dr.frame);
    if !found {
      return s, [];
    }
    if IntentionalExit(code) {
      s', effs := EvictAt(s, sid, i, dr.frame, true);
    } else if IsStopped(s.sessions.m[sid].frames[i].driver) {
      s', effs := s, [];
    } else {
      s', effs := Crash(s, dr);
    }
  }

  /** The loop of stepActiveSessions over the drivers that are stepped. */
  method StepAll(s: StateRef, drives: seq<OutsideDrive>) returns (s': StateRef, effs: seq<Effect>)
    requires Sound(Value(s))
    ensures Value(s) == old(Value(s)) && (Value(s'), effs) == StepDrivers(old(Value(s)), drives)
    ensures s'.sessions == s.sessions || fresh(s'.sessions)
  {
    s', effs := s, [];
    ghost var v, v' := Value(s), Value(s);
    ghost var goal := StepDrivers(v, drives);
    assert drives[0..] == drives && [] + goal.1 == goal.1;
    for k := 0 to |drives|
      invariant Value(s) == v && Value(s') == v' && Sound(v') && (s'.sessions == s.sessions || fresh(s'.sessions))
      invariant goal.0 == StepDrivers(v', drives[k..]).0 && goal.1 == effs + StepDrivers(v', drives[k..]).1
    {
      StepHead(v', drives, k, effs);
      var ok, next, out := StepFrameDriver(s', drives[k]);
      if ok {
        StepDriverSound(v', drives[k]);
        s', effs, v' := next, effs + out, Value(next);
      }
    }
    assert drives[|drives|..] == [] && effs + [] == effs;
  }

  lemma StepHead(v: State, drives: seq<Drive>, k: nat, done: seq<Effect>)
    requires k < |drives|
    ensures var r := StepDrivers(v, drives[k..]);
            var one := StepDriver(v, drives[k]);
            if one.None? then r == StepDrivers(v, drives[k + 1..]) else
            var r' := StepDrivers(one.value.0, drives[k + 1..]); r.0 == r'.0 && done + r.1 == done + one.value.1 + r'.1
  {
    assert drives[k..][0] == drives[k] && drives[k..][1..] == drives[k + 1..];
  }

  /** Ticks, hooks, subsystem and file events. */
  method DriveFrames(s: StateRef, f: Fid, note: Note, drives: seq<OutsideDrive>, resolves: bool, persists: bool)
    returns (s': StateRef, effs: seq<Effect>)
    requires Sound(Value(s))
    ensures Value(s) == old(Value(s))
    ensures (Value(s'), effs) == ReduceDrive(old(Value(s)), f, note, drives, resolves, persists)
    ensures s'.sessions == s.sessions || fresh(s'.sessions)
  {
    AnnotateSound(Value(s), f, note);
    s' := AnnotateFrame(s, f, note);
    s', effs := StepResolve(s', drives, resolves);
    effs := effs + if persists then [EffPersist, EffBroadcast] else [];
  }

  /** The drivers are stepped and, for hooks and subsystem events, the pushes they ask for are made. */
  method StepResolve(s: StateRef, drives: seq<OutsideDrive>, resolves: bool) returns (s': StateRef, effs: seq<Effect>)
    requires Sound(Value(s))
    ensures Value(s) == old(Value(s)) && (s'.sessions == s.sessions || fresh(s'.sessions))
    ensures var r := StepDrivers(old(Value(s)), drives);
            (Value(s'), effs) == if resolves then ResolvePushes(r.0, r.1) else r
  {
    s', effs := StepAll(s, drives);
    if resolves {
      s', effs := ResolveAll(s', effs);
    }
  }

  /** reduceJobResult. */
  method JobResult(s: StateRef, job: JobId, raw: seq<Raw>, stops: bool) returns (s': StateRef, effs: seq<Effect>)
    requires Sound(Value(s))
    ensures Value(s) == old(Value(s)) && (Value(s'), effs) == ReduceJobResult(old(Value(s)), job, raw, stops)
    ensures s'.sessions == s.sessions || fresh(s'.sessions)
  {
    if job !in s.jobs {
      return s, [];
    }
    var meta := s.jobs[job];
    var s1 := s.(jobs := s.jobs - {job});
    JobSettledSound(Value(s), job);
    var ok, next, out := StepFrameDriver(s1, Drive(meta.frame, Result(meta.kind), raw, stops));
    if !ok {
      return s1, [];
    }
    s', effs := next, out + [EffPersist, EffBroadcast];
  }

  // ---- reduce.go ------------------------------------------------------------

  lemma ReduceSound(v: State, ev: Event)
    requires Sound(v)
    ensures Sound(Reduce(v, ev).0)
  {
    SoundGood(v);
    ReduceGood(v, ev);
    SoundGood(Reduce(v, ev).0);
  }

  /** Reduce. The map and the slices that came in are never written; the result has that same map, and then nothing has
      changed, or one that did not exist before. */
  method ReduceRef(s: StateRef, ev: Event) returns (s': StateRef, effs: seq<Effect>)
    requires Sound(Value(s))
    ensures s.sessions.m == old(s.sessions.m) && Value(s) == old(Value(s))
    ensures (Value(s'), effs) == Reduce(old(Value(s)), ev)
    ensures s'.sessions == s.sessions || fresh(s'.sessions)
    ensures s'.sessions == s.sessions ==> Value(s').sessions == old(Value(s)).sessions
  {
    match ev
    case EvCreate(conn, req, project, launch) => s', effs := CreateSession(s, conn, req, project, launch);
    case EvPush(conn, req, sid, launch) => s', effs := PushDriverRef(s, conn, req, sid, launch);
    case EvFork(conn, req, sid, launch) => s', effs := ForkSession(s, conn, req, sid, launch);
    case EvStop(conn, req, sid) => s', effs := StopSession(s, conn, req, sid);
    case EvSetHead(conn, req, sid, f) => s', effs := SetHeadFrame(s, conn, req, sid, f);
    case EvSpawned(sid, f, conn, req, boot) => s', effs := FrameSpawned(s, sid, f, conn, req, boot);
    case EvSpawnFailed(f, conn, req) => s', effs := SpawnFailed(s, f, conn, req);
    case EvVanished(f) => s', effs := EvictFrame(s, f, false);
    case EvExited(dr, code) => s', effs := CommandExited(s, dr, code);
    case EvDrive(f, note, drives, resolves, persists) =>
      s', effs := DriveFrames(s, f, note, drives, resolves, persists);
    case EvJobResult(job, raw, stops) => s', effs := JobResult(s, job, raw, stops);
  }
}
