/** What each request and each notice does to the sessions, in full: what the caller gets back, which session changes
    and how, and that nothing else does. */
module ClientRequests {
  import opened ClientState
  import opened ClientSessions
  import opened ClientTeardown

  /** The replies among some effects, in order. */
  function Said(effs: seq<Effect>): seq<Effect> {
    if effs == [] then [] else (if effs[0].EffReply? then [effs[0]] else []) + Said(effs[1..])
  }

  lemma {:induction false} SaidAppend(a: seq<Effect>, b: seq<Effect>)
    ensures Said(a + b) == Said(a) + Said(b)
    decreases |a|
  {
    if a == [] {
      assert a + b == b;
    } else {
      assert (a + b)[0] == a[0] && (a + b)[1..] == a[1..] + b;
      SaidAppend(a[1..], b);
    }
  }

  predicate Silent(effs: seq<Effect>) { forall k | 0 <= k < |effs| :: !effs[k].EffReply? }

  lemma {:induction false} SilentSaid(effs: seq<Effect>)
    requires Silent(effs)
    ensures Said(effs) == []
    decreases |effs|
  {
    if effs != [] { SilentSaid(effs[1..]); }
  }

  lemma SaidOne(eff: Effect)
    ensures Said([eff]) == if eff.EffReply? then [eff] else []
  {
    assert [eff][1..] == [];
  }

  /** Nothing happens but one refusal. */
  predicate Refusal(s: State, r: (State, seq<Effect>), conn: Conn, req: string) {
    r == (s, [EffReply(conn, req, false, 0)])
  }

  /** The state is stored and shown. */
  predicate Published(effs: seq<Effect>) { EffPersist in effs && EffBroadcast in effs }

  // ---- heads ----------------------------------------------------------------

  /** The session with another head: its old head is the most recently left frame. */
  predicate HeadMoved(sess: Session, sess': Session, f: Fid) {
    sess'.head == f && sess'.mru != [] && sess'.mru[0] == sess.head
  }

  /** Setting the head to a frame of the session makes it the head and changes nothing else; the request is granted, and
      the change is published if there is one. Any other request is refused. */
  lemma SetHeadLaw(s: State, conn: Conn, req: string, sid: Sid, f: Fid)
    requires Good(s)
    ensures var r := Reduce(s, EvSetHead(conn, req, sid, f));
            if sid !in s.sessions || (forall i | 0 <= i < |s.sessions[sid].frames| :: s.sessions[sid].frames[i].id != f)
            then Refusal(s, r, conn, req)
            else
              && sid in r.0.sessions && r.0 == s.(sessions := s.sessions[sid := r.0.sessions[sid]])
              && r.0.sessions[sid].frames == s.sessions[sid].frames && Said(r.1) == [EffReply(conn, req, true, 0)]
              && if s.sessions[sid].head == f then r.0 == s
                 else HeadMoved(s.sessions[sid], r.0.sessions[sid], f) && Published(r.1)
  {
    var r := Reduce(s, EvSetHead(conn, req, sid, f));
    SaidOne(EffReply(conn, req, true, 0));
    if sid in s.sessions && HasFrame(s.sessions[sid], f) {
      var sess := s.sessions[sid];
      assert SessionOk(sess, s.nextId);
      assert sess.head != 0;
      if sess.head == f {
        assert r.0.sessions == s.sessions[sid := sess];
      } else {
        PushOk(sess.mru, sess.full, sess.head);
        var tail := [EffPersist, EffBroadcast];
        assert r.1 == [EffReply(conn, req, true, 0)] + tail;
        SaidAppend([EffReply(conn, req, true, 0)], tail);
        SilentSaid(tail);
        assert r.1[1] == EffPersist && r.1[2] == EffBroadcast;
      }
    }
  }

  // ---- new frames -----------------------------------------------------------

  /** A frame as it is launched: no job running, not stopped, no backend yet. */
  predicate Newborn(fr: Frame, f: Fid, plan: Plan, target: Handle) {
    && fr.id == f && fr.meta.subsystem == 0 && fr.meta.target == target && fr.meta.options == plan.options
    && fr.driver == if plan.claude then Claude(false, false, false, false) else OtherDriver(false)
  }

  /** An accepted push puts one frame with a new ID on top of the session, as its head and its own target, and asks
      for its spawn on behalf of the caller. */
  lemma PushLaw(s: State, conn: Conn, req: string, sid: Sid, launch: Launch)
    requires Good(s)
    ensures var r := Reduce(s, EvPush(conn, req, sid, launch));
            if sid !in s.sessions || !launch.Launched? then Refusal(s, r, conn, req)
            else
              var sess, f := s.sessions[sid], s.nextId;
              && sid in r.0.sessions
              && r.0 == s.(sessions := s.sessions[sid := r.0.sessions[sid]], nextId := r.0.nextId)
              && (var sess' := r.0.sessions[sid];
                  && |sess'.frames| == |sess.frames| + 1 && sess'.frames[..|sess.frames|] == sess.frames
                  && Newborn(sess'.frames[|sess.frames|], f, launch.plan, f) && HeadMoved(sess, sess', f))
              && f !in Live(s) && f < r.0.nextId && r.1 == [EffSpawn(sid, f, conn, req)]
  {
    if sid in s.sessions && launch.Launched? {
      var sess := s.sessions[sid];
      assert SessionOk(sess, s.nextId) && sess.head != 0;
      PushOk(sess.mru, sess.full, sess.head);
      FreshId(s, s.nextId);
    }
  }

  lemma FreshId(s: State, f: Fid)
    requires Good(s) && f >= s.nextId
    ensures f !in Live(s) && f !in s.sessions
  {
  }

  /** One new session with one frame, which is its head; both IDs are new and nothing else changes. */
  predicate Opened(s: State, r: (State, seq<Effect>), conn: Conn, req: string, plan: Plan, own: bool) {
    var sid, f := s.nextId, s.nextId + 1;
    && sid in r.0.sessions && r.0 == s.(sessions := s.sessions[sid := r.0.sessions[sid]], nextId := r.0.nextId)
    && (var sess := r.0.sessions[sid];
        && |sess.frames| == 1 && sess.head == f && sess.mru == []
        && Newborn(sess.frames[0], f, plan, if own then f else 0))
    && sid !in s.sessions && f !in Live(s) && f < r.0.nextId && r.1 == [EffSpawn(sid, f, conn, req)]
  }

  lemma OpenedIs(s: State, conn: Conn, req: string, plan: Plan, own: bool)
    requires Good(s)
    ensures Opened(s, OpenSession(s, plan, own, conn, req), conn, req, plan, own)
  {
    FreshId(s, s.nextId);
    FreshId(s, s.nextId + 1);
  }

  lemma CreateLaw(s: State, conn: Conn, req: string, project: string, launch: Launch)
    requires Good(s)
    ensures var r := Reduce(s, EvCreate(conn, req, project, launch));
            if project == "" || !launch.Launched? then Refusal(s, r, conn, req)
            else Opened(s, r, conn, req, launch.plan, true)
  {
    if launch.Launched? { OpenedIs(s, conn, req, launch.plan, true); }
  }

  /** A fork opens a session of its own and leaves the one it was made from alone. */
  lemma ForkLaw(s: State, conn: Conn, req: string, sid: Sid, launch: Launch)
    requires Good(s)
    ensures var r := Reduce(s, EvFork(conn, req, sid, launch));
            if sid !in s.sessions || !launch.Launched? then Refusal(s, r, conn, req)
            else Opened(s, r, conn, req, launch.plan, false)
  {
    if launch.Launched? { OpenedIs(s, conn, req, launch.plan, false); }
  }

  // ---- frames that go -------------------------------------------------------

  lemma {:induction false} TeardownSilent(ids: seq<Fid>, kill: bool)
    ensures Silent(TeardownAll(ids, kill))
    decreases |ids|
  {
    if ids != [] { TeardownSilent(ids[1..], kill); }
  }

  /** A stop takes the session away and grants the request, once; the change is published. */
  lemma StopLaw(s: State, conn: Conn, req: string, sid: Sid)
    ensures var r := Reduce(s, EvStop(conn, req, sid));
            if sid !in s.sessions then Refusal(s, r, conn, req)
            else
              && r.0 == s.(sessions := s.sessions - {sid})
              && Said(r.1) == [EffReply(conn, req, true, 0)] && Published(r.1)
  {
    if sid in s.sessions {
      var ids := Ids(s.sessions[sid].frames);
      var front, tail := [EffBroadcast] + TeardownAll(ids, true), [EffReply(conn, req, true, 0), EffPersist];
      TeardownSilent(ids, true);
      SilentSaid(front);
      SaidAppend(front, tail);
      assert tail[1..] == [EffPersist];
      SaidOne(EffPersist);
      var effs := front + tail;
      assert effs[0] == EffBroadcast && effs[|front| + 1] == EffPersist;
    }
  }

  /** The head is gone: the most recently left frame that is still there takes its place and leaves the list with
      everything in front of it; without one the root does, and the list is empty. */
  predicate FellBack(sess: Session, sess': Session) {
    var ids := Ids(sess'.frames);
    || (exists p :: 0 <= p < |sess.mru| && sess.mru[p] in ids && (forall k | 0 <= k < p :: sess.mru[k] !in ids)
          && sess'.head == sess.mru[p] && sess'.mru == sess.mru[p + 1..])
    || ((forall k | 0 <= k < |sess.mru| :: sess.mru[k] !in ids)
          && sess'.frames != [] && sess'.head == sess'.frames[0].id && sess'.mru == [])
  }

  lemma FellBackIs(sess: Session, i: nat, nextId: nat)
    requires SessionOk(sess, nextId) && 0 < i < |sess.frames| && sess.head == sess.frames[i].id
    ensures FellBack(sess, WithoutFrame(sess, i))
  {
    PopIs(sess.mru, sess.frames[..i] + sess.frames[i + 1..]);
  }

  /** A frame leaves its session: with the root the session goes; any other frame leaves the rest in their order, and
      the head as it was unless it was the head. */
  predicate Left(s: State, s': State, sid: Sid, i: nat)
    requires sid in s.sessions && i < |s.sessions[sid].frames|
  {
    var sess := s.sessions[sid];
    if i == 0 then s' == s.(sessions := s.sessions - {sid})
    else
      && sid in s'.sessions && s' == s.(sessions := s.sessions[sid := s'.sessions[sid]])
      && var sess' := s'.sessions[sid];
         && sess'.frames == sess.frames[..i] + sess.frames[i + 1..]
         && if sess.head != sess.frames[i].id then sess'.head == sess.head && sess'.mru == sess.mru
            else FellBack(sess, sess')
  }

  predicate Quietly(effs: seq<Effect>) { Silent(effs) && Published(effs) }

  lemma QuietTail(effs: seq<Effect>)
    requires Silent(effs)
    ensures Quietly(effs + [EffPersist, EffBroadcast])
  {
    var all := effs + [EffPersist, EffBroadcast];
    assert all[|effs|] == EffPersist && all[|effs| + 1] == EffBroadcast;
  }

  lemma EvictQuietly(s: State, f: Fid, kill: bool)
    requires Alive(s, f)
    ensures Quietly(Evict(s, f, kill).1)
  {
    var sess := s.sessions[Owner(s, f)];
    TeardownSilent(Ids(sess.frames), kill);
    QuietTail(TeardownAll(Ids(sess.frames), kill));
    QuietTail(Teardown(f, kill));
  }

  /** Where a frame is. */
  predicate At(s: State, f: Fid, sid: Sid, i: nat) {
    sid in s.sessions && i < |s.sessions[sid].frames| && s.sessions[sid].frames[i].id == f
  }

  lemma EvictLeaves(s: State, f: Fid, kill: bool) returns (sid: Sid, i: nat)
    requires Good(s) && Alive(s, f)
    ensures At(s, f, sid, i) && Left(s, Evict(s, f, kill).0, sid, i)
  {
    sid := Owner(s, f);
    i := IndexIn(s.sessions[sid].frames, f);
    HasFrameIs(s.sessions[sid], f);
    if i > 0 && s.sessions[sid].head == f { FellBackIs(s.sessions[sid], i, s.nextId); }
  }

  /** A frame that is not there is evicted without effect; one that is leaves its session, and the change is
      published. */
  ghost predicate Evicted(s: State, f: Fid, r: (State, seq<Effect>)) {
    if f !in Live(s) then r == (s, [])
    else Quietly(r.1) && exists sid: Sid, i: nat :: At(s, f, sid, i) && Left(s, r.0, sid, i)
  }

  lemma EvictLaw(s: State, f: Fid, kill: bool)
    requires Good(s)
    ensures Evicted(s, f, Evict(s, f, kill))
  {
    AliveIs(s, f);
    if Alive(s, f) {
      EvictQuietly(s, f, kill);
      var sid, i := EvictLeaves(s, f, kill);
    }
  }

  lemma AliveIs(s: State, f: Fid)
    ensures Alive(s, f) <==> f in Live(s)
  {
    if Alive(s, f) {
      HasFrameIs(s.sessions[Owner(s, f)], f);
    }
    if f in Live(s) {
      var sid :| sid in s.sessions && f in FrameSet(s.sessions[sid]);
      HasFrameIs(s.sessions[sid], f);
    }
  }

  /** A frame that vanished is evicted. */
  lemma VanishedLaw(s: State, f: Fid)
    requires Good(s)
    ensures Evicted(s, f, Reduce(s, EvVanished(f)))
  {
    EvictLaw(s, f, false);
  }

  /** A failed spawn evicts its frame and refuses the request, if anybody made it. */
  lemma SpawnFailedLaw(s: State, f: Fid, conn: Conn, req: string)
    requires Good(s)
    ensures var r := Reduce(s, EvSpawnFailed(f, conn, req));
            && Said(r.1) == (if conn == 0 then [] else [EffReply(conn, req, false, f)])
            && exists effs :: effs <= r.1 && Evicted(s, f, (r.0, effs))
  {
    EvictLaw(s, f, false);
    EvictSilent(s, f, Evict(s, f, false));
    FailureSaid(Evict(s, f, false).1, f, conn, req);
  }

  lemma EvictSilent(s: State, f: Fid, r: (State, seq<Effect>))
    requires Evicted(s, f, r)
    ensures Silent(r.1)
  {
  }

  lemma FailureSaid(effs: seq<Effect>, f: Fid, conn: Conn, req: string)
    requires Silent(effs)
    ensures var all := effs + ReplyTo(conn, req, false, f);
            effs <= all && Said(all) == if conn == 0 then [] else [EffReply(conn, req, false, f)]
  {
    SilentSaid(effs);
    SaidAppend(effs, ReplyTo(conn, req, false, f));
    SaidOne(EffReply(conn, req, false, f));
  }

  // ---- frames that stay -----------------------------------------------------

  /** The session with one frame's record replaced. */
  predicate RewroteIn(sess: Session, sess': Session, f: Fid, fr: Frame) {
    && sess'.head == sess.head && sess'.mru == sess.mru && sess'.full == sess.full && |sess'.frames| == |sess.frames|
    && forall i | 0 <= i < |sess.frames| :: sess'.frames[i] == if sess.frames[i].id == f then fr else sess.frames[i]
  }

  /** All sessions are there with their frames, heads and lists; only the record of one frame is different. */
  predicate Rewrote(s: State, s': State, f: Fid, fr: Frame) {
    && s'.nextId == s.nextId && s'.sessions.Keys == s.sessions.Keys
    && forall sid | sid in s.sessions :: RewroteIn(s.sessions[sid], s'.sessions[sid], f, fr)
  }

  lemma OwnerIs(s: State, f: Fid, sid: Sid, i: nat)
    requires Sound(s) && At(s, f, sid, i)
    ensures Alive(s, f) && Owner(s, f) == sid && IndexIn(s.sessions[sid].frames, f) == i
  {
    SoundGood(s);
    assert HasFrame(s.sessions[sid], f);
    HasFrameIs(s.sessions[sid], f);
    HasFrameIs(s.sessions[Owner(s, f)], f);
    OneOwner(s, f, Owner(s, f), sid);
    assert SessionOk(s.sessions[sid], s.nextId);
  }

  lemma NotElsewhere(s: State, f: Fid, sid: Sid, i: nat, x: Sid, j: nat)
    requires Sound(s) && At(s, f, sid, i) && At(s, f, x, j)
    ensures x == sid && j == i
  {
    OwnerIs(s, f, sid, i);
    OwnerIs(s, f, x, j);
  }

  lemma PutRewrote(s: State, f: Fid, sid: Sid, i: nat, fr: Frame)
    requires Sound(s) && At(s, f, sid, i)
    ensures Rewrote(s, PutSession(s, sid, s.sessions[sid].(frames := s.sessions[sid].frames[i := fr])), f, fr)
  {
    var s' := PutSession(s, sid, s.sessions[sid].(frames := s.sessions[sid].frames[i := fr]));
    forall x | x in s.sessions ensures RewroteIn(s.sessions[x], s'.sessions[x], f, fr) {
      forall j | 0 <= j < |s.sessions[x].frames|
        ensures s'.sessions[x].frames[j] == if s.sessions[x].frames[j].id == f then fr else s.sessions[x].frames[j]
      {
        if s.sessions[x].frames[j].id == f { NotElsewhere(s, f, sid, i, x, j); }
      }
    }
  }

  lemma SameSessions(s: State, s1: State, s2: State, f: Fid, fr: Frame)
    requires Rewrote(s, s1, f, fr) && s2.sessions == s1.sessions && s2.nextId == s1.nextId
    ensures Rewrote(s, s2, f, fr)
  {
  }

  lemma JobsBelow(s: State)
    requires Sound(s)
    ensures forall j | j in s.jobs :: j <= s.nextJob
  {
    SoundGood(s);
  }

  /** A driver's effects as they are sent on: jobs for its frame, pushes for its session, the rest as it is. */
  predicate Mirrors(raw: seq<Raw>, effs: seq<Effect>, sid: Sid, f: Fid) {
    && |effs| == |raw|
    && forall k | 0 <= k < |raw| ::
         match raw[k]
         case StartJob(kind) => effs[k].EffStartJob? && effs[k].frame == f && effs[k].kind == kind
         case PushDriver(launch) => effs[k] == EffPushDriver(sid, launch)
         case Misc => effs[k] == EffMisc
  }

  lemma {:induction false} PostProcessMirrors(s: State, sid: Sid, f: Fid, raw: seq<Raw>)
    ensures Mirrors(raw, PostProcess(s, sid, f, raw).1, sid, f)
    decreases |raw|
  {
    if raw != [] {
      var s1 := if raw[0].StartJob?
                then s.(nextJob := s.nextJob + 1, jobs := s.jobs[s.nextJob + 1 := Job(f, raw[0].kind)])
                else s;
      PostProcessMirrors(s1, sid, f, raw[1..]);
      var rest := PostProcess(s1, sid, f, raw[1..]).1;
      assert PostProcess(s, sid, f, raw).1[1..] == rest;
      assert forall k | 0 < k < |raw| :: raw[k] == raw[1..][k - 1] && PostProcess(s, sid, f, raw).1[k] == rest[k - 1];
    }
  }

  /** Stepping the driver of a frame changes that driver, to what its Step returns, and no other part of any session;
      without the frame or its driver there is no step. */
  lemma StepDriverLaw(s: State, dr: Drive, sid: Sid, i: nat)
    requires Sound(s) && At(s, dr.frame, sid, i)
    ensures var fr := s.sessions[sid].frames[i];
            if fr.driver.NoDriver? then StepDriver(s, dr) == None
            else
              && StepDriver(s, dr).Some?
              && Rewrote(s, StepDriver(s, dr).value.0, dr.frame, fr.(driver := DriverStep(fr.driver, i == 0, dr).0))
              && Mirrors(DriverStep(fr.driver, i == 0, dr).1, StepDriver(s, dr).value.1, sid, dr.frame)
  {
    OwnerIs(s, dr.frame, sid, i);
    var fr := s.sessions[sid].frames[i];
    if !fr.driver.NoDriver? {
      var r := DriverStep(fr.driver, i == 0, dr);
      var s1 := PutSession(s, sid, SetDriver(s.sessions[sid], i, r.0));
      PutRewrote(s, dr.frame, sid, i, fr.(driver := r.0));
      JobsBelow(s);
      PostProcessMirrors(s1, sid, dr.frame, r.1);
      PostProcessKeeps(s1, sid, dr.frame, r.1);
      SameSessions(s, s1, StepDriver(s, dr).value.0, dr.frame, fr.(driver := r.0));
    }
  }

  /** What a crash leaves of a driver: Claude's root driver is stopped, its other drivers are as they were, and any
      other driver decides for itself. */
  function Crashed(d: Driver, root: bool, stops: bool): Driver {
    match d
    case Claude(t, b, m, stopped) => Claude(t, b, m, root || stopped)
    case OtherDriver(_) => OtherDriver(stops)
    case NoDriver => d
  }

  predicate Stopped(d: Driver) { (d.Claude? && d.stopped) || (d.OtherDriver? && d.stopped) }

  lemma CrashIs(s: State, dr: Drive, code: int, sid: Sid, i: nat)
    requires Sound(s) && At(s, dr.frame, sid, i) && !Deliberate(code)
    ensures var st := StepDriver(s, dr.(stimulus := CommandExit));
            ReduceExited(s, dr, code)
            == if Stopped(s.sessions[sid].frames[i].driver) then (s, [])
               else (if st.Some? then st.value.0 else s, (if st.Some? then st.value.1 else []) + [EffRelease(dr.frame)])
  {
    OwnerIs(s, dr.frame, sid, i);
  }

  lemma SameRewrote(s: State, f: Fid, sid: Sid, i: nat)
    requires Sound(s) && At(s, f, sid, i)
    ensures Rewrote(s, s, f, s.sessions[sid].frames[i])
  {
    var fr := s.sessions[sid].frames[i];
    PutRewrote(s, f, sid, i, fr);
    assert s.sessions[sid].frames[i := fr] == s.sessions[sid].frames;
    assert s.sessions[sid := s.sessions[sid]] == s.sessions;
  }

  lemma CrashedIs(d: Driver, root: bool, dr: Drive)
    requires !d.NoDriver? && dr.stimulus == CommandExit
    ensures DriverStep(d, root, dr).0 == Crashed(d, root, dr.stops)
  {
  }

  lemma CrashSteps(s: State, dr: Drive, sid: Sid, i: nat)
    requires Sound(s) && At(s, dr.frame, sid, i) && dr.stimulus == CommandExit
    ensures var st := StepDriver(s, dr);
            var fr := s.sessions[sid].frames[i];
            Rewrote(s, if st.Some? then st.value.0 else s, dr.frame,
                    fr.(driver := Crashed(fr.driver, i == 0, dr.stops)))
  {
    var fr := s.sessions[sid].frames[i];
    StepDriverLaw(s, dr, sid, i);
    if fr.driver.NoDriver? {
      SameRewrote(s, dr.frame, sid, i);
    } else {
      CrashedIs(fr.driver, i == 0, dr);
    }
  }

  lemma CrashLaw(s: State, dr: Drive, code: int, sid: Sid, i: nat)
    requires Sound(s) && At(s, dr.frame, sid, i) && !Deliberate(code) && !Stopped(s.sessions[sid].frames[i].driver)
    ensures var r := ReduceExited(s, dr, code);
            var fr := s.sessions[sid].frames[i];
            && Rewrote(s, r.0, dr.frame, fr.(driver := Crashed(fr.driver, i == 0, dr.stops)))
            && r.1 != [] && r.1[|r.1| - 1] == EffRelease(dr.frame)
  {
    CrashIs(s, dr, code, sid, i);
    CrashSteps(s, dr.(stimulus := CommandExit), sid, i);
  }

  /** A command exit. A deliberate one evicts the frame. A crash of a stopped frame does nothing; any other steps its
      driver, keeps all frames, and releases the sandbox last. */
  lemma ExitedLaw(s: State, dr: Drive, code: int, sid: Sid, i: nat)
    requires Sound(s) && At(s, dr.frame, sid, i)
    ensures var r := Reduce(s, EvExited(dr, code));
            var fr := s.sessions[sid].frames[i];
            if Deliberate(code) then Evicted(s, dr.frame, r)
            else if Stopped(fr.driver) then r == (s, [])
            else
              && Rewrote(s, r.0, dr.frame, fr.(driver := Crashed(fr.driver, i == 0, dr.stops)))
              && r.1 != [] && r.1[|r.1| - 1] == EffRelease(dr.frame)
  {
    if Deliberate(code) {
      SoundGood(s);
      EvictLaw(s, dr.frame, true);
      AliveIs(s, dr.frame);
    } else {
      CrashIs(s, dr, code, sid, i);
      if !Stopped(s.sessions[sid].frames[i].driver) { CrashLaw(s, dr, code, sid, i); }
    }
  }

  lemma ExitedNowhere(s: State, dr: Drive, code: int)
    requires dr.frame !in Live(s)
    ensures Reduce(s, EvExited(dr, code)) == (s, [])
  {
    AliveIs(s, dr.frame);
  }

  // ---- notes, spawns, drives and results ------------------------------------

  lemma RewroteAt(s: State, s': State, f: Fid, fr: Frame, sid: Sid, i: nat)
    requires At(s, f, sid, i) && Rewrote(s, s', f, fr) && fr.id == f
    ensures At(s', f, sid, i) && s'.sessions[sid].frames[i] == fr
  {
    assert RewroteIn(s.sessions[sid], s'.sessions[sid], f, fr);
  }

  lemma RewroteTwice(s: State, s1: State, s2: State, f: Fid, fr1: Frame, fr2: Frame)
    requires Rewrote(s, s1, f, fr1) && Rewrote(s1, s2, f, fr2) && fr1.id == f
    ensures Rewrote(s, s2, f, fr2)
  {
    forall sid | sid in s.sessions ensures RewroteIn(s.sessions[sid], s2.sessions[sid], f, fr2) {
      assert RewroteIn(s.sessions[sid], s1.sessions[sid], f, fr1);
      assert RewroteIn(s1.sessions[sid], s2.sessions[sid], f, fr2);
    }
  }

  /** A note writes its handle over the frame's, unless it has none. */
  function Marked(m: Meta, note: Note): Meta {
    match note
    case Subsystem(h) => Meta(if h == 0 then m.subsystem else h, m.target, m.options)
    case Target(h) => Meta(m.subsystem, if h == 0 then m.target else h, m.options)
  }

  lemma AnnotateLaw(s: State, f: Fid, note: Note, sid: Sid, i: nat)
    requires Sound(s) && At(s, f, sid, i)
    ensures var fr := s.sessions[sid].frames[i];
            && Rewrote(s, Annotate(s, f, note), f, fr.(meta := Marked(fr.meta, note)))
            && Annotate(s, f, note).jobs == s.jobs
  {
    var fr := s.sessions[sid].frames[i];
    OwnerIs(s, f, sid, i);
    PutRewrote(s, f, sid, i, fr.(meta := Marked(fr.meta, note)));
  }

  lemma AnnotateNowhere(s: State, f: Fid, note: Note)
    requires f !in Live(s)
    ensures Annotate(s, f, note) == s
  {
    AliveIs(s, f);
  }

  /** An event that steps one driver: the driver becomes what its Step returns, and all other frames, heads and lists
      stay. */
  lemma DriveLaw(s: State, dr: OutsideDrive, sid: Sid, i: nat, persists: bool)
    requires Sound(s) && At(s, dr.frame, sid, i)
    ensures var fr := s.sessions[sid].frames[i];
            var r := Reduce(s, EvDrive(0, Target(0), [dr], false, persists));
            Rewrote(s, r.0, dr.frame, if fr.driver.NoDriver? then fr
                                      else fr.(driver := DriverStep(fr.driver, i == 0, dr).0))
  {
    var drives: seq<OutsideDrive> := [dr];
    NoFrameZero(s);
    AnnotateNowhere(s, 0, Target(0));
    OneDrive(s, dr);
    StepDriverLaw(s, dr, sid, i);
    SameRewrote(s, dr.frame, sid, i);
  }

  lemma NoFrameZero(s: State)
    requires Sound(s)
    ensures 0 !in Live(s)
  {
    SoundGood(s);
  }

  lemma OneDrive(s: State, dr: Drive)
    ensures var st := StepDriver(s, dr);
            StepDrivers(s, [dr]) == if st.Some? then st.value else (s, [])
  {
    var st := StepDriver(s, dr);
    assert [dr][1..] == [];
    if st.Some? {
      assert StepDrivers(st.value.0, []) == (st.value.0, []);
      assert st.value.1 + [] == st.value.1;
    }
  }

  /** Several drivers are stepped one after the other, each finding what the ones before it left. */
  lemma {:induction false} StepDriversInTurn(s: State, a: seq<Drive>, b: seq<Drive>)
    ensures var (s1, e1) := StepDrivers(s, a);
            var (s2, e2) := StepDrivers(s1, b);
            StepDrivers(s, a + b) == (s2, e1 + e2)
    decreases |a|
  {
    if a == [] {
      assert a + b == b;
      var rest := StepDrivers(s, b);
      assert [] + rest.1 == rest.1;
    } else {
      assert (a + b)[0] == a[0] && (a + b)[1..] == a[1..] + b;
      var st := StepDriver(s, a[0]);
      var s1 := if st.Some? then st.value.0 else s;
      StepDriversInTurn(s1, a[1..], b);
      if st.Some? {
        var rest := StepDrivers(s1, a[1..]);
        assert st.value.1 + rest.1 + StepDrivers(rest.0, b).1 == st.value.1 + (rest.1 + StepDrivers(rest.0, b).1);
      }
    }
  }

  /** A result goes to the frame that asked, as the result of the kind of job it asked for. */
  lemma ResultLaw(s: State, job: JobId, raw: seq<Raw>, stops: bool, sid: Sid, i: nat)
    requires Sound(s) && job in s.jobs && At(s, s.jobs[job].frame, sid, i)
    ensures var fr := s.sessions[sid].frames[i];
            var r := Reduce(s, EvJobResult(job, raw, stops));
            var dr := Drive(fr.id, Result(s.jobs[job].kind), raw, stops);
            Rewrote(s, r.0, fr.id, if fr.driver.NoDriver? then fr
                                   else fr.(driver := DriverStep(fr.driver, i == 0, dr).0))
  {
    var s1 := s.(jobs := s.jobs - {job});
    JobSettledSound(s, job);
    StepDriverLaw(s1, Drive(s.jobs[job].frame, Result(s.jobs[job].kind), raw, stops), sid, i);
    SameRewrote(s, s.jobs[job].frame, sid, i);
  }

  lemma {:induction false} PostProcessSilent(s: State, sid: Sid, f: Fid, raw: seq<Raw>)
    ensures Silent(PostProcess(s, sid, f, raw).1)
    decreases |raw|
  {
    if raw != [] {
      var s1 := if raw[0].StartJob?
                then s.(nextJob := s.nextJob + 1, jobs := s.jobs[s.nextJob + 1 := Job(f, raw[0].kind)])
                else s;
      PostProcessSilent(s1, sid, f, raw[1..]);
    }
  }

  lemma StepDriverSilent(s: State, dr: Drive)
    requires StepDriver(s, dr).Some?
    ensures Silent(StepDriver(s, dr).value.1)
  {
    var sid := Owner(s, dr.frame);
    var sess := s.sessions[sid];
    var i := IndexIn(sess.frames, dr.frame);
    var r := DriverStep(sess.frames[i].driver, i == 0, dr);
    PostProcessSilent(PutSession(s, sid, SetDriver(sess, i, r.0)), sid, dr.frame, r.1);
  }

  /** A driver that is stepped with nothing it reacts to: Claude is as it was, any other driver decides for itself. */
  function Nudged(d: Driver, stops: bool): Driver { if d.OtherDriver? then OtherDriver(stops) else d }

  lemma NudgedIs(d: Driver, root: bool, dr: Drive)
    requires !d.NoDriver? && dr.stimulus == Elsewhere
    ensures DriverStep(d, root, dr).0 == Nudged(d, dr.stops)
  {
  }

  lemma NudgeLaw(s: State, dr: Drive, sid: Sid, i: nat)
    requires Sound(s) && At(s, dr.frame, sid, i) && dr.stimulus == Elsewhere
    ensures var st := StepDriver(s, dr);
            var fr := s.sessions[sid].frames[i];
            Rewrote(s, if st.Some? then st.value.0 else s, dr.frame, fr.(driver := Nudged(fr.driver, dr.stops)))
  {
    var fr := s.sessions[sid].frames[i];
    StepDriverLaw(s, dr, sid, i);
    if fr.driver.NoDriver? {
      SameRewrote(s, dr.frame, sid, i);
    } else {
      NudgedIs(fr.driver, i == 0, dr);
    }
  }

  lemma NudgeAfter(s: State, s1: State, fr1: Frame, dr: Drive, sid: Sid, i: nat)
    requires At(s, dr.frame, sid, i) && Rewrote(s, s1, dr.frame, fr1) && fr1.id == dr.frame && Sound(s1)
    requires dr.stimulus == Elsewhere
    ensures var st := StepDriver(s1, dr);
            Rewrote(s, if st.Some? then st.value.0 else s1, dr.frame, fr1.(driver := Nudged(fr1.driver, dr.stops)))
  {
    RewroteAt(s, s1, dr.frame, fr1, sid, i);
    NudgeLaw(s1, dr, sid, i);
    var st := StepDriver(s1, dr);
    var s2 := if st.Some? then st.value.0 else s1;
    RewroteTwice(s, s1, s2, dr.frame, fr1, fr1.(driver := Nudged(fr1.driver, dr.stops)));
  }

  lemma PreparedLaw(s: State, f: Fid, boot: Boot, sid: Sid, i: nat)
    requires Sound(s) && At(s, f, sid, i)
    ensures var fr := s.sessions[sid].frames[i];
            var d := if boot.resolved then Nudged(fr.driver, boot.resolvedStops) else fr.driver;
            Rewrote(s, Prepared(s, f, boot), f,
                    fr.(meta := Marked(fr.meta, Subsystem(boot.subsystem)), driver := d))
  {
    var fr := s.sessions[sid].frames[i];
    var s1 := Annotate(s, f, Subsystem(boot.subsystem));
    AnnotateLaw(s, f, Subsystem(boot.subsystem), sid, i);
    AnnotateSound(s, f, Subsystem(boot.subsystem));
    if boot.resolved {
      var fr1 := fr.(meta := Marked(fr.meta, Subsystem(boot.subsystem)));
      NudgeAfter(s, s1, fr1, Drive(f, Elsewhere, [], boot.resolvedStops), sid, i);
    }
  }

  lemma BootedLaw(s: State, f: Fid, boot: Boot, sid: Sid, i: nat)
    requires Sound(s) && At(s, f, sid, i)
    ensures var fr := s.sessions[sid].frames[i];
            Rewrote(s, Booted(s, sid, f, boot).0, f,
                    fr.(driver := if i == 0 && boot.bootstraps then Nudged(fr.driver, boot.stops) else fr.driver))
    ensures Silent(Booted(s, sid, f, boot).1)
  {
    var dr := Drive(f, Elsewhere, boot.raw, boot.stops);
    OwnerIs(s, f, sid, i);
    NudgeLaw(s, dr, sid, i);
    SameRewrote(s, f, sid, i);
    if StepDriver(s, dr).Some? { StepDriverSilent(s, dr); }
    assert s.sessions[sid].frames[0].id == f <==> i == 0;
  }

  /** The driver of a frame whose spawn is done. */
  function Settled(d: Driver, root: bool, boot: Boot): Driver {
    var d1 := if boot.resolved then Nudged(d, boot.resolvedStops) else d;
    if root && boot.bootstraps then Nudged(d1, boot.stops) else d1
  }

  lemma ArrivedLaw(s: State, f: Fid, boot: Boot, sid: Sid, i: nat)
    requires Sound(s) && At(s, f, sid, i)
    ensures var fr := s.sessions[sid].frames[i];
            Rewrote(s, Arrived(s, sid, f, boot).0, f,
                    fr.(meta := Marked(fr.meta, Subsystem(boot.subsystem)), driver := Settled(fr.driver, i == 0, boot)))
    ensures Silent(Arrived(s, sid, f, boot).1)
  {
    var s1 := Prepared(s, f, boot);
    var fr := s.sessions[sid].frames[i];
    var d := if boot.resolved then Nudged(fr.driver, boot.resolvedStops) else fr.driver;
    var fr1 := fr.(meta := Marked(fr.meta, Subsystem(boot.subsystem)), driver := d);
    PreparedLaw(s, f, boot, sid, i);
    PreparedSound(s, f, boot);
    RewroteAt(s, s1, f, fr1, sid, i);
    BootedLaw(s1, f, boot, sid, i);
    RewroteTwice(s, s1, Arrived(s, sid, f, boot).0, f, fr1,
                 fr1.(driver := if i == 0 && boot.bootstraps then Nudged(fr1.driver, boot.stops) else fr1.driver));
  }

  /** A finished spawn writes the subsystem on its frame, lets the driver of a bootstrapped root react, and keeps
      everything else of the sessions; the frame is registered, the state published, and the request granted. */
  lemma SpawnedLaw(s: State, f: Fid, conn: Conn, req: string, boot: Boot, sid: Sid, i: nat)
    requires Sound(s) && At(s, f, sid, i)
    ensures var r := Reduce(s, EvSpawned(sid, f, conn, req, boot));
            var fr := s.sessions[sid].frames[i];
            && Rewrote(s, r.0, f, fr.(meta := Marked(fr.meta, Subsystem(boot.subsystem)),
                                      driver := Settled(fr.driver, i == 0, boot)))
            && EffRegister(f) in r.1 && Published(r.1)
            && Said(r.1) == if conn == 0 then [] else [EffReply(conn, req, true, f)]
  {
    SpawnedIs(s, f, conn, req, boot, sid, i);
    ArrivedLaw(s, f, boot, sid, i);
    ArrivedSaid(Arrived(s, sid, f, boot).1, f, conn, req);
  }

  lemma SpawnedIs(s: State, f: Fid, conn: Conn, req: string, boot: Boot, sid: Sid, i: nat)
    requires At(s, f, sid, i)
    ensures var (s', effs) := Arrived(s, sid, f, boot);
            ReduceSpawned(s, sid, f, conn, req, boot)
            == (s', effs + [EffRegister(f), EffPersist, EffBroadcast] + ReplyTo(conn, req, true, f))
  {
    assert HasFrame(s.sessions[sid], f);
  }

  lemma ArrivedSaid(effs: seq<Effect>, f: Fid, conn: Conn, req: string)
    requires Silent(effs)
    ensures var all := effs + [EffRegister(f), EffPersist, EffBroadcast] + ReplyTo(conn, req, true, f);
            && EffRegister(f) in all && Published(all)
            && Said(all) == if conn == 0 then [] else [EffReply(conn, req, true, f)]
  {
    var front, tail := effs + [EffRegister(f), EffPersist, EffBroadcast], ReplyTo(conn, req, true, f);
    var all := front + tail;
    SilentSaid(front);
    SaidAppend(front, tail);
    SaidOne(EffReply(conn, req, true, f));
    var n := |effs|;
    assert all[n] == EffRegister(f) && all[n + 1] == EffPersist && all[n + 2] == EffBroadcast;
  }

  /** A spawn that ends after its frame has gone, or that names another session, changes nothing. */
  lemma SpawnedNowhere(s: State, f: Fid, conn: Conn, req: string, boot: Boot, sid: Sid)
    requires sid in s.sessions ==> f !in FrameSet(s.sessions[sid])
    ensures Reduce(s, EvSpawned(sid, f, conn, req, boot)) == (s, [])
  {
    if sid in s.sessions { HasFrameIs(s.sessions[sid], f); }
  }

  // ---- pushes asked for by drivers ------------------------------------------

  /** The push requests among a driver's effects, as if made by nobody. */
  function Pushes(effs: seq<Effect>): seq<Event> {
    if effs == [] then [] else
    Pushes(effs[..|effs| - 1])
    + if effs[|effs| - 1].EffPushDriver? then [EvPush(0, "", effs[|effs| - 1].sid, effs[|effs| - 1].launch)] else []
  }

  lemma {:induction false} ResolveSnoc(s: State, effs: seq<Effect>, e: Effect)
    ensures var (s1, e1) := ResolvePushes(s, effs);
            var (s2, e2) := ResolvePushes(s1, [e]);
            ResolvePushes(s, effs + [e]) == (s2, e1 + e2)
    decreases |effs|
  {
    if effs == [] {
      assert effs + [e] == [e];
      assert [] + ResolvePushes(s, [e]).1 == ResolvePushes(s, [e]).1;
    } else {
      assert (effs + [e])[0] == effs[0] && (effs + [e])[1..] == effs[1..] + [e];
      if !effs[0].EffPushDriver? {
        ResolveSnoc(s, effs[1..], e);
        var r := ResolvePushes(s, effs[1..]);
        assert [effs[0]] + r.1 + ResolvePushes(r.0, [e]).1 == [effs[0]] + (r.1 + ResolvePushes(r.0, [e]).1);
      } else if !effs[0].launch.Launched? || effs[0].sid !in s.sessions {
        ResolveSnoc(s, effs[1..], e);
      } else {
        var p := PushFrame(s, effs[0].sid, effs[0].launch.plan, 0, "");
        ResolveSnoc(p.0, effs[1..], e);
        var r := ResolvePushes(p.0, effs[1..]);
        assert p.1 + r.1 + ResolvePushes(r.0, [e]).1 == p.1 + (r.1 + ResolvePushes(r.0, [e]).1);
      }
    }
  }

  /** One effect: a push becomes what the same request would do, without its refusal; anything else passes. */
  lemma ResolveOne(s: State, e: Effect)
    ensures ResolvePushes(s, [e])
            == if !e.EffPushDriver? then (s, [e]) else
               var r := Reduce(s, EvPush(0, "", e.sid, e.launch));
               if Refusal(s, r, 0, "") then (s, []) else r
  {
    assert [e][1..] == [] && [e] + [] == [e];
    assert forall x :: ResolvePushes(x, []) == (x, []);
    if e.EffPushDriver? && e.launch.Launched? && e.sid in s.sessions {
      var p := PushFrame(s, e.sid, e.launch.plan, 0, "");
      assert p.1 + [] == p.1;
      assert !Refusal(s, p, 0, "");
    }
  }

  /** Resolving a driver's pushes leads to the state that the same push requests, made one by one, would lead to. */
  lemma {:induction false} PushesAsRequests(s: State, effs: seq<Effect>)
    ensures ResolvePushes(s, effs).0 == Run(s, Pushes(effs))
    decreases |effs|
  {
    if effs != [] {
      var front, e := effs[..|effs| - 1], effs[|effs| - 1];
      assert effs == front + [e];
      PushesAsRequests(s, front);
      ResolveSnoc(s, front, e);
      ResolveOne(ResolvePushes(s, front).0, e);
      if e.EffPushDriver? {
        var evs := Pushes(effs);
        assert evs[..|evs| - 1] == Pushes(front);
      } else {
        assert Pushes(effs) == Pushes(front);
      }
    }
  }

  /** An event that steps drivers is its note, then its drives, then, if it resolves pushes, their requests in turn; it
      is published if it is one that persists. */
  lemma DriveUnfolds(s: State, f: Fid, note: Note, drives: seq<OutsideDrive>, resolves: bool, persists: bool)
    ensures var r := Reduce(s, EvDrive(f, note, drives, resolves, persists));
            var (s1, effs) := StepDrivers(Annotate(s, f, note), drives);
            && r.0 == (if resolves then Run(s1, Pushes(effs)) else s1)
            && (persists ==> Published(r.1))
  {
    var (s1, effs) := StepDrivers(Annotate(s, f, note), drives);
    PushesAsRequests(s1, effs);
    var all := Reduce(s, EvDrive(f, note, drives, resolves, persists)).1;
    if persists {
      assert all[|all| - 2] == EffPersist && all[|all| - 1] == EffBroadcast;
    }
  }
}
