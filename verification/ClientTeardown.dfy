/** Teardown: the frames an event removes are exactly those it tears down. */
module ClientTeardown {
  import opened ClientState
  import opened ClientSessions

  function Live(s: State): set<Fid> { set sid, f | sid in s.sessions && f in FrameSet(s.sessions[sid]) :: f }

  datatype Act = Unregister | Unwatch | Release | Kill

  predicate Does(eff: Effect, act: Act) {
    match act
    case Unregister => eff.EffUnregister?
    case Unwatch => eff.EffUnwatch?
    case Release => eff.EffRelease?
    case Kill => eff.EffKill?
  }

  /** The frames that get one kind of effect, in order. */
  function Acted(effs: seq<Effect>, act: Act): seq<Fid> {
    if effs == [] then [] else (if Does(effs[0], act) then [effs[0].frame] else []) + Acted(effs[1..], act)
  }

  lemma {:induction false} ActedAppend(a: seq<Effect>, b: seq<Effect>, act: Act)
    ensures Acted(a + b, act) == Acted(a, act) + Acted(b, act)
    decreases |a|
  {
    if a == [] {
      assert a + b == b;
    } else {
      assert (a + b)[0] == a[0] && (a + b)[1..] == a[1..] + b;
      ActedAppend(a[1..], b, act);
    }
  }

  predicate Plain(effs: seq<Effect>) {
    forall k | 0 <= k < |effs| ::
      !effs[k].EffUnregister? && !effs[k].EffUnwatch? && !effs[k].EffRelease? && !effs[k].EffKill?
  }

  lemma {:induction false} PlainActs(effs: seq<Effect>, act: Act)
    requires Plain(effs)
    ensures Acted(effs, act) == []
    decreases |effs|
  {
    if effs != [] {
      PlainActs(effs[1..], act);
    }
  }

  /** What a teardown does to its frames: everything, but a kill only if asked. */
  function Hit(ids: seq<Fid>, kill: bool, act: Act): seq<Fid> { if act == Kill && !kill then [] else ids }

  lemma TeardownActs(f: Fid, kill: bool, act: Act)
    ensures Acted(Teardown(f, kill), act) == Hit([f], kill, act)
  {
    var tail := [EffRelease(f), EffUnregister(f), EffUnwatch(f)];
    ActedAppend(if kill then [EffKill(f)] else [], tail, act);
    var last, lasts := [EffUnwatch(f)], [EffUnregister(f), EffUnwatch(f)];
    assert tail[1..] == lasts && lasts[1..] == last && last[1..] == [] && [EffKill(f)][1..] == [];
    assert Acted(last, act) == if act == Unwatch then [f] else [];
    assert Acted(lasts, act) == if act == Release || act == Kill then [] else [f];
  }

  lemma {:induction false} TeardownAllActs(ids: seq<Fid>, kill: bool, act: Act)
    ensures Acted(TeardownAll(ids, kill), act) == Hit(ids, kill, act)
    decreases |ids|
  {
    if ids != [] {
      TeardownActs(ids[0], kill, act);
      TeardownAllActs(ids[1..], kill, act);
      ActedAppend(Teardown(ids[0], kill), TeardownAll(ids[1..], kill), act);
    }
  }

  lemma {:induction false} PostProcessPlain(s: State, sid: Sid, f: Fid, raw: seq<Raw>)
    ensures Plain(PostProcess(s, sid, f, raw).1)
    decreases |raw|
  {
    if raw != [] {
      var s1 := if raw[0].StartJob?
                then s.(nextJob := s.nextJob + 1, jobs := s.jobs[s.nextJob + 1 := Job(f, raw[0].kind)])
                else s;
      PostProcessPlain(s1, sid, f, raw[1..]);
    }
  }

  lemma StepDriverPlain(s: State, dr: Drive)
    requires StepDriver(s, dr).Some?
    ensures Plain(StepDriver(s, dr).value.1)
  {
    var sid := Owner(s, dr.frame);
    var sess := s.sessions[sid];
    var i := IndexIn(sess.frames, dr.frame);
    var r := DriverStep(sess.frames[i].driver, i == 0, dr);
    PostProcessPlain(PutSession(s, sid, SetDriver(sess, i, r.0)), sid, dr.frame, r.1);
  }

  lemma {:induction false} StepDriversPlain(s: State, drives: seq<Drive>)
    ensures Plain(StepDrivers(s, drives).1)
    decreases |drives|
  {
    if drives != [] {
      var r := StepDriver(s, drives[0]);
      if r.Some? {
        StepDriverPlain(s, drives[0]);
        StepDriversPlain(r.value.0, drives[1..]);
      } else {
        StepDriversPlain(s, drives[1..]);
      }
    }
  }

  lemma {:induction false} ResolvePlain(s: State, effs: seq<Effect>)
    requires Plain(effs)
    ensures Plain(ResolvePushes(s, effs).1)
    decreases |effs|
  {
    if effs != [] {
      if effs[0].EffPushDriver? && effs[0].launch.Launched? && effs[0].sid in s.sessions {
        ResolvePlain(PushFrame(s, effs[0].sid, effs[0].launch.plan, 0, "").0, effs[1..]);
      } else {
        ResolvePlain(s, effs[1..]);
      }
    }
  }

  // ---- which frames are gone ------------------------------------------------

  lemma OneOwner(s: State, f: Fid, a: Sid, b: Sid)
    requires Good(s) && a in s.sessions && b in s.sessions && f in FrameSet(s.sessions[a])
    requires f in FrameSet(s.sessions[b])
    ensures a == b
  {
  }

  lemma LivePutAt(s: State, sid: Sid, sess: Session, f: Fid)
    requires Good(s) && sid in s.sessions && (forall x | x in FrameSet(sess) :: x in FrameSet(s.sessions[sid]))
    ensures f in Live(s) && f !in Live(PutSession(s, sid, sess))
            <==> f in FrameSet(s.sessions[sid]) && f !in FrameSet(sess)
  {
    var s' := PutSession(s, sid, sess);
    if f in Live(s) {
      var x :| x in s.sessions && f in FrameSet(s.sessions[x]);
      if x != sid {
        assert s'.sessions[x] == s.sessions[x] && f in Live(s');
        if f in FrameSet(s.sessions[sid]) { OneOwner(s, f, x, sid); }
      } else if f in Live(s') {
        var y :| y in s'.sessions && f in FrameSet(s'.sessions[y]);
        if y != sid { OneOwner(s, f, y, sid); }
      } else {
        assert sid in s'.sessions && s'.sessions[sid] == sess;
      }
    }
  }

  lemma LivePut(s: State, sid: Sid, sess: Session)
    requires Good(s) && sid in s.sessions && (forall f | f in FrameSet(sess) :: f in FrameSet(s.sessions[sid]))
    ensures Live(s) - Live(PutSession(s, sid, sess)) == FrameSet(s.sessions[sid]) - FrameSet(sess)
  {
    forall f
      ensures f in Live(s) - Live(PutSession(s, sid, sess)) <==> f in FrameSet(s.sessions[sid]) - FrameSet(sess)
    {
      LivePutAt(s, sid, sess, f);
    }
  }

  lemma LiveDropAt(s: State, sid: Sid, f: Fid)
    requires Good(s) && sid in s.sessions
    ensures f in Live(s) && f !in Live(DropSession(s, sid)) <==> f in FrameSet(s.sessions[sid])
  {
    var s' := DropSession(s, sid);
    if f in Live(s) {
      var x :| x in s.sessions && f in FrameSet(s.sessions[x]);
      if x != sid {
        assert x in s'.sessions && f in Live(s');
        if f in FrameSet(s.sessions[sid]) { OneOwner(s, f, x, sid); }
      } else if f in Live(s') {
        var y :| y in s'.sessions && f in FrameSet(s'.sessions[y]);
        OneOwner(s, f, y, sid);
      }
    }
  }

  lemma LiveDrop(s: State, sid: Sid)
    requires Good(s) && sid in s.sessions
    ensures Live(s) - Live(DropSession(s, sid)) == FrameSet(s.sessions[sid])
  {
    forall f ensures f in Live(s) - Live(DropSession(s, sid)) <==> f in FrameSet(s.sessions[sid]) {
      LiveDropAt(s, sid, f);
    }
  }

  /** Nothing is removed when every session keeps its frames. */
  lemma LiveGrows(s: State, s': State)
    requires Keeps(s, s')
    ensures Live(s) <= Live(s')
  {
    forall f | f in Live(s) ensures f in Live(s') {
      var sid :| sid in s.sessions && f in FrameSet(s.sessions[sid]);
    }
  }

  predicate Keeps(s: State, s': State) {
    forall sid | sid in s.sessions :: sid in s'.sessions && FrameSet(s.sessions[sid]) <= FrameSet(s'.sessions[sid])
  }

  lemma StepDriverKeeps(s: State, dr: Drive)
    requires Good(s) && StepDriver(s, dr).Some?
    ensures Keeps(s, StepDriver(s, dr).value.0)
  {
    var sid := Owner(s, dr.frame);
    var sess := s.sessions[sid];
    var i := IndexIn(sess.frames, dr.frame);
    var r := DriverStep(sess.frames[i].driver, i == 0, dr);
    SetDriverOk(sess, i, r.0, s.nextId);
    PostProcessKeeps(PutSession(s, sid, SetDriver(sess, i, r.0)), sid, dr.frame, r.1);
  }

  lemma PutKeeps(s: State, sid: Sid, sess: Session)
    requires sid in s.sessions ==> FrameSet(s.sessions[sid]) <= FrameSet(sess)
    ensures Keeps(s, PutSession(s, sid, sess))
  {
  }

  lemma AnnotateKeeps(s: State, f: Fid, note: Note)
    requires Good(s)
    ensures Keeps(s, Annotate(s, f, note))
  {
    if Alive(s, f) {
      var sid := Owner(s, f);
      var sess := s.sessions[sid];
      var i := IndexIn(sess.frames, f);
      if i < |sess.frames| {
        SetMetaOk(sess, i, Noted(sess.frames[i].meta, note), s.nextId);
        PutKeeps(s, sid, SetMeta(sess, i, Noted(sess.frames[i].meta, note)));
      }
    }
  }

  lemma KeepsTwice(s: State, s1: State, s2: State)
    requires Keeps(s, s1) && Keeps(s1, s2)
    ensures Keeps(s, s2)
  {
  }

  lemma PreparedKeeps(s: State, f: Fid, boot: Boot)
    requires Good(s)
    ensures Keeps(s, Prepared(s, f, boot))
  {
    var note := Subsystem(boot.subsystem);
    var dr := Drive(f, Elsewhere, [], boot.resolvedStops);
    AnnotateKeeps(s, f, note);
    AnnotateGood(s, f, note);
    if StepDriver(Annotate(s, f, note), dr).Some? { StepDriverKeeps(Annotate(s, f, note), dr); }
  }

  lemma {:induction false} StepDriversKeep(s: State, drives: seq<Drive>)
    requires Good(s)
    ensures Keeps(s, StepDrivers(s, drives).0)
    decreases |drives|
  {
    if drives != [] {
      var r := StepDriver(s, drives[0]);
      if r.Some? {
        StepDriverKeeps(s, drives[0]);
        StepDriverGood(s, drives[0]);
        StepDriversKeep(r.value.0, drives[1..]);
      } else {
        StepDriversKeep(s, drives[1..]);
      }
    }
  }

  lemma PushKeeps(s: State, sid: Sid, plan: Plan, conn: Conn, req: string)
    requires Good(s) && sid in s.sessions
    ensures Keeps(s, PushFrame(s, sid, plan, conn, req).0)
  {
    PushedOk(s.sessions[sid], NewFrame(s.nextId, plan, true), s.nextId);
  }

  lemma {:induction false} ResolveKeeps(s: State, effs: seq<Effect>)
    requires Good(s)
    ensures Keeps(s, ResolvePushes(s, effs).0)
    decreases |effs|
  {
    if effs != [] {
      if effs[0].EffPushDriver? && effs[0].launch.Launched? && effs[0].sid in s.sessions {
        PushKeeps(s, effs[0].sid, effs[0].launch.plan, 0, "");
        PushGood(s, effs[0].sid, effs[0].launch.plan, 0, "");
        ResolveKeeps(PushFrame(s, effs[0].sid, effs[0].launch.plan, 0, "").0, effs[1..]);
      } else {
        ResolveKeeps(s, effs[1..]);
      }
    }
  }

  // ---- exactness ------------------------------------------------------------

  function AsSet(ids: seq<Fid>): set<Fid> { set i | 0 <= i < |ids| :: ids[i] }

  /** The frames present before and absent after are exactly those unregistered and unwatched, each once and
      each with a sandbox release; `extra` are releases of frames that stay. */
  predicate Exact(s: State, s': State, effs: seq<Effect>, extra: seq<Fid>) {
    var ids := Acted(effs, Unregister);
    && Distinct(ids) && AsSet(ids) == Live(s) - Live(s')
    && Acted(effs, Unwatch) == ids && Acted(effs, Release) == ids + extra
  }

  lemma NoneGone(s: State, s': State, effs: seq<Effect>)
    requires Keeps(s, s') && Plain(effs)
    ensures Exact(s, s', effs, [])
  {
    LiveGrows(s, s');
    PlainActs(effs, Unregister);
    PlainActs(effs, Unwatch);
    PlainActs(effs, Release);
  }

  lemma SessionGone(s: State, sid: Sid, kill: bool, front: seq<Effect>, tail: seq<Effect>)
    requires Good(s) && sid in s.sessions && Plain(front) && Plain(tail)
    ensures Exact(s, DropSession(s, sid), front + TeardownAll(Ids(s.sessions[sid].frames), kill) + tail, [])
  {
    var ids := Ids(s.sessions[sid].frames);
    var effs := TeardownAll(ids, kill);
    forall act: Act ensures Acted(front + effs + tail, act) == Hit(ids, kill, act) {
      ActedAppend(front + effs, tail, act);
      ActedAppend(front, effs, act);
      TeardownAllActs(ids, kill, act);
      PlainActs(front, act);
      PlainActs(tail, act);
    }
    LiveDrop(s, sid);
    FrameSetIs(s.sessions[sid]);
    assert AsSet(ids) == FrameSet(s.sessions[sid]);
  }

  lemma ChildGone(s: State, sid: Sid, i: nat, kill: bool, tail: seq<Effect>)
    requires Good(s) && sid in s.sessions && 0 < i < |s.sessions[sid].frames| && Plain(tail)
    ensures var sess := s.sessions[sid];
            var f := sess.frames[i].id;
            && Exact(s, PutSession(s, sid, WithoutFrame(sess, i)), Teardown(f, kill) + tail, [])
            && Live(s) - Live(PutSession(s, sid, WithoutFrame(sess, i))) == {f}
  {
    var sess := s.sessions[sid];
    var f := sess.frames[i].id;
    forall act: Act ensures Acted(Teardown(f, kill) + tail, act) == Hit([f], kill, act) {
      ActedAppend(Teardown(f, kill), tail, act);
      TeardownActs(f, kill, act);
      PlainActs(tail, act);
    }
    WithoutOk(sess, i, s.nextId);
    FrameSetIs(sess);
    FrameSetIs(WithoutFrame(sess, i));
    assert Ids(sess.frames)[i] == f;
    LivePut(s, sid, WithoutFrame(sess, i));
    assert FrameSet(sess) - FrameSet(WithoutFrame(sess, i)) == {f};
    assert [f][0] == f && AsSet([f]) == {f};
  }

  /** Evicting a root frame takes its whole session; evicting any other frame takes only itself. */
  lemma EvictExact(s: State, f: Fid, kill: bool)
    requires Good(s)
    ensures Exact(s, Evict(s, f, kill).0, Evict(s, f, kill).1, [])
    ensures Alive(s, f) ==> f in Live(s) - Live(Evict(s, f, kill).0)
    ensures Alive(s, f) ==> var sess := s.sessions[Owner(s, f)];
              Live(s) - Live(Evict(s, f, kill).0) == if sess.frames[0].id == f then FrameSet(sess) else {f}
  {
    if Alive(s, f) {
      var sid := Owner(s, f);
      var sess := s.sessions[sid];
      var i := IndexIn(sess.frames, f);
      HasFrameIs(sess, f);
      if i == 0 {
        SessionGone(s, sid, kill, [], [EffPersist, EffBroadcast]);
        assert [] + TeardownAll(Ids(sess.frames), kill) == TeardownAll(Ids(sess.frames), kill);
        LiveDrop(s, sid);
      } else {
        ChildGone(s, sid, i, kill, [EffPersist, EffBroadcast]);
      }
    } else {
      NoneGone(s, s, []);
    }
  }

  lemma ExactPlus(s: State, s': State, effs: seq<Effect>, tail: seq<Effect>)
    requires Exact(s, s', effs, []) && Plain(tail)
    ensures Exact(s, s', effs + tail, [])
  {
    forall act: Act ensures Acted(effs + tail, act) == Acted(effs, act) {
      ActedAppend(effs, tail, act);
      PlainActs(tail, act);
      assert Acted(effs, act) + [] == Acted(effs, act);
    }
  }

  lemma CrashExact(s: State, s': State, effs: seq<Effect>, f: Fid)
    requires Keeps(s, s') && Plain(effs)
    ensures Exact(s, s', effs + [EffRelease(f)], [f])
  {
    NoneGone(s, s', effs);
    ReleaseOne(effs, f);
  }

  lemma CrashStep(s: State, dr: Drive)
    requires Good(s)
    ensures var st := StepDriver(s, dr);
            Keeps(s, if st.Some? then st.value.0 else s) && Plain(if st.Some? then st.value.1 else [])
  {
    if StepDriver(s, dr).Some? {
      StepDriverKeeps(s, dr);
      StepDriverPlain(s, dr);
    }
  }

  lemma ExitedExact(s: State, dr: Drive, code: int)
    requires Good(s)
    ensures var r := ReduceExited(s, dr, code);
            Exact(s, r.0, r.1, if Alive(s, dr.frame) && !IntentionalExit(code) && r.1 != [] then [dr.frame] else [])
  {
    var r := ReduceExited(s, dr, code);
    if Alive(s, dr.frame) && IntentionalExit(code) {
      EvictExact(s, dr.frame, true);
    } else if r.1 == [] {
      NoneGone(s, s, []);
    } else {
      var st := StepDriver(s, dr.(stimulus := CommandExit));
      CrashStep(s, dr.(stimulus := CommandExit));
      CrashExact(s, r.0, if st.Some? then st.value.1 else [], dr.frame);
    }
  }

  lemma ReleaseOne(effs: seq<Effect>, f: Fid)
    requires Plain(effs)
    ensures Acted(effs + [EffRelease(f)], Unregister) == [] && Acted(effs + [EffRelease(f)], Unwatch) == []
    ensures Acted(effs + [EffRelease(f)], Release) == [f]
  {
    forall act: Act ensures Acted(effs + [EffRelease(f)], act) == if act == Release then [f] else [] {
      ActedAppend(effs, [EffRelease(f)], act);
      PlainActs(effs, act);
      assert [EffRelease(f)][1..] == [];
    }
  }

  lemma DriveExact(s: State, f: Fid, note: Note, drives: seq<OutsideDrive>, resolves: bool, persists: bool)
    requires Good(s)
    ensures var r := ReduceDrive(s, f, note, drives, resolves, persists); Exact(s, r.0, r.1, [])
  {
    var s1 := Annotate(s, f, note);
    AnnotateGood(s, f, note);
    AnnotateKeeps(s, f, note);
    var r := StepDrivers(s1, drives);
    StepDriversKeep(s1, drives);
    StepDriversPlain(s1, drives);
    StepDriversGood(s1, drives);
    ResolveKeeps(r.0, r.1);
    ResolvePlain(r.0, r.1);
    var r' := ReduceDrive(s, f, note, drives, resolves, persists);
    KeepsTwice(s, s1, r.0);
    KeepsTwice(s, r.0, r'.0);
    NoneGone(s, r'.0, r'.1);
  }

  lemma BootedKeeps(s: State, sid: Sid, f: Fid, boot: Boot)
    requires Good(s) && sid in s.sessions && s.sessions[sid].frames != []
    ensures Keeps(s, Booted(s, sid, f, boot).0) && Plain(Booted(s, sid, f, boot).1)
  {
    CrashStep(s, Drive(f, Elsewhere, boot.raw, boot.stops));
  }

  lemma ArrivedKeeps(s: State, sid: Sid, f: Fid, boot: Boot)
    requires Good(s)
    ensures Keeps(s, Arrived(s, sid, f, boot).0) && Plain(Arrived(s, sid, f, boot).1)
  {
    var s1 := Prepared(s, f, boot);
    PreparedKeeps(s, f, boot);
    PreparedGood(s, f, boot);
    if sid in s1.sessions && s1.sessions[sid].frames != [] {
      BootedKeeps(s1, sid, f, boot);
      KeepsTwice(s, s1, Booted(s1, sid, f, boot).0);
    }
  }

  lemma PlainPlus(a: seq<Effect>, b: seq<Effect>)
    requires Plain(a) && Plain(b)
    ensures Plain(a + b)
  {
  }

  lemma SpawnedKeeps(s: State, sid: Sid, f: Fid, conn: Conn, req: string, boot: Boot)
    requires Good(s)
    ensures var r := ReduceSpawned(s, sid, f, conn, req, boot); Keeps(s, r.0) && Plain(r.1)
  {
    ArrivedKeeps(s, sid, f, boot);
    var effs, tail := Arrived(s, sid, f, boot).1, [EffRegister(f), EffPersist, EffBroadcast];
    PlainPlus(effs, tail);
    PlainPlus(effs + tail, ReplyTo(conn, req, true, f));
  }

  lemma SpawnedExact(s: State, sid: Sid, f: Fid, conn: Conn, req: string, boot: Boot)
    requires Good(s)
    ensures var r := ReduceSpawned(s, sid, f, conn, req, boot); Exact(s, r.0, r.1, [])
  {
    SpawnedKeeps(s, sid, f, conn, req, boot);
    var r := ReduceSpawned(s, sid, f, conn, req, boot);
    NoneGone(s, r.0, r.1);
  }

  lemma JobResultExact(s: State, job: JobId, raw: seq<Raw>, stops: bool)
    requires Good(s)
    ensures var r := ReduceJobResult(s, job, raw, stops); Exact(s, r.0, r.1, [])
  {
    var r := ReduceJobResult(s, job, raw, stops);
    if job in s.jobs {
      var s1 := s.(jobs := s.jobs - {job});
      var dr := Drive(s.jobs[job].frame, Result(s.jobs[job].kind), raw, stops);
      JobsGood(s, s1);
      if StepDriver(s1, dr).Some? {
        StepDriverKeeps(s1, dr);
        StepDriverPlain(s1, dr);
      }
    }
    NoneGone(s, r.0, r.1);
  }

  /** The release a crash exit adds for a frame that stays. */
  function KeptRelease(s: State, ev: Event, effs: seq<Effect>): seq<Fid> {
    if ev.EvExited? && Alive(s, ev.drive.frame) && !IntentionalExit(ev.code) && effs != [] then [ev.drive.frame] else []
  }

  lemma OpenKeeps(s: State, plan: Plan, own: bool, conn: Conn, req: string)
    requires Good(s)
    ensures Keeps(s, OpenSession(s, plan, own, conn, req).0) && Plain(OpenSession(s, plan, own, conn, req).1)
  {
    assert s.nextId !in s.sessions;
  }

  lemma SetHeadKeeps(s: State, conn: Conn, req: string, sid: Sid, f: Fid)
    ensures Keeps(s, ReduceSetHead(s, conn, req, sid, f).0) && Plain(ReduceSetHead(s, conn, req, sid, f).1)
  {
  }

  lemma OpenExact(s: State, plan: Plan, own: bool, conn: Conn, req: string)
    requires Good(s)
    ensures Exact(s, OpenSession(s, plan, own, conn, req).0, OpenSession(s, plan, own, conn, req).1, [])
  {
    OpenKeeps(s, plan, own, conn, req);
    NoneGone(s, OpenSession(s, plan, own, conn, req).0, OpenSession(s, plan, own, conn, req).1);
  }

  lemma PushExact(s: State, sid: Sid, plan: Plan, conn: Conn, req: string)
    requires Good(s) && sid in s.sessions
    ensures Exact(s, PushFrame(s, sid, plan, conn, req).0, PushFrame(s, sid, plan, conn, req).1, [])
  {
    PushKeeps(s, sid, plan, conn, req);
    NoneGone(s, PushFrame(s, sid, plan, conn, req).0, PushFrame(s, sid, plan, conn, req).1);
  }

  lemma SetHeadExact(s: State, conn: Conn, req: string, sid: Sid, f: Fid)
    ensures Exact(s, ReduceSetHead(s, conn, req, sid, f).0, ReduceSetHead(s, conn, req, sid, f).1, [])
  {
    SetHeadKeeps(s, conn, req, sid, f);
    NoneGone(s, ReduceSetHead(s, conn, req, sid, f).0, ReduceSetHead(s, conn, req, sid, f).1);
  }

  lemma FailExact(s: State, conn: Conn, req: string)
    ensures Exact(s, Fail(s, conn, req).0, Fail(s, conn, req).1, [])
  {
    NoneGone(s, s, Fail(s, conn, req).1);
  }

  lemma StopExact(s: State, conn: Conn, req: string, sid: Sid)
    requires Good(s)
    ensures Exact(s, ReduceStop(s, conn, req, sid).0, ReduceStop(s, conn, req, sid).1, [])
  {
    if sid in s.sessions {
      SessionGone(s, sid, true, [EffBroadcast], [EffReply(conn, req, true, 0), EffPersist]);
    } else {
      NoneGone(s, s, ReduceStop(s, conn, req, sid).1);
    }
  }

  lemma SpawnFailedExact(s: State, f: Fid, conn: Conn, req: string)
    requires Good(s)
    ensures Exact(s, ReduceSpawnFailed(s, f, conn, req).0, ReduceSpawnFailed(s, f, conn, req).1, [])
  {
    EvictExact(s, f, false);
    ExactPlus(s, Evict(s, f, false).0, Evict(s, f, false).1, ReplyTo(conn, req, false, f));
  }

  /** For every event, the frames removed are exactly those torn down. */
  lemma TeardownExact(s: State, ev: Event)
    requires Good(s)
    ensures Exact(s, Reduce(s, ev).0, Reduce(s, ev).1, KeptRelease(s, ev, Reduce(s, ev).1))
  {
    match ev
    case EvCreate(conn, req, _, launch) =>
      FailExact(s, conn, req);
      if launch.Launched? { OpenExact(s, launch.plan, true, conn, req); }
    case EvFork(conn, req, _, launch) =>
      FailExact(s, conn, req);
      if launch.Launched? { OpenExact(s, launch.plan, false, conn, req); }
    case EvPush(conn, req, sid, launch) =>
      FailExact(s, conn, req);
      if sid in s.sessions && launch.Launched? { PushExact(s, sid, launch.plan, conn, req); }
    case EvSetHead(conn, req, sid, f) => SetHeadExact(s, conn, req, sid, f);
    case EvStop(conn, req, sid) => StopExact(s, conn, req, sid);
    case EvSpawned(sid, f, conn, req, boot) => SpawnedExact(s, sid, f, conn, req, boot);
    case EvSpawnFailed(f, conn, req) => SpawnFailedExact(s, f, conn, req);
    case EvVanished(f) => EvictExact(s, f, false);
    case EvExited(dr, code) => ExitedExact(s, dr, code);
    case EvDrive(f, note, drives, resolves, persists) => DriveExact(s, f, note, drives, resolves, persists);
    case EvJobResult(job, raw, stops) => JobResultExact(s, job, raw, stops);
  }

  // ---- kills ----------------------------------------------------------------

  /** The exit codes that mean the user or a signal ended the command. */
  predicate Deliberate(code: int) { code == 0 || code == 129 || code == 130 || code == 137 || code == 143 }

  /** The events that kill what they tear down. */
  predicate Deadly(ev: Event) { ev.EvStop? || (ev.EvExited? && Deliberate(ev.code)) }

  lemma EvictKills(s: State, f: Fid, kill: bool)
    ensures var effs := Evict(s, f, kill).1; Acted(effs, Kill) == Hit(Acted(effs, Unregister), kill, Kill)
  {
    if Alive(s, f) {
      var sess := s.sessions[Owner(s, f)];
      var tail := [EffPersist, EffBroadcast];
      var i := IndexIn(sess.frames, f);
      forall act: Act
        ensures Acted(TeardownAll(Ids(sess.frames), kill) + tail, act) == Hit(Ids(sess.frames), kill, act)
        ensures Acted(Teardown(f, kill) + tail, act) == Hit([f], kill, act)
      {
        PlainActs(tail, act);
        TeardownAllActs(Ids(sess.frames), kill, act);
        ActedAppend(TeardownAll(Ids(sess.frames), kill), tail, act);
        TeardownActs(f, kill, act);
        ActedAppend(Teardown(f, kill), tail, act);
      }
    }
  }

  lemma StopKills(s: State, conn: Conn, req: string, sid: Sid)
    ensures var effs := ReduceStop(s, conn, req, sid).1; Acted(effs, Kill) == Acted(effs, Unregister)
  {
    var effs := ReduceStop(s, conn, req, sid).1;
    if sid in s.sessions {
      var ids := Ids(s.sessions[sid].frames);
      var front, all, tail := [EffBroadcast], TeardownAll(ids, true), [EffReply(conn, req, true, 0), EffPersist];
      forall act: Act ensures Acted(front + all + tail, act) == ids {
        ActedAppend(front + all, tail, act);
        ActedAppend(front, all, act);
        TeardownAllActs(ids, true, act);
        PlainActs(front, act);
        PlainActs(tail, act);
      }
    } else {
      PlainActs(effs, Kill);
      PlainActs(effs, Unregister);
    }
  }

  lemma SpawnFailedKills(s: State, f: Fid, conn: Conn, req: string)
    ensures Acted(ReduceSpawnFailed(s, f, conn, req).1, Kill) == []
  {
    EvictKills(s, f, false);
    ActedAppend(Evict(s, f, false).1, ReplyTo(conn, req, false, f), Kill);
    PlainActs(ReplyTo(conn, req, false, f), Kill);
  }

  lemma ExitedKills(s: State, dr: Drive, code: int)
    requires Good(s)
    ensures var effs := ReduceExited(s, dr, code).1;
            Acted(effs, Kill) == if Deliberate(code) then Acted(effs, Unregister) else []
  {
    if Alive(s, dr.frame) && Deliberate(code) {
      EvictKills(s, dr.frame, true);
    } else if ReduceExited(s, dr, code).1 != [] {
      var st := StepDriver(s, dr.(stimulus := CommandExit));
      CrashStep(s, dr.(stimulus := CommandExit));
      var effs := if st.Some? then st.value.1 else [];
      ActedAppend(effs, [EffRelease(dr.frame)], Kill);
      PlainActs(effs, Kill);
      assert [EffRelease(dr.frame)][1..] == [];
    }
  }

  lemma DrivePlain(s: State, f: Fid, note: Note, drives: seq<OutsideDrive>, resolves: bool, persists: bool)
    ensures Plain(ReduceDrive(s, f, note, drives, resolves, persists).1)
  {
    var s1 := Annotate(s, f, note);
    StepDriversPlain(s1, drives);
    ResolvePlain(StepDrivers(s1, drives).0, StepDrivers(s1, drives).1);
  }

  lemma JobResultPlain(s: State, job: JobId, raw: seq<Raw>, stops: bool)
    ensures Plain(ReduceJobResult(s, job, raw, stops).1)
  {
    if job in s.jobs {
      var s1 := s.(jobs := s.jobs - {job});
      var dr := Drive(s.jobs[job].frame, Result(s.jobs[job].kind), raw, stops);
      if StepDriver(s1, dr).Some? { StepDriverPlain(s1, dr); }
    }
  }

  lemma KillsTorn(s: State, ev: Event)
    requires Good(s)
    ensures var effs := Reduce(s, ev).1; Acted(effs, Kill) == if Deadly(ev) then Acted(effs, Unregister) else []
  {
    var effs := Reduce(s, ev).1;
    match ev
    case EvStop(conn, req, sid) => StopKills(s, conn, req, sid);
    case EvExited(dr, code) => ExitedKills(s, dr, code);
    case EvSpawnFailed(f, conn, req) => SpawnFailedKills(s, f, conn, req);
    case EvVanished(f) => EvictKills(s, f, false);
    case EvSpawned(sid, f, conn, req, boot) =>
      SpawnedKeeps(s, sid, f, conn, req, boot);
      PlainActs(effs, Kill);
    case EvDrive(f, note, drives, resolves, persists) =>
      DrivePlain(s, f, note, drives, resolves, persists);
      PlainActs(effs, Kill);
    case EvJobResult(job, raw, stops) =>
      JobResultPlain(s, job, raw, stops);
      PlainActs(effs, Kill);
    case _ => PlainActs(effs, Kill);
  }

  /** A stop, and an exit with code 0, 129, 130, 137 or 143, kills every frame that is gone after it, once each. No
      other event kills anything. */
  lemma KillsExact(s: State, ev: Event)
    requires Good(s)
    ensures var (s', effs) := Reduce(s, ev);
            var killed := Acted(effs, Kill);
            Distinct(killed) && AsSet(killed) == if Deadly(ev) then Live(s) - Live(s') else {}
  {
    KillsTorn(s, ev);
    TeardownExact(s, ev);
  }

  /** A frame that is killed is killed before its sandbox is released. */
  predicate KillsFirst(effs: seq<Effect>) {
    forall i, j | 0 <= i < |effs| && 0 <= j < |effs| && effs[i].EffKill? && effs[j] == EffRelease(effs[i].frame) ::
      i < j
  }

  lemma {:induction false} ActedHas(effs: seq<Effect>, act: Act, k: nat)
    requires k < |effs| && Does(effs[k], act)
    ensures effs[k].frame in Acted(effs, act)
    decreases |effs|
  {
    if k > 0 { ActedHas(effs[1..], act, k - 1); }
  }

  lemma NoKillsFirst(effs: seq<Effect>)
    requires Acted(effs, Kill) == []
    ensures KillsFirst(effs)
  {
    forall i | 0 <= i < |effs| ensures !effs[i].EffKill? {
      if effs[i].EffKill? { ActedHas(effs, Kill, i); }
    }
  }

  /** Two lists one after the other, the second killing nothing that the first releases. */
  lemma KillsFirstAppend(a: seq<Effect>, b: seq<Effect>)
    requires KillsFirst(a) && KillsFirst(b)
    requires forall f | f in Acted(a, Release) :: f !in Acted(b, Kill)
    ensures KillsFirst(a + b)
  {
    var c := a + b;
    forall i, j | 0 <= i < |c| && 0 <= j < |c| && c[i].EffKill? && c[j] == EffRelease(c[i].frame) ensures i < j {
      if i >= |a| && j < |a| {
        ActedHas(a, Release, j);
        ActedHas(b, Kill, i - |a|);
      } else if i >= |a| {
        assert b[i - |a|] == c[i] && b[j - |a|] == c[j];
      }
    }
  }

  lemma {:induction false} TeardownAllOrder(ids: seq<Fid>)
    requires Distinct(ids)
    ensures KillsFirst(TeardownAll(ids, true))
    decreases |ids|
  {
    if ids != [] {
      TeardownAllOrder(ids[1..]);
      TeardownActs(ids[0], true, Release);
      TeardownAllActs(ids[1..], true, Kill);
      KillsFirstAppend(Teardown(ids[0], true), TeardownAll(ids[1..], true));
    }
  }

  lemma KillsFirstAround(front: seq<Effect>, effs: seq<Effect>, tail: seq<Effect>)
    requires Plain(front) && Plain(tail) && KillsFirst(effs)
    ensures KillsFirst(front + effs + tail)
  {
    PlainActs(front, Release);
    PlainActs(front, Kill);
    PlainActs(tail, Kill);
    NoKillsFirst(front);
    NoKillsFirst(tail);
    KillsFirstAppend(front, effs);
    KillsFirstAppend(front + effs, tail);
  }

  lemma EvictOrder(s: State, f: Fid)
    requires Good(s)
    ensures KillsFirst(Evict(s, f, true).1)
  {
    if Alive(s, f) {
      var sess := s.sessions[Owner(s, f)];
      TeardownAllOrder(Ids(sess.frames));
      KillsFirstAround([], TeardownAll(Ids(sess.frames), true), [EffPersist, EffBroadcast]);
      KillsFirstAround([], Teardown(f, true), [EffPersist, EffBroadcast]);
      assert forall effs: seq<Effect> :: [] + effs == effs;
    }
  }

  /** Whatever an event kills, it kills before it releases it. */
  lemma KillsOrdered(s: State, ev: Event)
    requires Good(s)
    ensures KillsFirst(Reduce(s, ev).1)
  {
    KillsTorn(s, ev);
    match ev
    case EvStop(conn, req, sid) =>
      if sid in s.sessions {
        TeardownAllOrder(Ids(s.sessions[sid].frames));
        KillsFirstAround([EffBroadcast], TeardownAll(Ids(s.sessions[sid].frames), true),
                         [EffReply(conn, req, true, 0), EffPersist]);
      }
    case EvExited(dr, code) =>
      if Deliberate(code) { EvictOrder(s, dr.frame); } else { NoKillsFirst(Reduce(s, ev).1); }
    case _ => NoKillsFirst(Reduce(s, ev).1);
  }

  /** A crash exit of a frame whose driver is already stopped changes nothing and emits nothing, and the first
      crash exit of a Claude root frame stops its driver. */
  lemma RepeatedCrash(s: State, dr: Drive, code: int)
    requires Good(s) && Alive(s, dr.frame) && !IntentionalExit(code)
    ensures var sess := s.sessions[Owner(s, dr.frame)];
            var i := IndexIn(sess.frames, dr.frame);
            && i < |sess.frames|
            && (IsStopped(sess.frames[i].driver) ==> ReduceExited(s, dr, code) == (s, []))
            && (sess.frames[i].driver.Claude? && i == 0 ==>
                  ReduceExited(ReduceExited(s, dr, code).0, dr, code) == (ReduceExited(s, dr, code).0, []))
  {
    var sid := Owner(s, dr.frame);
    var sess := s.sessions[sid];
    var i := IndexIn(sess.frames, dr.frame);
    HasFrameIs(sess, dr.frame);
    if sess.frames[i].driver.Claude? && i == 0 && !IsStopped(sess.frames[i].driver) {
      var d := sess.frames[0].driver.(stopped := true);
      var s1 := PutSession(s, sid, SetDriver(sess, 0, d));
      assert ReduceExited(s, dr, code).0 == s1;
      StillOwner(s, sid, d, dr.frame);
    }
  }

  lemma StillOwner(s: State, sid: Sid, d: Driver, f: Fid)
    requires Good(s) && sid in s.sessions && s.sessions[sid].frames[0].id == f
    ensures var s1 := PutSession(s, sid, SetDriver(s.sessions[sid], 0, d));
            Alive(s1, f) && Owner(s1, f) == sid && IndexIn(s1.sessions[sid].frames, f) == 0
  {
    var s1 := PutSession(s, sid, SetDriver(s.sessions[sid], 0, d));
    var sess1 := s1.sessions[sid];
    assert sess1.frames[0].id == f && HasFrame(sess1, f);
    var x := Owner(s1, f);
    HasFrameIs(s.sessions[sid], f);
    HasFrameIs(s.sessions[x], f);
    assert HasFrame(s.sessions[sid], f) && HasFrame(s.sessions[x], f);
    OneOwner(s, f, x, sid);
  }
}
