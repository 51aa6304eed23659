/** What every event keeps of the sessions: frames, heads and most-recently-used lists. */
module ClientSessions {
  import opened ClientState

  predicate Distinct(ids: seq<Fid>) { forall i, j | 0 <= i < j < |ids| :: ids[i] != ids[j] }

  // ---- the most-recently-used list ------------------------------------------

  /** A duplicate-free list of at most 16 frames that is a prefix of the uncapped one. */
  predicate MruOk(mru: seq<Fid>, full: seq<Fid>) {
    Distinct(mru) && |mru| <= MRU_CAP && 0 !in mru && mru <= full
  }

  lemma {:induction false} RemoveIs(ids: seq<Fid>, f: Fid)
    ensures f !in Remove(ids, f) && |Remove(ids, f)| <= |ids|
    ensures forall x :: x in Remove(ids, f) <==> x in ids && x != f
    ensures Distinct(ids) ==> Distinct(Remove(ids, f))
    decreases |ids|
  {
    if ids != [] {
      var rest := ids[1..];
      RemoveIs(rest, f);
      assert ids == [ids[0]] + rest;
      if Distinct(ids) {
        assert forall k | 0 <= k < |rest| :: rest[k] == ids[k + 1];
        assert ids[0] !in rest && Distinct(rest);
      }
    }
  }

  lemma {:induction false} RemovePrefix(a: seq<Fid>, b: seq<Fid>, f: Fid)
    requires a <= b
    ensures Remove(a, f) <= Remove(b, f)
    decreases |a|
  {
    if a != [] {
      assert a[1..] <= b[1..];
      RemovePrefix(a[1..], b[1..], f);
    }
  }

  lemma PushOk(mru: seq<Fid>, full: seq<Fid>, f: Fid)
    requires MruOk(mru, full)
    ensures MruOk(PushMru(mru, f), PushAll(full, f))
    ensures f != 0 ==> PushMru(mru, f) != [] && PushMru(mru, f)[0] == f
  {
    if f != 0 {
      RemoveIs(mru, f);
      RemovePrefix(mru, full, f);
    }
  }

  lemma {:induction false} RemoveAbsent(ids: seq<Fid>, f: Fid)
    requires f !in ids
    ensures Remove(ids, f) == ids
    decreases |ids|
  {
    if ids != [] { RemoveAbsent(ids[1..], f); }
  }

  lemma {:induction false} RemoveAt(ids: seq<Fid>, f: Fid, p: nat)
    requires Distinct(ids) && p < |ids| && ids[p] == f
    ensures Remove(ids, f) == ids[..p] + ids[p + 1..]
    decreases |ids|
  {
    var rest := ids[1..];
    if p == 0 {
      RemoveAbsent(rest, f);
    } else {
      assert rest[p - 1] == f;
      RemoveAt(rest, f, p - 1);
      assert ids[..p] == [ids[0]] + rest[..p - 1] && ids[p + 1..] == rest[p..];
    }
  }

  /** Pushing puts the frame in front of the others, in their order, and keeps the first 16. `p` is where the frame
      stood before, the end if it was not listed. */
  lemma PushIs(mru: seq<Fid>, f: Fid, p: nat)
    requires Distinct(mru) && f != 0 && p <= |mru| && (p < |mru| ==> mru[p] == f) && (p == |mru| ==> f !in mru)
    ensures var all := [f] + if p < |mru| then mru[..p] + mru[p + 1..] else mru;
            PushMru(mru, f) == if |all| <= 16 then all else all[..16]
  {
    if p < |mru| { RemoveAt(mru, f, p); } else { RemoveAbsent(mru, f); }
  }

  /** Popping finds the first listed frame that is still there. */
  lemma {:induction false} PopIs(ids: seq<Fid>, frames: seq<Frame>)
    requires 0 !in ids
    ensures var (f, rest) := PopMru(ids, frames);
            if f == 0 then rest == [] && forall k | 0 <= k < |ids| :: ids[k] !in Ids(frames)
            else exists i :: 0 <= i < |ids| && ids[i] == f && f in Ids(frames) && rest == ids[i + 1..]
                             && forall k | 0 <= k < i :: ids[k] !in Ids(frames)
    decreases |ids|
  {
    if ids != [] {
      if ids[0] in Ids(frames) {
        assert ids[0 + 1..] == ids[1..];
      } else {
        PopIs(ids[1..], frames);
        var (f, rest) := PopMru(ids[1..], frames);
        if f != 0 {
          var i :| 0 <= i < |ids[1..]| && ids[1..][i] == f && rest == ids[1..][i + 1..]
                   && forall k | 0 <= k < i :: ids[1..][k] !in Ids(frames);
          assert ids[1..][i + 1..] == ids[i + 2..];
          forall k | 0 <= k < i + 1 ensures ids[k] !in Ids(frames) {
            if k > 0 { assert ids[1..][k - 1] == ids[k]; }
          }
          assert ids[i + 1] == f;
        } else {
          forall k | 0 <= k < |ids| ensures ids[k] !in Ids(frames) {
            if k > 0 { assert ids[1..][k - 1] == ids[k]; }
          }
        }
      }
    }
  }

  /** The capped list gives the uncapped list's answer as long as it has one at all. */
  lemma {:induction false} PopPrefix(mru: seq<Fid>, full: seq<Fid>, frames: seq<Frame>)
    requires mru <= full && 0 !in mru
    ensures PopMru(mru, frames).1 <= PopMru(full, frames).1
    ensures PopMru(mru, frames).0 != 0 ==> PopMru(full, frames).0 == PopMru(mru, frames).0
    decreases |mru|
  {
    if mru != [] {
      assert mru[1..] <= full[1..];
      if mru[0] !in Ids(frames) {
        PopPrefix(mru[1..], full[1..], frames);
      }
    }
  }

  lemma PopOk(mru: seq<Fid>, full: seq<Fid>, frames: seq<Frame>)
    requires MruOk(mru, full)
    ensures MruOk(PopMru(mru, frames).1, PopMru(full, frames).1)
    ensures PopMru(mru, frames).0 == 0 || PopMru(mru, frames).0 in Ids(frames)
  {
    PopIs(mru, frames);
    PopPrefix(mru, full, frames);
  }

  // ---- one session ----------------------------------------------------------

  predicate FramesOk(frames: seq<Frame>, nextId: nat) {
    && frames != []
    && (forall i | 0 <= i < |frames| :: 0 < frames[i].id < nextId)
    && (forall i, j | 0 <= i < j < |frames| :: frames[i].id != frames[j].id)
  }

  predicate SessionOk(sess: Session, nextId: nat) {
    FramesOk(sess.frames, nextId) && sess.head in Ids(sess.frames) && MruOk(sess.mru, sess.full)
  }

  function FrameSet(sess: Session): set<Fid> { set i | 0 <= i < |sess.frames| :: sess.frames[i].id }

  lemma HasFrameIs(sess: Session, f: Fid)
    ensures HasFrame(sess, f) <==> f in FrameSet(sess)
    ensures HasFrame(sess, f) <==> IndexIn(sess.frames, f) < |sess.frames|
    ensures HasFrame(sess, f) <==> f in Ids(sess.frames)
  {
    var ids := Ids(sess.frames);
    if HasFrame(sess, f) {
      var i :| 0 <= i < |sess.frames| && sess.frames[i].id == f;
      assert ids[i] == f;
    }
    if f in ids {
      var i :| 0 <= i < |ids| && ids[i] == f;
      assert sess.frames[i].id == f;
    }
  }

  function Rest(frames: seq<Frame>, i: nat): seq<Frame>
    requires i < |frames|
  {
    frames[..i] + frames[i + 1..]
  }

  lemma RestAt(frames: seq<Frame>, i: nat, k: nat)
    requires i < |frames| && k < |frames| - 1
    ensures |Rest(frames, i)| == |frames| - 1 && Rest(frames, i)[k] == frames[if k < i then k else k + 1]
  {
  }

  lemma RestOk(frames: seq<Frame>, i: nat, nextId: nat)
    requires FramesOk(frames, nextId) && 0 < i < |frames|
    ensures FramesOk(Rest(frames, i), nextId) && Rest(frames, i)[0] == frames[0]
  {
    var rest := Rest(frames, i);
    forall k | 0 <= k < |rest| ensures 0 < rest[k].id < nextId {
      RestAt(frames, i, k);
    }
    forall j, k | 0 <= j < k < |rest| ensures rest[j].id != rest[k].id {
      RestAt(frames, i, j);
      RestAt(frames, i, k);
    }
  }

  lemma RestIds(frames: seq<Frame>, i: nat, nextId: nat, x: Fid)
    requires FramesOk(frames, nextId) && i < |frames|
    ensures x in Ids(Rest(frames, i)) <==> x in Ids(frames) && x != frames[i].id
  {
    var rest := Rest(frames, i);
    if x in Ids(frames) && x != frames[i].id {
      var k :| 0 <= k < |frames| && Ids(frames)[k] == x;
      assert Ids(rest)[if k < i then k else k - 1] == x;
    }
    if x in Ids(rest) {
      var k :| 0 <= k < |rest| && Ids(rest)[k] == x;
      assert Ids(frames)[if k < i then k else k + 1] == x;
    }
  }

  lemma WithoutOk(sess: Session, i: nat, nextId: nat)
    requires SessionOk(sess, nextId) && 0 < i < |sess.frames|
    ensures SessionOk(WithoutFrame(sess, i), nextId)
    ensures forall x :: x in Ids(WithoutFrame(sess, i).frames) <==> x in Ids(sess.frames) && x != sess.frames[i].id
  {
    var frames := Rest(sess.frames, i);
    RestOk(sess.frames, i, nextId);
    forall x ensures x in Ids(frames) <==> x in Ids(sess.frames) && x != sess.frames[i].id {
      RestIds(sess.frames, i, nextId, x);
    }
    PopOk(sess.mru, sess.full, frames);
    assert Ids(frames)[0] == frames[0].id;
  }

  /** When the head dies, the next head is the most recently left frame that is still there and still listed;
      the uncapped list would have chosen the same frame if and only if the capped list reaches as far. */
  lemma HeadFallback(sess: Session, i: nat, nextId: nat)
    requires SessionOk(sess, nextId) && 0 < i < |sess.frames| && sess.head == sess.frames[i].id && 0 !in sess.full
    ensures var next := WithoutFrame(sess, i);
            var choice := PopMru(sess.full, next.frames).0;
            && (next.head != next.frames[0].id ==> next.head == choice)
            && (choice != 0 ==> (next.head == choice <==> choice in sess.mru || choice == next.frames[0].id))
            && (choice == 0 ==> next.head == next.frames[0].id)
  {
    var frames := sess.frames[..i] + sess.frames[i + 1..];
    PopPrefix(sess.mru, sess.full, frames);
    PopIs(sess.mru, frames);
    PopIs(sess.full, frames);
    var choice := PopMru(sess.full, frames).0;
    if PopMru(sess.mru, frames).0 == 0 && choice != 0 {
      assert forall k | 0 <= k < |sess.mru| :: sess.mru[k] != choice;
    }
  }

  // ---- all sessions ---------------------------------------------------------

  /** Sessions are well formed and share no frame; `full` lists hold no empty ID. */
  predicate Good(s: State) {
    && (forall sid | sid in s.sessions ::
          sid < s.nextId && SessionOk(s.sessions[sid], s.nextId) && 0 !in s.sessions[sid].full)
    && (forall a, b | a in s.sessions && b in s.sessions && a != b ::
          FrameSet(s.sessions[a]) !! FrameSet(s.sessions[b]))
    && (forall j | j in s.jobs :: j <= s.nextJob)
    && s.nextId > 0
  }

  lemma {:induction false} PopFullNonzero(full: seq<Fid>, frames: seq<Frame>)
    requires 0 !in full
    ensures 0 !in PopMru(full, frames).1
    decreases |full|
  {
    if full != [] && full[0] !in Ids(frames) {
      PopFullNonzero(full[1..], frames);
    }
  }

  lemma FrameSetIs(sess: Session)
    ensures forall x :: x in FrameSet(sess) <==> x in Ids(sess.frames)
  {
    forall x ensures x in FrameSet(sess) <==> x in Ids(sess.frames) {
      HasFrameIs(sess, x);
    }
  }

  /** Replacing a session by one with no frame of another session. */
  lemma PutGood(s: State, sid: Sid, sess: Session, nextId: nat)
    requires Good(s) && nextId >= s.nextId && sid < nextId && SessionOk(sess, nextId) && 0 !in sess.full
    requires forall f | f in FrameSet(sess) :: f >= s.nextId || (sid in s.sessions && f in FrameSet(s.sessions[sid]))
    ensures Good(PutSession(s, sid, sess).(nextId := nextId))
  {
    var s' := PutSession(s, sid, sess).(nextId := nextId);
    forall x | x in s.sessions
      ensures SessionOk(s.sessions[x], nextId) && forall f | f in FrameSet(s.sessions[x]) :: f < s.nextId
    {
      assert SessionOk(s.sessions[x], s.nextId);
    }
    forall a, b | a in s'.sessions && b in s'.sessions && a != b
      ensures FrameSet(s'.sessions[a]) !! FrameSet(s'.sessions[b])
    {
    }
  }

  lemma DropGood(s: State, sid: Sid)
    requires Good(s)
    ensures Good(DropSession(s, sid))
  {
  }

  lemma JobsGood(s: State, s': State)
    requires Good(s) && s'.sessions == s.sessions && s'.nextId == s.nextId
    requires forall j | j in s'.jobs :: j <= s'.nextJob
    ensures Good(s')
  {
  }

  lemma EvictGood(s: State, f: Fid, kill: bool)
    requires Good(s)
    ensures Good(Evict(s, f, kill).0)
  {
    if Alive(s, f) {
      var sid := Owner(s, f);
      var sess := s.sessions[sid];
      var i := IndexIn(sess.frames, f);
      HasFrameIs(sess, f);
      if i == 0 {
        DropGood(s, sid);
      } else {
        WithoutOk(sess, i, s.nextId);
        PopFullNonzero(sess.full, sess.frames[..i] + sess.frames[i + 1..]);
        FrameSetIs(sess);
        FrameSetIs(WithoutFrame(sess, i));
        PutGood(s, sid, WithoutFrame(sess, i), s.nextId);
      }
    }
  }

  lemma SetDriverOk(sess: Session, i: nat, d: Driver, nextId: nat)
    requires SessionOk(sess, nextId) && i < |sess.frames|
    ensures SessionOk(SetDriver(sess, i, d), nextId) && FrameSet(SetDriver(sess, i, d)) == FrameSet(sess)
    ensures Ids(SetDriver(sess, i, d).frames) == Ids(sess.frames)
  {
    var sess' := SetDriver(sess, i, d);
    assert forall k | 0 <= k < |sess.frames| :: sess'.frames[k].id == sess.frames[k].id;
    assert Ids(sess'.frames) == Ids(sess.frames);
    FrameSetIs(sess);
    FrameSetIs(sess');
  }

  lemma SetMetaOk(sess: Session, i: nat, meta: Meta, nextId: nat)
    requires SessionOk(sess, nextId) && i < |sess.frames|
    ensures SessionOk(SetMeta(sess, i, meta), nextId) && FrameSet(SetMeta(sess, i, meta)) == FrameSet(sess)
  {
    var sess' := SetMeta(sess, i, meta);
    assert forall k | 0 <= k < |sess.frames| :: sess'.frames[k].id == sess.frames[k].id;
    assert Ids(sess'.frames) == Ids(sess.frames);
    FrameSetIs(sess);
    FrameSetIs(sess');
  }

  lemma AnnotateGood(s: State, f: Fid, note: Note)
    requires Good(s)
    ensures Good(Annotate(s, f, note))
  {
    if Alive(s, f) {
      var sid := Owner(s, f);
      var sess := s.sessions[sid];
      var i := IndexIn(sess.frames, f);
      if i < |sess.frames| {
        var meta := Noted(sess.frames[i].meta, note);
        SetMetaOk(sess, i, meta, s.nextId);
        PutGood(s, sid, SetMeta(sess, i, meta), s.nextId);
      }
    }
  }

  lemma {:induction false} PostProcessKeeps(s: State, sid: Sid, f: Fid, raw: seq<Raw>)
    requires forall j | j in s.jobs :: j <= s.nextJob
    ensures var s' := PostProcess(s, sid, f, raw).0;
            && s'.sessions == s.sessions && s'.nextId == s.nextId
            && s'.nextJob >= s.nextJob && forall j | j in s'.jobs :: j <= s'.nextJob
    decreases |raw|
  {
    if raw != [] {
      var s1 := if raw[0].StartJob?
                then s.(nextJob := s.nextJob + 1, jobs := s.jobs[s.nextJob + 1 := Job(f, raw[0].kind)])
                else s;
      PostProcessKeeps(s1, sid, f, raw[1..]);
    }
  }

  lemma StepDriverGood(s: State, dr: Drive)
    requires Good(s)
    ensures StepDriver(s, dr).Some? ==> Good(StepDriver(s, dr).value.0)
  {
    if StepDriver(s, dr).Some? {
      var sid := Owner(s, dr.frame);
      var sess := s.sessions[sid];
      var i := IndexIn(sess.frames, dr.frame);
      var r := DriverStep(sess.frames[i].driver, i == 0, dr);
      SetDriverOk(sess, i, r.0, s.nextId);
      PutGood(s, sid, SetDriver(sess, i, r.0), s.nextId);
      var s1 := PutSession(s, sid, SetDriver(sess, i, r.0));
      PostProcessKeeps(s1, sid, dr.frame, r.1);
      JobsGood(s1, PostProcess(s1, sid, dr.frame, r.1).0);
    }
  }

  lemma {:induction false} StepDriversGood(s: State, drives: seq<Drive>)
    requires Good(s)
    ensures Good(StepDrivers(s, drives).0)
    decreases |drives|
  {
    if drives != [] {
      StepDriverGood(s, drives[0]);
      var r := StepDriver(s, drives[0]);
      StepDriversGood(if r.None? then s else r.value.0, drives[1..]);
    }
  }

  lemma OpenGood(s: State, plan: Plan, own: bool, conn: Conn, req: string)
    requires Good(s)
    ensures Good(OpenSession(s, plan, own, conn, req).0)
  {
    var f := s.nextId + 1;
    var sess := Session([NewFrame(f, plan, own)], f, [], []);
    assert Ids(sess.frames)[0] == f;
    PutGood(s, s.nextId, sess, s.nextId + 2);
    assert OpenSession(s, plan, own, conn, req).0 == PutSession(s, s.nextId, sess).(nextId := s.nextId + 2);
  }

  lemma PushedOk(sess: Session, frame: Frame, nextId: nat)
    requires SessionOk(sess, nextId) && 0 < frame.id == nextId && 0 !in sess.full
    ensures var sess' := Pushed(sess, frame);
            SessionOk(sess', nextId + 1) && 0 !in sess'.full && FrameSet(sess') == FrameSet(sess) + {frame.id}
  {
    var sess' := Pushed(sess, frame);
    PushOk(sess.mru, sess.full, sess.head);
    RemoveIs(sess.full, sess.head);
    var n := |sess.frames|;
    assert sess'.frames[n].id == frame.id && Ids(sess'.frames)[n] == frame.id;
    forall x | x in FrameSet(sess) ensures x in FrameSet(sess') {
      var i :| 0 <= i < n && sess.frames[i].id == x;
      assert sess'.frames[i].id == x;
    }
  }

  lemma PutPushedGood(s: State, sid: Sid, sess': Session)
    requires Good(s) && sid in s.sessions && SessionOk(sess', s.nextId + 1) && 0 !in sess'.full
    requires FrameSet(sess') == FrameSet(s.sessions[sid]) + {s.nextId}
    ensures Good(PutSession(s, sid, sess').(nextId := s.nextId + 1))
  {
    PutGood(s, sid, sess', s.nextId + 1);
  }

  lemma PushGood(s: State, sid: Sid, plan: Plan, conn: Conn, req: string)
    requires Good(s) && sid in s.sessions
    ensures Good(PushFrame(s, sid, plan, conn, req).0)
  {
    PushedOk(s.sessions[sid], NewFrame(s.nextId, plan, true), s.nextId);
    PutPushedGood(s, sid, Pushed(s.sessions[sid], NewFrame(s.nextId, plan, true)));
  }

  lemma {:induction false} ResolveGood(s: State, effs: seq<Effect>)
    requires Good(s)
    ensures Good(ResolvePushes(s, effs).0)
    decreases |effs|
  {
    if effs != [] {
      if effs[0].EffPushDriver? && effs[0].launch.Launched? && effs[0].sid in s.sessions {
        PushGood(s, effs[0].sid, effs[0].launch.plan, 0, "");
        ResolveGood(PushFrame(s, effs[0].sid, effs[0].launch.plan, 0, "").0, effs[1..]);
      } else {
        ResolveGood(s, effs[1..]);
      }
    }
  }

  lemma SetHeadGood(s: State, conn: Conn, req: string, sid: Sid, f: Fid)
    requires Good(s)
    ensures Good(ReduceSetHead(s, conn, req, sid, f).0)
  {
    if sid in s.sessions && HasFrame(s.sessions[sid], f) && s.sessions[sid].head != f {
      var sess := s.sessions[sid];
      var sess' := sess.(head := f, mru := PushMru(sess.mru, sess.head), full := PushAll(sess.full, sess.head));
      HasFrameIs(sess, f);
      PushOk(sess.mru, sess.full, sess.head);
      RemoveIs(sess.full, sess.head);
      PutGood(s, sid, sess', s.nextId);
    }
  }

  lemma JobResultGood(s: State, job: JobId, raw: seq<Raw>, stops: bool)
    requires Good(s)
    ensures Good(ReduceJobResult(s, job, raw, stops).0)
  {
    if job in s.jobs {
      var s1 := s.(jobs := s.jobs - {job});
      JobsGood(s, s1);
      StepDriverGood(s1, Drive(s.jobs[job].frame, Result(s.jobs[job].kind), raw, stops));
    }
  }

  lemma ExitedGood(s: State, dr: Drive, code: int)
    requires Good(s)
    ensures Good(ReduceExited(s, dr, code).0)
  {
    EvictGood(s, dr.frame, true);
    StepDriverGood(s, dr.(stimulus := CommandExit));
  }

  lemma PreparedGood(s: State, f: Fid, boot: Boot)
    requires Good(s)
    ensures Good(Prepared(s, f, boot))
  {
    AnnotateGood(s, f, Subsystem(boot.subsystem));
    StepDriverGood(Annotate(s, f, Subsystem(boot.subsystem)), Drive(f, Elsewhere, [], boot.resolvedStops));
  }

  /** Recording a subsystem and a worktree gives out no ID. */
  lemma PreparedCounters(s: State, f: Fid, boot: Boot)
    ensures var s' := Prepared(s, f, boot); s'.jobs == s.jobs && s'.nextJob == s.nextJob && s'.nextId == s.nextId
  {
  }

  lemma SpawnedGood(s: State, sid: Sid, f: Fid, conn: Conn, req: string, boot: Boot)
    requires Good(s)
    ensures Good(ReduceSpawned(s, sid, f, conn, req, boot).0)
  {
    PreparedGood(s, f, boot);
    StepDriverGood(Prepared(s, f, boot), Drive(f, Elsewhere, boot.raw, boot.stops));
  }

  lemma DriveGood(s: State, f: Fid, note: Note, drives: seq<OutsideDrive>, resolves: bool, persists: bool)
    requires Good(s)
    ensures Good(ReduceDrive(s, f, note, drives, resolves, persists).0)
  {
    var s1 := Annotate(s, f, note);
    AnnotateGood(s, f, note);
    StepDriversGood(s1, drives);
    ResolveGood(StepDrivers(s1, drives).0, StepDrivers(s1, drives).1);
  }

  lemma ReduceGood(s: State, ev: Event)
    requires Good(s)
    ensures Good(Reduce(s, ev).0)
  {
    match ev
    case EvCreate(conn, req, _, launch) => if launch.Launched? { OpenGood(s, launch.plan, true, conn, req); }
    case EvPush(conn, req, sid, launch) =>
      if sid in s.sessions && launch.Launched? { PushGood(s, sid, launch.plan, conn, req); }
    case EvFork(conn, req, _, launch) => if launch.Launched? { OpenGood(s, launch.plan, false, conn, req); }
    case EvStop(_, _, sid) => DropGood(s, sid);
    case EvSetHead(conn, req, sid, f) => SetHeadGood(s, conn, req, sid, f);
    case EvSpawned(sid, f, conn, req, boot) => SpawnedGood(s, sid, f, conn, req, boot);
    case EvSpawnFailed(f, _, _) => EvictGood(s, f, false);
    case EvVanished(f) => EvictGood(s, f, false);
    case EvExited(dr, code) => ExitedGood(s, dr, code);
    case EvDrive(f, note, drives, resolves, persists) => DriveGood(s, f, note, drives, resolves, persists);
    case EvJobResult(job, raw, stops) => JobResultGood(s, job, raw, stops);
  }

  /** After any events from a new state, every session has a frame, a head among its frames, and a
      duplicate-free list of at most 16 that is a prefix of the uncapped list. */
  lemma {:induction false} RunGood(evs: seq<Event>)
    ensures Good(Run(NEW, evs))
    decreases |evs|
  {
    if evs != [] {
      RunGood(evs[..|evs| - 1]);
      ReduceGood(Run(NEW, evs[..|evs| - 1]), evs[|evs| - 1]);
    }
  }

  /** Good, one instance at a time: the verifier sees what it says only where SoundGood is called. */
  ghost predicate Sound(v: State) { forall n: nat :: GoodAt(v, n) }

  predicate GoodAt(v: State, n: nat) { Good(v) }

  lemma SoundGood(v: State)
    ensures Sound(v) <==> Good(v)
  {
    assert Sound(v) ==> GoodAt(v, 0);
  }

  lemma AnnotateSound(v: State, f: Fid, note: Note)
    requires Sound(v)
    ensures Sound(Annotate(v, f, note))
  {
    SoundGood(v);
    AnnotateGood(v, f, note);
    SoundGood(Annotate(v, f, note));
  }

  lemma PreparedSound(v: State, f: Fid, boot: Boot)
    requires Sound(v)
    ensures Sound(Prepared(v, f, boot))
  {
    SoundGood(v);
    PreparedGood(v, f, boot);
    SoundGood(Prepared(v, f, boot));
  }

  lemma StepDriverSound(v: State, dr: Drive)
    requires Sound(v) && StepDriver(v, dr).Some?
    ensures Sound(StepDriver(v, dr).value.0)
  {
    SoundGood(v);
    StepDriverGood(v, dr);
    SoundGood(StepDriver(v, dr).value.0);
  }

  lemma JobSettledSound(v: State, job: JobId)
    requires Sound(v)
    ensures Sound(v.(jobs := v.jobs - {job}))
  {
    SoundGood(v);
    JobsGood(v, v.(jobs := v.jobs - {job}));
    SoundGood(v.(jobs := v.jobs - {job}));
  }
}
