/** Jobs: fresh IDs, one delivery to the frame that asked, and at most one transcript, branch and
    summary job outstanding for a Claude frame. */
module ClientJobs {
  import opened ClientState
  import opened ClientSessions

  predicate Guarded(k: JobKind) { k != OtherJob }

  function Flag(d: Driver, k: JobKind): bool
    requires d.Claude?
  {
    match k
    case Transcript => d.transcript
    case Branch => d.branch
    case Summary => d.summary
    case OtherJob => true
  }

  function Outstanding(jobs: map<JobId, Job>, f: Fid, k: JobKind): set<JobId> {
    set j | j in jobs && jobs[j] == Job(f, k)
  }

  predicate AtMostOne(ids: set<JobId>) { forall a, b | a in ids && b in ids :: a == b }

  /** A guard is up exactly while its job is outstanding, and only one is. */
  predicate GuardOk(jobs: map<JobId, Job>, f: Fid, d: Driver, k: JobKind)
    requires d.Claude?
  {
    AtMostOne(Outstanding(jobs, f, k)) && (Outstanding(jobs, f, k) != {} <==> Flag(d, k))
  }

  predicate FrameJobsOk(jobs: map<JobId, Job>, fr: Frame) {
    fr.driver.Claude? ==> forall k: JobKind :: Guarded(k) ==> GuardOk(jobs, fr.id, fr.driver, k)
  }

  /** A Claude frame above the root never starts a job. */
  predicate Calm(fr: Frame) {
    fr.driver.Claude? ==> !fr.driver.transcript && !fr.driver.branch && !fr.driver.summary
  }

  predicate SessionJobsOk(jobs: map<JobId, Job>, sess: Session) {
    && (forall i | 0 <= i < |sess.frames| :: FrameJobsOk(jobs, sess.frames[i]))
    && (forall i | 0 < i < |sess.frames| :: Calm(sess.frames[i]))
  }

  predicate JobsOk(s: State) {
    && (forall sid | sid in s.sessions :: SessionJobsOk(s.jobs, s.sessions[sid]))
    && (forall j | j in s.jobs :: s.jobs[j].frame < s.nextId)
  }

  // ---- the driver's guards --------------------------------------------------

  function Count(raw: seq<Raw>, k: JobKind): nat {
    if raw == [] then 0 else (if raw[0] == StartJob(k) then 1 else 0) + Count(raw[1..], k)
  }

  lemma {:induction false} CountAppend(a: seq<Raw>, b: seq<Raw>, k: JobKind)
    ensures Count(a + b, k) == Count(a, k) + Count(b, k)
    decreases |a|
  {
    if a == [] {
      assert a + b == b;
    } else {
      assert (a + b)[0] == a[0] && (a + b)[1..] == a[1..] + b;
      CountAppend(a[1..], b, k);
    }
  }

  lemma CountOne(r: Raw, k: JobKind)
    ensures Count([r], k) == if r == StartJob(k) then 1 else 0
  {
    assert [r][1..] == [];
  }

  /** Whether a stimulus calls for a job of the kind. */
  predicate CallsFor(stim: Stimulus, k: JobKind) {
    match k
    case Transcript =>
      || (stim.HookEvent? && stim.hook.SessionStart? && stim.hook.newPath)
      || (stim.HookEvent? && stim.hook.UserPrompt? && stim.hook.hasPath)
      || (stim.HookEvent? && stim.hook.StatusChange? && stim.hook.hasPath)
      || (stim.FileChange? && stim.hasPath)
    case Branch =>
      || (stim.HookEvent? && stim.hook.SessionStart? && stim.hook.hasDir)
      || (stim.TickEvent? && stim.wantsBranch)
    case Summary => stim.HookEvent? && stim.hook.UserPrompt? && stim.hook.hasPrompt
    case OtherJob => false
  }

  /** A root frame starts a guarded job exactly when it is called for and the guard is down; the guard is then up, and
      goes down with the job's own result and with nothing else. No other frame starts one. */
  predicate Guards(d: Driver, d': Driver, raw: seq<Raw>, root: bool, stim: Stimulus, k: JobKind) {
    && d.Claude? && d'.Claude?
    && Count(raw, k) == (if root && CallsFor(stim, k) && !Flag(d, k) then 1 else 0)
    && (Flag(d', k) <==> Count(raw, k) == 1 || (Flag(d, k) && !(root && stim == Result(k))))
  }

  lemma SessionStartGuards(d: Driver, newPath: bool, hasDir: bool, k: JobKind)
    requires d.Claude? && Guarded(k)
    ensures var stim := HookEvent(SessionStart(newPath, hasDir));
            var r := ClaudeStep(d, true, stim); Guards(d, r.0, r.1, true, stim, k)
  {
    var watch := if newPath then [Misc] else [];
    var job := if newPath && !d.transcript then [StartJob(Transcript)] else [];
    var branch := if hasDir && !d.branch then [StartJob(Branch)] else [];
    CountOne(Misc, k);
    CountOne(StartJob(Transcript), k);
    CountOne(StartJob(Branch), k);
    CountAppend(watch, job, k);
    CountAppend(watch + job, [Misc], k);
    CountAppend(watch + job + [Misc], branch, k);
  }

  lemma PromptGuards(d: Driver, hasPath: bool, hasPrompt: bool, k: JobKind)
    requires d.Claude? && Guarded(k)
    ensures var stim := HookEvent(UserPrompt(hasPath, hasPrompt));
            var r := ClaudeStep(d, true, stim); Guards(d, r.0, r.1, true, stim, k)
  {
    var summary := if hasPrompt && !d.summary then [StartJob(Summary)] else [];
    var job := if hasPath && !d.transcript then [StartJob(Transcript)] else [];
    CountOne(Misc, k);
    CountOne(StartJob(Summary), k);
    CountOne(StartJob(Transcript), k);
    CountAppend([Misc], summary, k);
    CountAppend([Misc] + summary, job, k);
  }

  lemma ClaudeGuards(d: Driver, root: bool, stim: Stimulus, k: JobKind)
    requires d.Claude? && Guarded(k)
    ensures var r := ClaudeStep(d, root, stim); Guards(d, r.0, r.1, root, stim, k)
  {
    CountOne(Misc, k);
    CountOne(StartJob(Transcript), k);
    CountOne(StartJob(Branch), k);
    CountAppend([Misc], [StartJob(Transcript)], k);
    if root {
      match stim
      case HookEvent(SessionStart(newPath, hasDir)) => SessionStartGuards(d, newPath, hasDir, k);
      case HookEvent(UserPrompt(hasPath, hasPrompt)) => PromptGuards(d, hasPath, hasPrompt, k);
      case HookEvent(StatusChange(hasPath, _)) =>
        assert [Misc] + [] == [Misc];
      case FileChange(hasPath) =>
        assert [Misc] + [] == [Misc];
      case _ =>
    }
  }

  /** Signs that Claude works again, and signs that it has ended. */
  predicate Resumes(stim: Stimulus) {
    || (stim.HookEvent? && (stim.hook.SessionStart? || stim.hook.UserPrompt?))
    || (stim.HookEvent? && stim.hook.StatusChange? && !stim.hook.stops)
    || (stim.WindowTitle? && stim.marked)
  }

  predicate Ends(stim: Stimulus) {
    stim.CommandExit? || (stim.HookEvent? && stim.hook.StatusChange? && stim.hook.stops)
  }

  /** Claude's root driver is stopped by a sign of its end and restarted by a sign of work, and asks for a frame on top
      exactly when its status line is clicked for a plan. Its drivers above the root keep what is modelled here. */
  lemma ClaudeReacts(d: Driver, root: bool, stim: Stimulus)
    requires d.Claude?
    ensures var (d', raw) := ClaudeStep(d, root, stim);
            && d'.Claude?
            && (d'.stopped <==> if root && Resumes(stim) then false else d.stopped || (root && Ends(stim)))
            && (forall launch :: PushDriver(launch) in raw <==> root && stim == StatusLineClick(true, launch))
            && (!root ==> d' == d && raw == [])
  {
    var (d', raw) := ClaudeStep(d, root, stim);
    if root && stim.StatusLineClick? && stim.plan {
      assert raw[0] == PushDriver(stim.launch);
    }
  }

  // ---- recording jobs -------------------------------------------------------

  /** The state after recording one raw effect. */
  function Recorded(s: State, f: Fid, r: Raw): State {
    if r.StartJob? then s.(nextJob := s.nextJob + 1, jobs := s.jobs[s.nextJob + 1 := Job(f, r.kind)]) else s
  }

  /** New jobs have new IDs and are the frame's. */
  lemma {:induction false} PostProcessJobs(s: State, sid: Sid, f: Fid, raw: seq<Raw>)
    requires forall j | j in s.jobs :: j <= s.nextJob
    ensures var s' := PostProcess(s, sid, f, raw).0;
            && (forall j | j in s.jobs :: j in s'.jobs && s'.jobs[j] == s.jobs[j])
            && (forall j | j in s'.jobs && j !in s.jobs :: j > s.nextJob && s'.jobs[j].frame == f)
    decreases |raw|
  {
    if raw != [] {
      PostProcessJobs(Recorded(s, f, raw[0]), sid, f, raw[1..]);
    }
  }

  lemma RecordedOutstanding(s: State, f: Fid, r: Raw, k: JobKind)
    requires forall j | j in s.jobs :: j <= s.nextJob
    ensures Outstanding(Recorded(s, f, r).jobs, f, k)
            == Outstanding(s.jobs, f, k) + if r == StartJob(k) then {s.nextJob + 1} else {}
  {
  }

  /** They are as many of a kind as the driver asked for. */
  lemma {:induction false} PostProcessCounts(s: State, sid: Sid, f: Fid, raw: seq<Raw>, k: JobKind)
    requires forall j | j in s.jobs :: j <= s.nextJob
    ensures var after := Outstanding(PostProcess(s, sid, f, raw).0.jobs, f, k);
            && (Count(raw, k) == 0 ==> after == Outstanding(s.jobs, f, k))
            && (Count(raw, k) == 1 && Outstanding(s.jobs, f, k) == {} ==> AtMostOne(after) && after != {})
    decreases |raw|
  {
    if raw != [] {
      RecordedOutstanding(s, f, raw[0], k);
      PostProcessCounts(Recorded(s, f, raw[0]), sid, f, raw[1..], k);
    }
  }

  /** A step of the frame keeps its guards. */
  lemma StepGuardOk(s: State, sid: Sid, f: Fid, d: Driver, d': Driver, raw: seq<Raw>, root: bool, stim: Stimulus,
                    k: JobKind)
    requires forall j | j in s.jobs :: j <= s.nextJob
    requires Guards(d, d', raw, root, stim, k) && (root || !Flag(d, k)) && Guarded(k)
    requires if stim == Result(k) then Outstanding(s.jobs, f, k) == {} else GuardOk(s.jobs, f, d, k)
    ensures GuardOk(PostProcess(s, sid, f, raw).0.jobs, f, d', k)
  {
    PostProcessCounts(s, sid, f, raw, k);
  }

  /** Jobs of other frames are left alone. */
  lemma OtherFrame(s: State, sid: Sid, f: Fid, raw: seq<Raw>, fr: Frame)
    requires (forall j | j in s.jobs :: j <= s.nextJob) && fr.id != f && FrameJobsOk(s.jobs, fr)
    ensures FrameJobsOk(PostProcess(s, sid, f, raw).0.jobs, fr)
  {
    PostProcessJobs(s, sid, f, raw);
    forall k: JobKind
      ensures Outstanding(PostProcess(s, sid, f, raw).0.jobs, fr.id, k) == Outstanding(s.jobs, fr.id, k)
    {
    }
  }

  lemma StepFrame(s: State, sid: Sid, dr: Drive, d: Driver, root: bool, meta: Meta)
    requires (forall j | j in s.jobs :: j <= s.nextJob) && !d.NoDriver? && (root || Calm(Frame(dr.frame, d, meta)))
    requires d.Claude? ==> forall k: JobKind :: Guarded(k) ==>
               if dr.stimulus == Result(k) then Outstanding(s.jobs, dr.frame, k) == {}
               else GuardOk(s.jobs, dr.frame, d, k)
    ensures var r := DriverStep(d, root, dr);
            && FrameJobsOk(PostProcess(s, sid, dr.frame, r.1).0.jobs, Frame(dr.frame, r.0, meta))
            && (root || Calm(Frame(dr.frame, r.0, meta)))
  {
    var r := DriverStep(d, root, dr);
    if d.Claude? {
      forall k: JobKind | Guarded(k) ensures GuardOk(PostProcess(s, sid, dr.frame, r.1).0.jobs, dr.frame, r.0, k) {
        ClaudeGuards(d, root, dr.stimulus, k);
        StepGuardOk(s, sid, dr.frame, d, r.0, r.1, root, dr.stimulus, k);
      }
    }
  }

  // ---- every event ----------------------------------------------------------

  /** Removing a job of another frame, or of another kind. */
  lemma FewerJobs(jobs: map<JobId, Job>, job: JobId, fr: Frame, k: JobKind)
    requires job in jobs && jobs[job] != Job(fr.id, k)
    ensures Outstanding(jobs - {job}, fr.id, k) == Outstanding(jobs, fr.id, k)
  {
  }

  lemma OthersKeep(jobs: map<JobId, Job>, job: JobId, fr: Frame)
    requires job in jobs && jobs[job].frame != fr.id && FrameJobsOk(jobs, fr)
    ensures FrameJobsOk(jobs - {job}, fr)
  {
    forall k: JobKind ensures Outstanding(jobs - {job}, fr.id, k) == Outstanding(jobs, fr.id, k) {
      FewerJobs(jobs, job, fr, k);
    }
  }

  /** The guards of the frame that is stepped, as DriverStep needs them. */
  ghost predicate ReadyFor(s: State, dr: Drive) {
    forall sid, i | sid in s.sessions && 0 <= i < |s.sessions[sid].frames| && s.sessions[sid].frames[i].id == dr.frame
                    && s.sessions[sid].frames[i].driver.Claude? ::
      forall k: JobKind :: Guarded(k) ==>
        if dr.stimulus == Result(k) then Outstanding(s.jobs, dr.frame, k) == {}
        else GuardOk(s.jobs, dr.frame, s.sessions[sid].frames[i].driver, k)
  }

  predicate OthersOk(s: State, f: Fid) {
    forall sid, i | sid in s.sessions && 0 <= i < |s.sessions[sid].frames| && s.sessions[sid].frames[i].id != f ::
      FrameJobsOk(s.jobs, s.sessions[sid].frames[i])
  }

  predicate AllCalm(s: State) {
    forall sid, i | sid in s.sessions && 0 < i < |s.sessions[sid].frames| :: Calm(s.sessions[sid].frames[i])
  }

  lemma StepDriverJobs(s: State, dr: Drive)
    requires Good(s) && StepDriver(s, dr).Some? && ReadyFor(s, dr) && OthersOk(s, dr.frame) && AllCalm(s)
    requires forall j | j in s.jobs :: s.jobs[j].frame < s.nextId
    ensures JobsOk(StepDriver(s, dr).value.0)
  {
    var sid := Owner(s, dr.frame);
    var sess := s.sessions[sid];
    var i := IndexIn(sess.frames, dr.frame);
    var d := sess.frames[i].driver;
    var r := DriverStep(d, i == 0, dr);
    var s1 := PutSession(s, sid, SetDriver(sess, i, r.0));
    var s2 := PostProcess(s1, sid, dr.frame, r.1).0;
    PostProcessKeeps(s1, sid, dr.frame, r.1);
    PostProcessJobs(s1, sid, dr.frame, r.1);
    StepFrame(s1, sid, dr, d, i == 0, sess.frames[i].meta);
    assert 0 <= i < |sess.frames| && sess.frames[i].id < s.nextId;
    forall x | x in s2.sessions ensures SessionJobsOk(s2.jobs, s2.sessions[x]) {
      forall n | 0 <= n < |s2.sessions[x].frames|
        ensures FrameJobsOk(s2.jobs, s2.sessions[x].frames[n]) && (n > 0 ==> Calm(s2.sessions[x].frames[n]))
      {
        if x == sid && n == i {
          assert s2.sessions[x].frames[n] == Frame(dr.frame, r.0, sess.frames[i].meta);
        } else {
          OtherId(s, sid, i, x, n);
          assert s2.sessions[x].frames[n] == s.sessions[x].frames[n];
          OtherFrame(s1, sid, dr.frame, r.1, s.sessions[x].frames[n]);
        }
      }
    }
  }

  lemma OtherId(s: State, a: Sid, i: nat, b: Sid, j: nat)
    requires Good(s) && a in s.sessions && b in s.sessions && i < |s.sessions[a].frames| && j < |s.sessions[b].frames|
    requires a != b || i != j
    ensures s.sessions[a].frames[i].id != s.sessions[b].frames[j].id
  {
    if a == b {
      assert FramesOk(s.sessions[a].frames, s.nextId);
    } else {
      assert s.sessions[a].frames[i].id in FrameSet(s.sessions[a]);
      assert s.sessions[b].frames[j].id in FrameSet(s.sessions[b]);
    }
  }

  lemma AlwaysReady(s: State, dr: Drive)
    requires JobsOk(s) && !dr.stimulus.Result?
    ensures ReadyFor(s, dr) && OthersOk(s, dr.frame) && AllCalm(s)
  {
    forall sid, i | sid in s.sessions && 0 <= i < |s.sessions[sid].frames|
      ensures FrameJobsOk(s.jobs, s.sessions[sid].frames[i]) && (i > 0 ==> Calm(s.sessions[sid].frames[i]))
    {
      assert SessionJobsOk(s.jobs, s.sessions[sid]);
    }
  }

  /** With the job taken off the list, its own guard is due to go down and every other one is as before. */
  lemma ResultFrame(s: State, job: JobId, sid: Sid, i: nat, k: JobKind)
    requires JobsOk(s) && job in s.jobs && sid in s.sessions && i < |s.sessions[sid].frames| && Guarded(k)
    requires s.sessions[sid].frames[i].id == s.jobs[job].frame && s.sessions[sid].frames[i].driver.Claude?
    ensures var jobs, fr := s.jobs - {job}, s.sessions[sid].frames[i];
            if k == s.jobs[job].kind then Outstanding(jobs, fr.id, k) == {} else GuardOk(jobs, fr.id, fr.driver, k)
  {
    var fr := s.sessions[sid].frames[i];
    assert SessionJobsOk(s.jobs, s.sessions[sid]);
    assert FrameJobsOk(s.jobs, fr);
    assert GuardOk(s.jobs, fr.id, fr.driver, k);
    if k == s.jobs[job].kind {
      assert job in Outstanding(s.jobs, fr.id, k);
      assert Outstanding(s.jobs - {job}, fr.id, k) == Outstanding(s.jobs, fr.id, k) - {job};
    } else {
      FewerJobs(s.jobs, job, fr, k);
    }
  }

  lemma ResultReady(s: State, job: JobId, raw: seq<Raw>, stops: bool)
    requires JobsOk(s) && job in s.jobs
    ensures var s1 := s.(jobs := s.jobs - {job});
            var dr := Drive(s.jobs[job].frame, Result(s.jobs[job].kind), raw, stops);
            ReadyFor(s1, dr) && OthersOk(s1, dr.frame) && AllCalm(s1)
  {
    var s1 := s.(jobs := s.jobs - {job});
    var dr := Drive(s.jobs[job].frame, Result(s.jobs[job].kind), raw, stops);
    forall sid, i | sid in s.sessions && 0 <= i < |s.sessions[sid].frames|
      ensures i > 0 ==> Calm(s.sessions[sid].frames[i])
      ensures s.sessions[sid].frames[i].id != dr.frame ==> FrameJobsOk(s1.jobs, s.sessions[sid].frames[i])
    {
      assert SessionJobsOk(s.jobs, s.sessions[sid]);
      if s.sessions[sid].frames[i].id != dr.frame { OthersKeep(s.jobs, job, s.sessions[sid].frames[i]); }
    }
    forall sid, i | sid in s.sessions && 0 <= i < |s.sessions[sid].frames| && s.sessions[sid].frames[i].id == dr.frame
                    && s.sessions[sid].frames[i].driver.Claude?
      ensures forall k: JobKind :: Guarded(k) ==>
                if dr.stimulus == Result(k) then Outstanding(s1.jobs, dr.frame, k) == {}
                else GuardOk(s1.jobs, dr.frame, s.sessions[sid].frames[i].driver, k)
    {
      forall k: JobKind | Guarded(k)
        ensures if dr.stimulus == Result(k) then Outstanding(s1.jobs, dr.frame, k) == {}
                else GuardOk(s1.jobs, dr.frame, s.sessions[sid].frames[i].driver, k)
      {
        ResultFrame(s, job, sid, i, k);
      }
    }
  }

  lemma {:induction false} StepDriversJobs(s: State, drives: seq<OutsideDrive>)
    requires Good(s) && JobsOk(s)
    ensures JobsOk(StepDrivers(s, drives).0)
    decreases |drives|
  {
    if drives != [] {
      var r := StepDriver(s, drives[0]);
      if r.Some? {
        AlwaysReady(s, drives[0]);
        StepDriverJobs(s, drives[0]);
        StepDriverGood(s, drives[0]);
        StepDriversJobs(r.value.0, drives[1..]);
      } else {
        StepDriversJobs(s, drives[1..]);
      }
    }
  }

  /** A frame that has just been made has no jobs. */
  lemma NewFrameJobs(s: State, f: Fid, plan: Plan, own: bool)
    requires JobsOk(s) && f >= s.nextId
    ensures FrameJobsOk(s.jobs, NewFrame(f, plan, own))
  {
    forall k: JobKind ensures Outstanding(s.jobs, f, k) == {} {
    }
  }

  lemma PutJobs(s: State, sid: Sid, sess: Session, nextId: nat)
    requires JobsOk(s) && SessionJobsOk(s.jobs, sess) && nextId >= s.nextId
    ensures JobsOk(PutSession(s, sid, sess).(nextId := nextId))
  {
  }

  lemma OpenJobs(s: State, plan: Plan, own: bool, conn: Conn, req: string)
    requires JobsOk(s)
    ensures JobsOk(OpenSession(s, plan, own, conn, req).0)
  {
    var f := s.nextId + 1;
    NewFrameJobs(s, f, plan, own);
    PutJobs(s, s.nextId, Session([NewFrame(f, plan, own)], f, [], []), s.nextId + 2);
  }

  lemma PushJobs(s: State, sid: Sid, plan: Plan, conn: Conn, req: string)
    requires JobsOk(s) && sid in s.sessions
    ensures JobsOk(PushFrame(s, sid, plan, conn, req).0)
  {
    var sess := s.sessions[sid];
    var f := s.nextId;
    NewFrameJobs(s, f, plan, true);
    assert SessionJobsOk(s.jobs, sess);
    PutJobs(s, sid, Pushed(sess, NewFrame(f, plan, true)), s.nextId + 1);
  }

  lemma {:induction false} ResolveJobs(s: State, effs: seq<Effect>)
    requires JobsOk(s)
    ensures JobsOk(ResolvePushes(s, effs).0)
    decreases |effs|
  {
    if effs != [] {
      if effs[0].EffPushDriver? && effs[0].launch.Launched? && effs[0].sid in s.sessions {
        PushJobs(s, effs[0].sid, effs[0].launch.plan, 0, "");
        ResolveJobs(PushFrame(s, effs[0].sid, effs[0].launch.plan, 0, "").0, effs[1..]);
      } else {
        ResolveJobs(s, effs[1..]);
      }
    }
  }

  lemma EvictJobs(s: State, f: Fid, kill: bool)
    requires JobsOk(s)
    ensures JobsOk(Evict(s, f, kill).0)
  {
    if Alive(s, f) {
      var sid := Owner(s, f);
      var sess := s.sessions[sid];
      var i := IndexIn(sess.frames, f);
      assert SessionJobsOk(s.jobs, sess);
      if 0 < i < |sess.frames| {
        assert SessionJobsOk(s.jobs, WithoutFrame(sess, i));
        PutJobs(s, sid, WithoutFrame(sess, i), s.nextId);
      }
    }
  }

  lemma OneDriveJobs(s: State, dr: Drive)
    requires Good(s) && JobsOk(s) && !dr.stimulus.Result?
    ensures StepDriver(s, dr).Some? ==> JobsOk(StepDriver(s, dr).value.0)
  {
    if StepDriver(s, dr).Some? {
      AlwaysReady(s, dr);
      StepDriverJobs(s, dr);
    }
  }

  /** A note leaves every driver and every job alone. */
  lemma AnnotateJobs(s: State, f: Fid, note: Note)
    requires JobsOk(s)
    ensures JobsOk(Annotate(s, f, note))
  {
    if Alive(s, f) {
      var sess := s.sessions[Owner(s, f)];
      var i := IndexIn(sess.frames, f);
      if i < |sess.frames| {
        var sess' := SetMeta(sess, i, Noted(sess.frames[i].meta, note));
        assert SessionJobsOk(s.jobs, sess);
        forall n | 0 <= n < |sess'.frames| ensures FrameJobsOk(s.jobs, sess'.frames[n]) {
          assert FrameJobsOk(s.jobs, sess.frames[n]);
        }
        PutJobs(s, Owner(s, f), sess', s.nextId);
      }
    }
  }

  lemma DriveJobs(s: State, f: Fid, note: Note, drives: seq<OutsideDrive>, resolves: bool, persists: bool)
    requires Good(s) && JobsOk(s)
    ensures JobsOk(ReduceDrive(s, f, note, drives, resolves, persists).0)
  {
    var s1 := Annotate(s, f, note);
    AnnotateGood(s, f, note);
    AnnotateJobs(s, f, note);
    StepDriversJobs(s1, drives);
    ResolveJobs(StepDrivers(s1, drives).0, StepDrivers(s1, drives).1);
  }

  lemma PreparedJobs(s: State, f: Fid, boot: Boot)
    requires Good(s) && JobsOk(s)
    ensures JobsOk(Prepared(s, f, boot))
  {
    AnnotateGood(s, f, Subsystem(boot.subsystem));
    AnnotateJobs(s, f, Subsystem(boot.subsystem));
    OneDriveJobs(Annotate(s, f, Subsystem(boot.subsystem)), Drive(f, Elsewhere, [], boot.resolvedStops));
  }

  lemma SpawnedJobs(s: State, sid: Sid, f: Fid, conn: Conn, req: string, boot: Boot)
    requires Good(s) && JobsOk(s)
    ensures JobsOk(ReduceSpawned(s, sid, f, conn, req, boot).0)
  {
    PreparedGood(s, f, boot);
    PreparedJobs(s, f, boot);
    OneDriveJobs(Prepared(s, f, boot), Drive(f, Elsewhere, boot.raw, boot.stops));
  }

  lemma NobodyHome(s: State, dr: Drive, sid: Sid, i: nat)
    requires Good(s) && sid in s.sessions && i < |s.sessions[sid].frames| && s.sessions[sid].frames[i].id == dr.frame
    requires StepDriver(s, dr).None?
    ensures s.sessions[sid].frames[i].driver.NoDriver?
  {
    assert HasFrame(s.sessions[sid], dr.frame);
    var x := Owner(s, dr.frame);
    var j := IndexIn(s.sessions[x].frames, dr.frame);
    HasFrameIs(s.sessions[x], dr.frame);
    if x != sid || j != i { OtherId(s, sid, i, x, j); }
  }

  lemma JobResultJobs(s: State, job: JobId, raw: seq<Raw>, stops: bool)
    requires Good(s) && JobsOk(s)
    ensures JobsOk(ReduceJobResult(s, job, raw, stops).0)
  {
    if job in s.jobs {
      var s1 := s.(jobs := s.jobs - {job});
      var dr := Drive(s.jobs[job].frame, Result(s.jobs[job].kind), raw, stops);
      JobsGood(s, s1);
      ResultReady(s, job, raw, stops);
      if StepDriver(s1, dr).Some? {
        StepDriverJobs(s1, dr);
      } else {
        forall sid | sid in s.sessions ensures SessionJobsOk(s1.jobs, s.sessions[sid]) {
          assert SessionJobsOk(s.jobs, s.sessions[sid]);
          forall i | 0 <= i < |s.sessions[sid].frames| ensures FrameJobsOk(s1.jobs, s.sessions[sid].frames[i]) {
            if s.sessions[sid].frames[i].id == dr.frame {
              NobodyHome(s1, dr, sid, i);
            } else {
              OthersKeep(s.jobs, job, s.sessions[sid].frames[i]);
            }
          }
        }
      }
    }
  }

  lemma SetHeadJobs(s: State, conn: Conn, req: string, sid: Sid, f: Fid)
    requires JobsOk(s)
    ensures JobsOk(ReduceSetHead(s, conn, req, sid, f).0)
  {
  }

  lemma ExitedJobs(s: State, dr: Drive, code: int)
    requires Good(s) && JobsOk(s)
    ensures JobsOk(ReduceExited(s, dr, code).0)
  {
    EvictJobs(s, dr.frame, true);
    OneDriveJobs(s, dr.(stimulus := CommandExit));
  }

  lemma ReduceJobs(s: State, ev: Event)
    requires Good(s) && JobsOk(s)
    ensures JobsOk(Reduce(s, ev).0)
  {
    match ev
    case EvCreate(conn, req, _, launch) => if launch.Launched? { OpenJobs(s, launch.plan, true, conn, req); }
    case EvPush(conn, req, sid, launch) =>
      if sid in s.sessions && launch.Launched? { PushJobs(s, sid, launch.plan, conn, req); }
    case EvFork(conn, req, _, launch) => if launch.Launched? { OpenJobs(s, launch.plan, false, conn, req); }
    case EvStop(_, _, _) =>
    case EvSetHead(conn, req, sid, f) => SetHeadJobs(s, conn, req, sid, f);
    case EvSpawned(sid, f, conn, req, boot) => SpawnedJobs(s, sid, f, conn, req, boot);
    case EvSpawnFailed(f, _, _) => EvictJobs(s, f, false);
    case EvVanished(f) => EvictJobs(s, f, false);
    case EvExited(dr, code) => ExitedJobs(s, dr, code);
    case EvDrive(f, note, drives, resolves, persists) => DriveJobs(s, f, note, drives, resolves, persists);
    case EvJobResult(job, raw, stops) => JobResultJobs(s, job, raw, stops);
  }

  lemma {:induction false} RunJobs(evs: seq<Event>)
    ensures JobsOk(Run(NEW, evs))
    decreases |evs|
  {
    if evs != [] {
      var s := Run(NEW, evs[..|evs| - 1]);
      RunJobs(evs[..|evs| - 1]);
      RunGood(evs[..|evs| - 1]);
      ReduceJobs(s, evs[|evs| - 1]);
    }
  }

  /** In every run a live Claude frame has at most one transcript, one branch and one summary job outstanding, and one
      exactly while the guard of its kind is up: a guard never stays up without its job. */
  lemma OneJobOfAKind(evs: seq<Event>, sid: Sid, i: nat, k: JobKind)
    requires var s := Run(NEW, evs);
             sid in s.sessions && i < |s.sessions[sid].frames| && s.sessions[sid].frames[i].driver.Claude? && Guarded(k)
    ensures var s := Run(NEW, evs);
            var fr := s.sessions[sid].frames[i];
            && AtMostOne(Outstanding(s.jobs, fr.id, k))
            && (Outstanding(s.jobs, fr.id, k) != {} <==> Flag(fr.driver, k))
  {
    var s := Run(NEW, evs);
    RunJobs(evs);
    assert SessionJobsOk(s.jobs, s.sessions[sid]);
    assert FrameJobsOk(s.jobs, s.sessions[sid].frames[i]);
    assert GuardOk(s.jobs, s.sessions[sid].frames[i].id, s.sessions[sid].frames[i].driver, k);
  }

  // ---- job IDs and delivery -------------------------------------------------

  function Started(effs: seq<Effect>): seq<JobId> {
    if effs == [] then [] else (if effs[0].EffStartJob? then [effs[0].job] else []) + Started(effs[1..])
  }

  lemma {:induction false} StartedAppend(a: seq<Effect>, b: seq<Effect>)
    ensures Started(a + b) == Started(a) + Started(b)
    decreases |a|
  {
    if a == [] {
      assert a + b == b;
    } else {
      assert (a + b)[0] == a[0] && (a + b)[1..] == a[1..] + b;
      StartedAppend(a[1..], b);
    }
  }

  predicate Ascending(ids: seq<JobId>, lo: nat, hi: nat) {
    && (forall i | 0 <= i < |ids| :: lo < ids[i] <= hi)
    && (forall i, j | 0 <= i < j < |ids| :: ids[i] < ids[j])
  }

  lemma AscendingAppend(a: seq<JobId>, b: seq<JobId>, lo: nat, mid: nat, hi: nat)
    requires Ascending(a, lo, mid) && Ascending(b, mid, hi) && lo <= mid <= hi
    ensures Ascending(a + b, lo, hi)
  {
  }

  lemma {:induction false} PostProcessIds(s: State, sid: Sid, f: Fid, raw: seq<Raw>)
    ensures var r := PostProcess(s, sid, f, raw);
            s.nextJob <= r.0.nextJob && Ascending(Started(r.1), s.nextJob, r.0.nextJob)
    decreases |raw|
  {
    if raw != [] {
      var s1 := Recorded(s, f, raw[0]);
      PostProcessIds(s1, sid, f, raw[1..]);
      var r, rest := PostProcess(s, sid, f, raw), PostProcess(s1, sid, f, raw[1..]);
      assert r.1 == [r.1[0]] + rest.1 && r.1[1..] == rest.1;
      AscendingAppend(if raw[0].StartJob? then [s.nextJob + 1] else [], Started(rest.1), s.nextJob, s1.nextJob,
                      r.0.nextJob);
    }
  }

  /** Job IDs given out by an event are new and ascending. */
  predicate FreshIds(s: State, s': State, effs: seq<Effect>) {
    s.nextJob <= s'.nextJob && Ascending(Started(effs), s.nextJob, s'.nextJob)
  }

  predicate NoJobs(effs: seq<Effect>) { forall k | 0 <= k < |effs| :: !effs[k].EffStartJob? }

  lemma {:induction false} NoneStarted(effs: seq<Effect>)
    requires NoJobs(effs)
    ensures Started(effs) == []
    decreases |effs|
  {
    if effs != [] {
      NoneStarted(effs[1..]);
    }
  }

  lemma FreshPlus(s: State, s': State, effs: seq<Effect>, tail: seq<Effect>)
    requires FreshIds(s, s', effs) && NoJobs(tail)
    ensures FreshIds(s, s', effs + tail)
  {
    StartedAppend(effs, tail);
    NoneStarted(tail);
    assert Started(effs) + [] == Started(effs);
  }

  lemma StepDriverIds(s: State, dr: Drive)
    requires StepDriver(s, dr).Some?
    ensures FreshIds(s, StepDriver(s, dr).value.0, StepDriver(s, dr).value.1)
  {
    var sid := Owner(s, dr.frame);
    var sess := s.sessions[sid];
    var i := IndexIn(sess.frames, dr.frame);
    var r := DriverStep(sess.frames[i].driver, i == 0, dr);
    PostProcessIds(PutSession(s, sid, SetDriver(sess, i, r.0)), sid, dr.frame, r.1);
  }

  lemma {:induction false} StepDriversIds(s: State, drives: seq<Drive>)
    ensures FreshIds(s, StepDrivers(s, drives).0, StepDrivers(s, drives).1)
    decreases |drives|
  {
    if drives != [] {
      var r := StepDriver(s, drives[0]);
      if r.Some? {
        StepDriverIds(s, drives[0]);
        StepDriversIds(r.value.0, drives[1..]);
        var rest := StepDrivers(r.value.0, drives[1..]);
        StartedAppend(r.value.1, rest.1);
        AscendingAppend(Started(r.value.1), Started(rest.1), s.nextJob, r.value.0.nextJob, rest.0.nextJob);
      } else {
        StepDriversIds(s, drives[1..]);
      }
    }
  }

  lemma StartedCons(eff: Effect, rest: seq<Effect>)
    ensures Started([eff] + rest) == (if eff.EffStartJob? then [eff.job] else []) + Started(rest)
  {
    assert ([eff] + rest)[1..] == rest;
  }

  lemma {:induction false} ResolveStarted(s: State, effs: seq<Effect>)
    ensures Started(ResolvePushes(s, effs).1) == Started(effs) && ResolvePushes(s, effs).0.nextJob == s.nextJob
    decreases |effs|
  {
    if effs != [] {
      if !effs[0].EffPushDriver? {
        ResolveStarted(s, effs[1..]);
        StartedCons(effs[0], ResolvePushes(s, effs[1..]).1);
      } else if effs[0].launch.Launched? && effs[0].sid in s.sessions {
        var p := PushFrame(s, effs[0].sid, effs[0].launch.plan, 0, "");
        ResolveStarted(p.0, effs[1..]);
        StartedCons(p.1[0], ResolvePushes(p.0, effs[1..]).1);
        assert p.1 == [p.1[0]];
      } else {
        ResolveStarted(s, effs[1..]);
      }
    }
  }

  lemma {:induction false} TeardownNoJobs(ids: seq<Fid>, kill: bool)
    ensures NoJobs(TeardownAll(ids, kill))
    decreases |ids|
  {
    if ids != [] {
      TeardownNoJobs(ids[1..], kill);
    }
  }

  lemma EvictIds(s: State, f: Fid, kill: bool, tail: seq<Effect>)
    requires NoJobs(tail)
    ensures FreshIds(s, Evict(s, f, kill).0, Evict(s, f, kill).1 + tail)
  {
    if Alive(s, f) {
      TeardownNoJobs(Ids(s.sessions[Owner(s, f)].frames), kill);
    }
    NoneStarted(Evict(s, f, kill).1 + tail);
  }

  lemma QuietIds(s: State, s': State, effs: seq<Effect>)
    requires NoJobs(effs) && s'.nextJob == s.nextJob
    ensures FreshIds(s, s', effs)
  {
    NoneStarted(effs);
  }

  lemma DriveIds(s: State, f: Fid, note: Note, drives: seq<OutsideDrive>, resolves: bool, persists: bool)
    ensures var r := ReduceDrive(s, f, note, drives, resolves, persists); FreshIds(s, r.0, r.1)
  {
    var s1 := Annotate(s, f, note);
    var r := StepDrivers(s1, drives);
    StepDriversIds(s1, drives);
    ResolveStarted(r.0, r.1);
    var r' := if resolves then ResolvePushes(r.0, r.1) else r;
    FreshPlus(s, r'.0, r'.1, if persists then [EffPersist, EffBroadcast] else []);
  }

  lemma BootedIds(s: State, sid: Sid, f: Fid, boot: Boot)
    requires sid in s.sessions && s.sessions[sid].frames != []
    ensures FreshIds(s, Booted(s, sid, f, boot).0, Booted(s, sid, f, boot).1)
  {
    var dr := Drive(f, Elsewhere, boot.raw, boot.stops);
    if StepDriver(s, dr).Some? { StepDriverIds(s, dr); }
    QuietIds(s, s, []);
  }

  lemma SpawnedIds(s: State, sid: Sid, f: Fid, conn: Conn, req: string, boot: Boot)
    ensures var r := ReduceSpawned(s, sid, f, conn, req, boot); FreshIds(s, r.0, r.1)
  {
    QuietIds(s, s, []);
    if sid in s.sessions && HasFrame(s.sessions[sid], f) {
      var s1 := Prepared(s, f, boot);
      PreparedCounters(s, f, boot);
      QuietIds(s1, s1, []);
      if sid in s1.sessions && s1.sessions[sid].frames != [] { BootedIds(s1, sid, f, boot); }
      var (s', effs) := Arrived(s, sid, f, boot);
      var tail := [EffRegister(f), EffPersist, EffBroadcast];
      FreshPlus(s, s', effs, tail);
      FreshPlus(s, s', effs + tail, ReplyTo(conn, req, true, f));
    }
  }

  lemma ExitedIds(s: State, dr: Drive, code: int)
    ensures FreshIds(s, ReduceExited(s, dr, code).0, ReduceExited(s, dr, code).1)
  {
    var st := StepDriver(s, dr.(stimulus := CommandExit));
    EvictIds(s, dr.frame, true, []);
    assert Evict(s, dr.frame, true).1 + [] == Evict(s, dr.frame, true).1;
    if st.Some? {
      StepDriverIds(s, dr.(stimulus := CommandExit));
      FreshPlus(s, st.value.0, st.value.1, [EffRelease(dr.frame)]);
    }
    QuietIds(s, s, [] + [EffRelease(dr.frame)]);
    QuietIds(s, s, []);
  }

  lemma JobResultIds(s: State, job: JobId, raw: seq<Raw>, stops: bool)
    ensures FreshIds(s, ReduceJobResult(s, job, raw, stops).0, ReduceJobResult(s, job, raw, stops).1)
  {
    QuietIds(s, s, []);
    if job in s.jobs {
      var s1 := s.(jobs := s.jobs - {job});
      var dr := Drive(s.jobs[job].frame, Result(s.jobs[job].kind), raw, stops);
      QuietIds(s, s1, []);
      if StepDriver(s1, dr).Some? {
        StepDriverIds(s1, dr);
        FreshPlus(s, StepDriver(s1, dr).value.0, StepDriver(s1, dr).value.1, [EffPersist, EffBroadcast]);
      }
    }
  }

  /** Job IDs are never given out twice: each event's are above all earlier ones, and ascending. */
  lemma ReduceIds(s: State, ev: Event)
    ensures FreshIds(s, Reduce(s, ev).0, Reduce(s, ev).1)
  {
    var r := Reduce(s, ev);
    match ev
    case EvStop(_, _, sid) =>
      if sid in s.sessions { TeardownNoJobs(Ids(s.sessions[sid].frames), true); }
      QuietIds(s, r.0, r.1);
    case EvSpawned(sid, f, conn, req, boot) => SpawnedIds(s, sid, f, conn, req, boot);
    case EvSpawnFailed(f, conn, req) => EvictIds(s, f, false, ReplyTo(conn, req, false, f));
    case EvVanished(f) =>
      EvictIds(s, f, false, []);
      assert Evict(s, f, false).1 + [] == Evict(s, f, false).1;
    case EvExited(dr, code) => ExitedIds(s, dr, code);
    case EvDrive(f, note, drives, resolves, persists) => DriveIds(s, f, note, drives, resolves, persists);
    case EvJobResult(job, raw, stops) => JobResultIds(s, job, raw, stops);
    case _ => QuietIds(s, r.0, r.1);
  }

  // ---- the list of jobs -----------------------------------------------------

  /** The jobs that some effects start, by ID. */
  function Tasks(effs: seq<Effect>): map<JobId, Job> {
    if effs == [] then map[] else Task(effs[0]) + Tasks(effs[1..])
  }

  function Task(eff: Effect): map<JobId, Job> {
    if eff.EffStartJob? then map[eff.job := Job(eff.frame, eff.kind)] else map[]
  }

  lemma MergeThree(a: map<JobId, Job>, b: map<JobId, Job>, c: map<JobId, Job>)
    ensures a + b + c == a + (b + c)
  {
  }

  lemma {:induction false} TasksAppend(a: seq<Effect>, b: seq<Effect>)
    ensures Tasks(a + b) == Tasks(a) + Tasks(b)
    decreases |a|
  {
    if a == [] {
      assert a + b == b;
    } else {
      assert (a + b)[0] == a[0] && (a + b)[1..] == a[1..] + b;
      TasksAppend(a[1..], b);
      MergeThree(Task(a[0]), Tasks(a[1..]), Tasks(b));
    }
  }

  lemma {:induction false} NoTasks(effs: seq<Effect>)
    requires NoJobs(effs)
    ensures Tasks(effs) == map[]
    decreases |effs|
  {
    if effs != [] { NoTasks(effs[1..]); }
  }

  /** The jobs listed after an event: those before it and those it starts. */
  predicate Lists(jobs: map<JobId, Job>, s': State, effs: seq<Effect>) { s'.jobs == jobs + Tasks(effs) }

  lemma ListsPlus(jobs: map<JobId, Job>, s': State, effs: seq<Effect>, tail: seq<Effect>)
    requires Lists(jobs, s', effs) && NoJobs(tail)
    ensures Lists(jobs, s', effs + tail)
  {
    TasksAppend(effs, tail);
    NoTasks(tail);
    assert Tasks(effs) + map[] == Tasks(effs);
  }

  lemma ListsTwice(jobs: map<JobId, Job>, s1: State, e1: seq<Effect>, s2: State, e2: seq<Effect>)
    requires Lists(jobs, s1, e1) && Lists(s1.jobs, s2, e2)
    ensures Lists(jobs, s2, e1 + e2)
  {
    TasksAppend(e1, e2);
    MergeThree(jobs, Tasks(e1), Tasks(e2));
  }

  lemma ListsNone(s: State, s': State, effs: seq<Effect>)
    requires NoJobs(effs) && s'.jobs == s.jobs
    ensures Lists(s.jobs, s', effs)
  {
    NoTasks(effs);
  }

  lemma RecordedTask(s: State, f: Fid, r: Raw, eff: Effect)
    requires if r.StartJob? then eff == EffStartJob(s.nextJob + 1, f, r.kind) else !eff.EffStartJob?
    ensures Recorded(s, f, r).jobs == s.jobs + Task(eff)
  {
  }

  lemma {:induction false} PostProcessLists(s: State, sid: Sid, f: Fid, raw: seq<Raw>)
    ensures var r := PostProcess(s, sid, f, raw); Lists(s.jobs, r.0, r.1)
    decreases |raw|
  {
    if raw != [] {
      var s1 := Recorded(s, f, raw[0]);
      var r, rest := PostProcess(s, sid, f, raw), PostProcess(s1, sid, f, raw[1..]);
      PostProcessLists(s1, sid, f, raw[1..]);
      assert r.1[1..] == rest.1;
      RecordedTask(s, f, raw[0], r.1[0]);
      MergeThree(s.jobs, Task(r.1[0]), Tasks(rest.1));
    }
  }

  lemma StepDriverLists(s: State, dr: Drive)
    requires StepDriver(s, dr).Some?
    ensures Lists(s.jobs, StepDriver(s, dr).value.0, StepDriver(s, dr).value.1)
  {
    var sid := Owner(s, dr.frame);
    var sess := s.sessions[sid];
    var i := IndexIn(sess.frames, dr.frame);
    var r := DriverStep(sess.frames[i].driver, i == 0, dr);
    PostProcessLists(PutSession(s, sid, SetDriver(sess, i, r.0)), sid, dr.frame, r.1);
  }

  lemma {:induction false} StepDriversLists(s: State, drives: seq<Drive>)
    ensures Lists(s.jobs, StepDrivers(s, drives).0, StepDrivers(s, drives).1)
    decreases |drives|
  {
    if drives != [] {
      var r := StepDriver(s, drives[0]);
      if r.Some? {
        StepDriverLists(s, drives[0]);
        StepDriversLists(r.value.0, drives[1..]);
        var rest := StepDrivers(r.value.0, drives[1..]);
        ListsTwice(s.jobs, r.value.0, r.value.1, rest.0, rest.1);
      } else {
        StepDriversLists(s, drives[1..]);
      }
    }
  }

  lemma TasksCons(eff: Effect, rest: seq<Effect>)
    ensures Tasks([eff] + rest) == Task(eff) + Tasks(rest)
  {
    assert ([eff] + rest)[1..] == rest;
  }

  lemma {:induction false} ResolveTasks(s: State, effs: seq<Effect>)
    ensures Tasks(ResolvePushes(s, effs).1) == Tasks(effs)
    decreases |effs|
  {
    if effs != [] {
      if !effs[0].EffPushDriver? {
        ResolveTasks(s, effs[1..]);
        TasksCons(effs[0], ResolvePushes(s, effs[1..]).1);
      } else if effs[0].launch.Launched? && effs[0].sid in s.sessions {
        var p := PushFrame(s, effs[0].sid, effs[0].launch.plan, 0, "");
        ResolveTasks(p.0, effs[1..]);
        TasksCons(p.1[0], ResolvePushes(p.0, effs[1..]).1);
        assert p.1 == [p.1[0]];
      } else {
        ResolveTasks(s, effs[1..]);
      }
    }
  }

  lemma DriveLists(s: State, f: Fid, note: Note, drives: seq<OutsideDrive>, resolves: bool, persists: bool)
    ensures var r := ReduceDrive(s, f, note, drives, resolves, persists); Lists(s.jobs, r.0, r.1)
  {
    var s1 := Annotate(s, f, note);
    var r := StepDrivers(s1, drives);
    StepDriversLists(s1, drives);
    ResolveTasks(r.0, r.1);
    ResolveSettled(r.0, r.1);
    var r' := if resolves then ResolvePushes(r.0, r.1) else r;
    ListsPlus(s.jobs, r'.0, r'.1, if persists then [EffPersist, EffBroadcast] else []);
  }

  lemma SpawnedLists(s: State, sid: Sid, f: Fid, conn: Conn, req: string, boot: Boot)
    ensures var r := ReduceSpawned(s, sid, f, conn, req, boot); Lists(s.jobs, r.0, r.1)
  {
    ListsNone(s, s, []);
    if sid in s.sessions && HasFrame(s.sessions[sid], f) {
      var s1 := Prepared(s, f, boot);
      var dr := Drive(f, Elsewhere, boot.raw, boot.stops);
      PreparedCounters(s, f, boot);
      ListsNone(s, s1, []);
      if StepDriver(s1, dr).Some? { StepDriverLists(s1, dr); }
      var (s', effs) := Arrived(s, sid, f, boot);
      var tail := [EffRegister(f), EffPersist, EffBroadcast];
      ListsPlus(s.jobs, s', effs, tail);
      ListsPlus(s.jobs, s', effs + tail, ReplyTo(conn, req, true, f));
    }
  }

  lemma EvictLists(s: State, f: Fid, kill: bool, tail: seq<Effect>)
    requires NoJobs(tail)
    ensures Lists(s.jobs, Evict(s, f, kill).0, Evict(s, f, kill).1 + tail)
  {
    if Alive(s, f) {
      TeardownNoJobs(Ids(s.sessions[Owner(s, f)].frames), kill);
    }
    ListsNone(s, Evict(s, f, kill).0, Evict(s, f, kill).1 + tail);
  }

  lemma ExitedLists(s: State, dr: Drive, code: int)
    ensures Lists(s.jobs, ReduceExited(s, dr, code).0, ReduceExited(s, dr, code).1)
  {
    var st := StepDriver(s, dr.(stimulus := CommandExit));
    EvictLists(s, dr.frame, true, []);
    assert Evict(s, dr.frame, true).1 + [] == Evict(s, dr.frame, true).1;
    if st.Some? {
      StepDriverLists(s, dr.(stimulus := CommandExit));
      ListsPlus(s.jobs, st.value.0, st.value.1, [EffRelease(dr.frame)]);
    }
    ListsNone(s, s, [] + [EffRelease(dr.frame)]);
    ListsNone(s, s, []);
  }

  lemma JobResultLists(s: State, job: JobId, raw: seq<Raw>, stops: bool)
    ensures Lists(s.jobs - {job}, ReduceJobResult(s, job, raw, stops).0, ReduceJobResult(s, job, raw, stops).1)
  {
    var s1 := s.(jobs := s.jobs - {job});
    if job in s.jobs {
      var dr := Drive(s.jobs[job].frame, Result(s.jobs[job].kind), raw, stops);
      ListsNone(s1, s1, []);
      if StepDriver(s1, dr).Some? {
        StepDriverLists(s1, dr);
        ListsPlus(s1.jobs, StepDriver(s1, dr).value.0, StepDriver(s1, dr).value.1, [EffPersist, EffBroadcast]);
      }
    } else {
      assert s.jobs - {job} == s.jobs;
      ListsNone(s, s, []);
    }
  }

  /** Every event: the jobs outstanding after it are those before it, without the one it delivers, and exactly those it
      starts, each listed under the ID, frame and kind it is started with. */
  lemma JobsExactly(s: State, ev: Event)
    ensures var delivered := if ev.EvJobResult? then {ev.job} else {};
            Reduce(s, ev).0.jobs == (s.jobs - delivered) + Tasks(Reduce(s, ev).1)
  {
    var r := Reduce(s, ev);
    assert s.jobs - {} == s.jobs;
    match ev
    case EvStop(_, _, sid) =>
      if sid in s.sessions { TeardownNoJobs(Ids(s.sessions[sid].frames), true); }
      ListsNone(s, r.0, r.1);
    case EvSpawned(sid, f, conn, req, boot) => SpawnedLists(s, sid, f, conn, req, boot);
    case EvSpawnFailed(f, conn, req) => EvictLists(s, f, false, ReplyTo(conn, req, false, f));
    case EvVanished(f) =>
      EvictLists(s, f, false, []);
      assert Evict(s, f, false).1 + [] == Evict(s, f, false).1;
    case EvExited(dr, code) => ExitedLists(s, dr, code);
    case EvDrive(f, note, drives, resolves, persists) => DriveLists(s, f, note, drives, resolves, persists);
    case EvJobResult(job, raw, stops) => JobResultLists(s, job, raw, stops);
    case _ => ListsNone(s, r.0, r.1);
  }

  /** A job that is not outstanding, with an ID given out before. */
  predicate Settled(s: State, job: JobId) { job !in s.jobs && job <= s.nextJob }

  lemma StepDriverSettled(s: State, dr: Drive, job: JobId)
    requires Good(s) && Settled(s, job) && StepDriver(s, dr).Some?
    ensures Settled(StepDriver(s, dr).value.0, job)
  {
    var sid := Owner(s, dr.frame);
    var sess := s.sessions[sid];
    var i := IndexIn(sess.frames, dr.frame);
    var r := DriverStep(sess.frames[i].driver, i == 0, dr);
    var s1 := PutSession(s, sid, SetDriver(sess, i, r.0));
    PostProcessJobs(s1, sid, dr.frame, r.1);
    PostProcessIds(s1, sid, dr.frame, r.1);
  }

  lemma {:induction false} StepDriversSettled(s: State, drives: seq<Drive>, job: JobId)
    requires Good(s) && Settled(s, job)
    ensures Settled(StepDrivers(s, drives).0, job)
    decreases |drives|
  {
    if drives != [] {
      var r := StepDriver(s, drives[0]);
      if r.Some? {
        StepDriverSettled(s, drives[0], job);
        StepDriverGood(s, drives[0]);
        StepDriversSettled(r.value.0, drives[1..], job);
      } else {
        StepDriversSettled(s, drives[1..], job);
      }
    }
  }

  lemma {:induction false} ResolveSettled(s: State, effs: seq<Effect>)
    ensures ResolvePushes(s, effs).0.jobs == s.jobs && ResolvePushes(s, effs).0.nextJob == s.nextJob
    decreases |effs|
  {
    if effs != [] {
      if effs[0].EffPushDriver? && effs[0].launch.Launched? && effs[0].sid in s.sessions {
        ResolveSettled(PushFrame(s, effs[0].sid, effs[0].launch.plan, 0, "").0, effs[1..]);
      } else {
        ResolveSettled(s, effs[1..]);
      }
    }
  }

  lemma JobResultSettled(s: State, done: JobId, raw: seq<Raw>, stops: bool, job: JobId)
    requires Good(s) && (Settled(s, job) || (done == job && job in s.jobs))
    ensures Settled(ReduceJobResult(s, done, raw, stops).0, job)
  {
    if done in s.jobs {
      var s1 := s.(jobs := s.jobs - {done});
      var dr := Drive(s.jobs[done].frame, Result(s.jobs[done].kind), raw, stops);
      JobsGood(s, s1);
      if StepDriver(s1, dr).Some? { StepDriverSettled(s1, dr, job); }
    }
  }

  lemma SpawnedSettled(s: State, sid: Sid, f: Fid, conn: Conn, req: string, boot: Boot, job: JobId)
    requires Good(s) && Settled(s, job)
    ensures Settled(ReduceSpawned(s, sid, f, conn, req, boot).0, job)
  {
    var s1 := Prepared(s, f, boot);
    var dr := Drive(f, Elsewhere, boot.raw, boot.stops);
    PreparedGood(s, f, boot);
    PreparedCounters(s, f, boot);
    if StepDriver(s1, dr).Some? { StepDriverSettled(s1, dr, job); }
  }

  lemma ExitedSettled(s: State, dr: Drive, code: int, job: JobId)
    requires Good(s) && Settled(s, job)
    ensures Settled(ReduceExited(s, dr, code).0, job)
  {
    var exit := dr.(stimulus := CommandExit);
    if StepDriver(s, exit).Some? { StepDriverSettled(s, exit, job); }
  }

  lemma DriveSettled(s: State, f: Fid, note: Note, drives: seq<OutsideDrive>, resolves: bool, persists: bool,
                     job: JobId)
    requires Good(s) && Settled(s, job)
    ensures Settled(ReduceDrive(s, f, note, drives, resolves, persists).0, job)
  {
    var s1 := Annotate(s, f, note);
    AnnotateGood(s, f, note);
    StepDriversSettled(s1, drives, job);
    ResolveSettled(StepDrivers(s1, drives).0, StepDrivers(s1, drives).1);
  }

  lemma ReduceSettled(s: State, ev: Event, job: JobId)
    requires Good(s) && Settled(s, job)
    ensures Settled(Reduce(s, ev).0, job)
  {
    match ev
    case EvSpawned(sid, f, conn, req, boot) => SpawnedSettled(s, sid, f, conn, req, boot, job);
    case EvExited(dr, code) => ExitedSettled(s, dr, code, job);
    case EvDrive(f, note, drives, resolves, persists) =>
      DriveSettled(s, f, note, drives, resolves, persists, job);
    case EvJobResult(done, raw, stops) => JobResultSettled(s, done, raw, stops, job);
    case _ =>
  }

  lemma {:induction false} RunSettled(s: State, evs: seq<Event>, job: JobId)
    requires Good(s) && Settled(s, job)
    ensures Good(Run(s, evs)) && Settled(Run(s, evs), job)
    decreases |evs|
  {
    if evs != [] {
      RunSettled(s, evs[..|evs| - 1], job);
      ReduceGood(Run(s, evs[..|evs| - 1]), evs[|evs| - 1]);
      ReduceSettled(Run(s, evs[..|evs| - 1]), evs[|evs| - 1], job);
    }
  }

  /** A result is delivered at most once: after the first, whatever happens, another one for the job does nothing. */
  lemma DeliveredOnce(s: State, job: JobId, raw: seq<Raw>, stops: bool, evs: seq<Event>, raw': seq<Raw>, stops': bool)
    requires Good(s) && job in s.jobs
    ensures var later := Run(Reduce(s, EvJobResult(job, raw, stops)).0, evs);
            Reduce(later, EvJobResult(job, raw', stops')) == (later, [])
  {
    ReduceGood(s, EvJobResult(job, raw, stops));
    JobResultSettled(s, job, raw, stops, job);
    RunSettled(Reduce(s, EvJobResult(job, raw, stops)).0, evs, job);
  }

  /** Nothing but the driver of one frame differs. */
  predicate OnlyFrame(s: State, s': State, f: Fid) {
    && s'.sessions.Keys == s.sessions.Keys
    && forall sid | sid in s.sessions ::
         && |s'.sessions[sid].frames| == |s.sessions[sid].frames|
         && forall i | 0 <= i < |s.sessions[sid].frames| ::
              s'.sessions[sid].frames[i] == s.sessions[sid].frames[i] || s.sessions[sid].frames[i].id == f
  }

  /** A result reaches only the frame that asked for the job. */
  lemma DeliveredToRequester(s: State, job: JobId, raw: seq<Raw>, stops: bool)
    requires Good(s) && job in s.jobs
    ensures OnlyFrame(s, ReduceJobResult(s, job, raw, stops).0, s.jobs[job].frame)
  {
    var s1 := s.(jobs := s.jobs - {job});
    var dr := Drive(s.jobs[job].frame, Result(s.jobs[job].kind), raw, stops);
    if StepDriver(s1, dr).Some? {
      var sid := Owner(s1, dr.frame);
      var sess := s1.sessions[sid];
      var i := IndexIn(sess.frames, dr.frame);
      var r := DriverStep(sess.frames[i].driver, i == 0, dr);
      PostProcessKeeps(PutSession(s1, sid, SetDriver(sess, i, r.0)), sid, dr.frame, r.1);
    }
  }
}
