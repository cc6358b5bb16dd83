/**
  What every run of the daemon and the camera keeps: own commits, belief equal to
  the committed mode, the breaker's count, persisted intent.
*/
module DaemonSafety {
  import opened Base
  import opened PixyWire
  import opened PixyDevice
  import opened Presets
  import opened DaemonSystem

  // ---------------------------------------------------------------------
  // Invariant: the camera
  // ---------------------------------------------------------------------

  /** Every mode the camera applied was configured by the call that committed it, and is what that call asked for. */
  ghost predicate OwnCommits(applied: seq<Entry>) {
    forall a <- applied :: a.configuredBy == a.committedBy && a.mode == a.asked
  }

  ghost predicate CamOk(c: Cam) {
    Stable(c.device) && c.device.pending.Keys == c.pendingBy.Keys && OwnCommits(c.applied)
  }

  /** In the middle of an operation the strikes have not reached the threshold. */
  predicate InFlight(stage: Stage) {
    stage.Configured? || stage.Committed? || stage.WriteFailed? || stage.CommitFailed? || stage.MotorSent?
  }

  /** What a pending config and a committed mode have to do with the call in progress. */
  ghost predicate StageOk(c: Cam, count: nat, op: Op, stage: Stage) {
    && (InFlight(stage) ==> count < BREAKER)
    && match stage
       case Configured(call) =>
         op.Set? && (op.iface in c.device.pending && op.iface in c.pendingBy ==>
                       c.device.pending[op.iface] == op.mode && c.pendingBy[op.iface] == call)
       case Committed(_, e) => op.Set? && e <= c.epoch && (e == c.epoch ==> ModeByte(c.device, op.iface) == op.mode)
       case _ => true
  }

  ghost predicate HolderOk(c: Cam, count: nat, threads: ThreadMap, hidMu: Option<nat>) {
    hidMu.Some? && Busy(threads, hidMu.value) ==>
      StageOk(c, count, threads[hidMu.value].ops[0], threads[hidMu.value].stage)
  }

  lemma SentConfig(iface: Byte, mode: Byte)
    ensures Sent(Config(iface, mode)) == Config(iface, mode) + Zeros(23)
            && Sent(Commit(iface)) == Commit(iface) + Zeros(28)
  {
  }

  lemma ConfigOf(c: Cam, op: Op, link: Link)
    requires CamOk(c) && op.Set? && OpOk(op)
    ensures CamOk(ConfigArrives(c, op, link))
    ensures ConfigOk(c, op, link) <==> link == Delivered
    ensures var d := ConfigArrives(c, op, link);
            && d.epoch == c.epoch && d.applied == c.applied
            && (link == Lost ==> d.device == c.device)
            && (link != Lost ==> d.device == c.device.(pending := c.device.pending[op.iface := op.mode])
                                 && d.pendingBy == c.pendingBy[op.iface := c.calls])
  {
    SentConfig(op.iface, op.mode);
    ConfigPends(c.device, op.iface, op.mode, 23);
    hide Receive, Sent, Config, Commit;
  }

  lemma CommitOf(c: Cam, op: Op, call: nat, link: Link)
    requires CamOk(c) && op.Set? && OpOk(op)
    requires StageOk(c, 0, op, Configured(call))
    ensures var d := CommitArrives(c, op, call, link);
            && CamOk(d) && d.epoch == c.epoch
            && (link == Lost || op.iface !in c.device.pending ==> d == c && !CommitOk(c, op, link))
            && (link != Lost && op.iface in c.device.pending ==>
                  && d.device == Applied(c.device, op.iface, op.mode).(pending := c.device.pending - {op.iface})
                  && d.applied == c.applied + [Entry(op.iface, op.mode, call, call, op.mode)]
                  && ModeByte(d.device, op.iface) == op.mode
                  && (CommitOk(c, op, link) <==> link == Delivered))
  {
    SentConfig(op.iface, op.mode);
    CommitApplies(c.device, op.iface, 28);
    hide Receive, Sent, Config, Commit;
  }

  lemma MotorOf(c: Cam, op: Op, link: Link)
    requires CamOk(c) && op.Motor? && OpOk(op)
    ensures var d := MotorArrives(c, op, link);
            CamOk(d) && Legacy(d.device) == Legacy(c.device) && d == c.(device := d.device)
  {
    V2KeepsLegacy(c.device, Sent(op.report));
    hide HandleV2Set, Sent;
  }

  lemma HolderAt(c: Cam, count: nat, threads: ThreadMap, hidMu: Option<nat>, t: nat, stage: Stage)
    requires Busy(threads, t) && hidMu == Some(t) && StageOk(c, count, threads[t].ops[0], stage)
    ensures HolderOk(c, count, At(threads, t, stage), hidMu)
  {
    hide StageOk;
  }

  lemma HolderFree(c: Cam, count: nat, threads: ThreadMap, hidMu: Option<nat>)
    requires hidMu.Some? && Busy(threads, hidMu.value) ==> threads[hidMu.value].stage == Ready
    ensures HolderOk(c, count, threads, hidMu)
  {
  }

  /** Events that leave the camera and the holder's operation alone keep the holder's part. */
  lemma HolderKept(c: Cam, count: nat, threads: ThreadMap, hidMu: Option<nat>, more: ThreadMap, less: nat)
    requires HolderOk(c, count, threads, hidMu) && less <= count
    requires hidMu.Some? ==> (hidMu.value in threads <==> hidMu.value in more)
                             && (hidMu.value in threads ==> more[hidMu.value] == threads[hidMu.value])
    ensures HolderOk(c, less, more, hidMu)
  {
  }

  lemma PowerCycled(c: Cam, count: nat, threads: ThreadMap, hidMu: Option<nat>, boot: Device)
    requires CamOk(c) && HolderOk(c, count, threads, hidMu) && Stable(boot) && boot.pending == map[]
    ensures var d := Cam(boot, map[], c.applied, c.epoch + 1, c.calls);
            CamOk(d) && HolderOk(d, count, threads, hidMu)
  {
    hide ModeByte;
  }

  /** The whole state keeps the camera's part and the holder's. */
  ghost predicate Core(s: System) {
    && Proper(s.threads, s.hidMu)
    && CamOk(s.cam)
    && HolderOk(s.cam, s.proc.count, s.threads, s.hidMu)
  }

  lemma TransferCore(s: System, e: Event)
    requires Core(s) && Enabled(s, e) && (e.SendConfig? || e.SendCommit? || e.SendMotor?)
    ensures var u := Apply(s, e);
            CamOk(u.cam) && HolderOk(u.cam, u.proc.count, u.threads, u.hidMu)
  {
    var t := e.t;
    Acting(s.threads, s.hidMu, t);
    var op, c, stage := OpAt(s, t), s.cam, StageAt(s, t);
    var next := Apply(s, e).threads[t].stage;
    var d := Apply(s, e).cam;
    hide Receive, Sent, ThreadOk, Proper, PlanOk, OpOk, ConfigArrives, CommitArrives, MotorArrives, ConfigOk, CommitOk,
         MotorOk, OwnCommits;
    match e {
      case SendConfig(_, link) =>
        ConfigOf(c, op, link);
      case SendCommit(_, link) =>
        CommitOf(c, op, stage.call, link);
      case SendMotor(_, link) =>
        MotorOf(c, op, link);
    }
    assert StageOk(d, s.proc.count, op, next);
    HolderAt(d, s.proc.count, s.threads, s.hidMu, t, next);
  }

  /** The acting thread leaves its operation, moves to a stage without a claim, or was not inside one. */
  lemma FreeCore(s: System, e: Event)
    requires Core(s) && Enabled(s, e) && HolderEvent(e) && !(e.SendConfig? || e.SendCommit? || e.SendMotor?)
    ensures var u := Apply(s, e);
            u.cam == s.cam && HolderOk(u.cam, u.proc.count, u.threads, u.hidMu)
  {
    var t := e.t;
    Acting(s.threads, s.hidMu, t);
    var u := Apply(s, e);
    hide Proper, ThreadOk, PlanOk, Rest, CamOk, StageOk, Stable, MotorReports, Booted, Probed, Believed, Adopted,
         StruckAndProbed, Cleared, ConfigArrives, CommitArrives, MotorArrives, ConfigOk, CommitOk, MotorOk,
         ReconcilePlan;
    match e
    case BeginSync(_) => HolderAtFree(s, t, Guarded, u.proc.count);
    case SeeVideo(_) => HolderAtFree(s, t, Querying(0, None, None), u.proc.count);
    case Query(_, _) => if s.proc.hid { HolderAtFree(s, t, u.threads[t].stage, u.proc.count); }
    case Believe(_, _) => HolderFree(u.cam, u.proc.count, Done(s.threads, t, false), s.hidMu);
                          HolderAtFree(s, t, TrapCheck, u.proc.count);
    case TrapLook(_, r) => HolderFree(u.cam, u.proc.count, u.threads, s.hidMu);
    case _ => HolderFree(u.cam, u.proc.count, u.threads, u.hidMu);
  }

  /** Stages of an operation that has written nothing, or whose write is over. */
  predicate Reads(stage: Stage) {
    stage.TrapCheck? || stage.Guarded? || stage.Querying? || stage.Queried?
  }

  lemma HolderAtFree(s: System, t: nat, stage: Stage, count: nat)
    requires Busy(s.threads, t) && s.hidMu == Some(t) && Reads(stage)
    ensures HolderOk(s.cam, count, At(s.threads, t, stage), s.hidMu)
  {
  }

  /** Steps by others leave the holder's thread alone; only a power cycle or a restart touches the camera's part. */
  lemma HolderStays(s: System, e: Event)
    requires Enabled(s, e) && !HolderEvent(e) && !e.Restart? && Proper(s.threads, s.hidMu)
    ensures var u := Apply(s, e);
            && (!e.PowerCycle? ==> u.cam == s.cam)
            && u.hidMu == (if e.Lock? then Some(e.t) else if e.Unlock? then None else s.hidMu)
            && forall t <- s.threads ::
                 s.threads[t].Holding? && e != Unlock(t) ==> t in u.threads && u.threads[t] == s.threads[t]
  {
    hide Proper, Startable, ReassertPlan, Stable, Probed, SavedAs;
  }

  /** A thread after a step that is not the holder's: arrived, let in, past its timer, or as it was. */
  lemma QuietThread(s: System, e: Event, t: nat)
    requires Enabled(s, e) && !HolderEvent(e) && Proper(s.threads, s.hidMu) && t in Apply(s, e).threads
    ensures var th := Apply(s, e).threads[t];
            match e
            case Spawn(u, plan) => if t == u then th == Waiting(None, plan) else t in s.threads && th == s.threads[t]
            case Lock(u) =>
              && t in s.threads
              && if t == u then s.threads[t].Waiting? && th == Holding(s.threads[t].again, s.threads[t].plan, Ready)
                 else th == s.threads[t]
            case TimerFires(u) =>
              && t in s.threads
              && if t == u then
                   s.threads[t].Delayed? && th == Waiting(Some(s.threads[t].mode), ReassertPlan(s.threads[t].mode))
                   && s.proc.belief.camera == s.threads[t].mode
                 else th == s.threads[t]
            case _ => t in s.threads && th == s.threads[t]
  {
    hide Proper, Startable, ReassertPlan, Stable, Probed, SavedAs, Booted;
  }

  /** Nobody holds the lock but who held it, or who takes it now. */
  lemma HolderBefore(s: System, e: Event, t: nat)
    requires Enabled(s, e) && !HolderEvent(e) && Proper(s.threads, s.hidMu)
    requires t in Apply(s, e).threads && Apply(s, e).threads[t].Holding?
    ensures t in s.threads
            && if e == Lock(t) then
                 s.threads[t].Waiting?
                 && Apply(s, e).threads[t] == Holding(s.threads[t].again, s.threads[t].plan, Ready)
               else Apply(s, e).threads[t] == s.threads[t]
  {
    QuietThread(s, e, t);
    hide Apply, Enabled, Proper, ReassertPlan;
  }

  /** The daemon's fields after a step. */
  ghost function ProcAfter(s: System, e: Event): Proc
    requires Proper(s.threads, s.hidMu) && Enabled(s, e)
  {
    match e
    case Believe(t, save) =>
      Acting(s.threads, s.hidMu, t);
      Believed(s.proc, OpAt(s, t), save)
    case TakeOver(t, save) => Adopted(s.proc, StageAt(s, t), save)
    case Strike(_, r) => StruckAndProbed(s.proc, r)
    case StrikeCommit(_) => Struck(s.proc)
    case MotorDone(_) => Cleared(s.proc)
    case HolderProbe(_, r) => Probed(s.proc, r)
    case CmdProbe(r) => Probed(s.proc, r)
    case OtherSave(save) => SavedAs(s.proc, save)
    case Restart(r, audio) => Booted(s.proc, r, audio)
    case Arm => s.proc.(armed := true)
    case Expire => s.proc.(armed := false)
    case _ => s.proc
  }

  lemma ProcIs(s: System, e: Event)
    requires Proper(s.threads, s.hidMu) && Enabled(s, e)
    ensures Apply(s, e).proc == ProcAfter(s, e)
  {
    if HolderEvent(e) {
      ProcHolder(s, e);
    } else {
      ProcOther(s, e);
    }
    hide *;
  }

  lemma ProcHolder(s: System, e: Event)
    requires Proper(s.threads, s.hidMu) && Enabled(s, e) && HolderEvent(e)
    ensures Apply(s, e).proc == ProcAfter(s, e)
  {
    hide Proper, At, Done, AfterBelieve, AfterLook, AfterProbe, MotorReports, ConfigArrives, CommitArrives,
         MotorArrives, ConfigOk, CommitOk, MotorOk, Cleared, Struck, Probed, StruckAndProbed, Believed, Adopted, Guard,
         Refused, Answered, Instead;
  }

  lemma ProcOther(s: System, e: Event)
    requires Proper(s.threads, s.hidMu) && Enabled(s, e) && !HolderEvent(e)
    ensures Apply(s, e).proc == ProcAfter(s, e)
  {
    hide Proper, Startable, AfterTimer, Stable, Probed, SavedAs, Booted;
  }

  /** Belief is the holder's to change, and nobody else adds a strike. */
  lemma QuietProc(s: System, e: Event)
    requires Enabled(s, e) && !HolderEvent(e) && !e.Restart? && Proper(s.threads, s.hidMu)
    ensures Apply(s, e).proc.belief == s.proc.belief && Apply(s, e).proc.count <= s.proc.count
  {
    ProcIs(s, e);
    hide Proper, Enabled, Apply, FileOf;
  }

  lemma OtherCore(s: System, e: Event)
    requires Core(s) && Enabled(s, e) && !HolderEvent(e)
    ensures var u := Apply(s, e);
            CamOk(u.cam) && HolderOk(u.cam, u.proc.count, u.threads, u.hidMu)
  {
    var u := Apply(s, e);
    if e.Restart? {
      assert u.cam == s.cam && u.hidMu == None;
    } else if e.PowerCycle? {
      PowerCycled(s.cam, s.proc.count, s.threads, s.hidMu, e.boot);
    } else if e.Lock? {
      LockCore(s, e.t);
    } else {
      HolderStays(s, e);
      QuietProc(s, e);
      if s.hidMu.Some? {
        assert ThreadOk(s.threads[s.hidMu.value], true);
      }
      hide Apply, Enabled, Proper, CamOk, ThreadOk, HolderOk;
      if !e.Unlock? {
        HolderKept(s.cam, s.proc.count, s.threads, s.hidMu, u.threads, u.proc.count);
      } else {
        HolderFree(u.cam, u.proc.count, u.threads, u.hidMu);
      }
    }
    hide *;
  }

  lemma LockCore(s: System, t: nat)
    requires Core(s) && Enabled(s, Lock(t))
    ensures var u := Apply(s, Lock(t));
            u.cam == s.cam && HolderOk(u.cam, u.proc.count, u.threads, u.hidMu)
  {
    var u := Apply(s, Lock(t));
    HolderFree(u.cam, u.proc.count, u.threads, u.hidMu);
    hide HolderOk, Proper, CamOk;
  }

  lemma CoreStep(s: System, e: Event)
    requires Core(s) && Enabled(s, e)
    ensures Core(Apply(s, e))
  {
    ProperStep(s, e);
    hide Proper, Apply, CamOk, HolderOk, Enabled;
    if !HolderEvent(e) {
      OtherCore(s, e);
    } else if e.SendConfig? || e.SendCommit? || e.SendMotor? {
      TransferCore(s, e);
    } else {
      FreeCore(s, e);
    }
  }

  // ---------------------------------------------------------------------
  // Invariant: the breaker, belief and the file
  // ---------------------------------------------------------------------

  ghost predicate BreakerOk(p: Proc) {
    p.count <= BREAKER
  }

  /** A state as the daemon saves it: a camera mode that is an intent, an audio mode, valid fields. */
  predicate Whole(f: StateFile) {
    f.camera.Some? && f.camera.value != Offline && f.audio.Some? && f.rest
  }

  /** Believed modes are intents; the file is the one found at first or a whole saved state. */
  ghost predicate BeliefOk(p: Proc, found: Option<StateFile>) {
    && p.belief.camera != Offline
    && (p.file == found || (p.file.Some? && Whole(p.file.value)))
    && (p.intent ==> Load(p.file).Some?)
  }

  ghost predicate ProcOk(p: Proc, found: Option<StateFile>) {
    BreakerOk(p) && BeliefOk(p, found)
  }

  lemma ClearedOk(p: Proc, found: Option<StateFile>)
    requires BeliefOk(p, found)
    ensures ProcOk(Cleared(p), found)
  {
  }

  lemma StruckOk(p: Proc, found: Option<StateFile>)
    requires ProcOk(p, found) && p.count < BREAKER
    ensures ProcOk(Struck(p), found)
  {
  }

  lemma ProbedOk(p: Proc, r: Probe, found: Option<StateFile>)
    requires ProcOk(p, found)
    ensures ProcOk(Probed(p, r), found)
  {
    ClearedOk(p.(hid := r.hid, video := r.video), found);
  }

  lemma StruckAndProbedOk(p: Proc, r: Probe, found: Option<StateFile>)
    requires ProcOk(p, found) && p.count < BREAKER
    ensures ProcOk(StruckAndProbed(p, r), found)
  {
    StruckOk(p, found);
    ProbedOk(Struck(p), r, found);
    hide ProcOk, Probed;
  }

  lemma SavedOk(p: Proc, save: Save, found: Option<StateFile>)
    requires ProcOk(p, found)
    ensures ProcOk(SavedAs(p, save), found)
  {
  }

  lemma BelievedOk(p: Proc, op: Op, save: Save, found: Option<StateFile>)
    requires ProcOk(p, found) && op.Set?
    ensures ProcOk(Believed(p, op, save), found)
  {
    var q := p.(belief := WithMode(p.belief, op.iface, op.mode));
    assert BeliefOk(q, found);
    ClearedOk(q, found);
    SavedOk(Cleared(q), save, found);
    hide ProcOk, SavedAs, Cleared;
  }

  lemma AdoptedOk(p: Proc, q: Stage, save: Save, found: Option<StateFile>)
    requires ProcOk(p, found) && q.Queried?
    ensures ProcOk(Adopted(p, q, save), found)
  {
    var r := p.(belief := TakenOver(p.belief, q));
    assert ProcOk(r, found);
    SavedOk(r, save, found);
    hide ProcOk, SavedAs;
  }

  lemma BootedOk(p: Proc, r: Probe, audio: AudioMode, found: Option<StateFile>)
    requires ProcOk(p, found)
    ensures ProcOk(Booted(p, r, audio), found)
  {
    var loaded := Load(p.file);
    var b := if loaded.Some? then loaded.value else Belief(Privacy, audio, false);
    var q := p.(belief := b, intent := loaded.Some?, armed := false);
    ClearedOk(q, found);
    ProbedOk(Cleared(q), r, found);
    hide ProcOk, Probed, Cleared;
  }

  ghost predicate Inv(s: System, found: Option<StateFile>) {
    Core(s) && ProcOk(s.proc, found)
  }

  /** A thread in the middle of an operation has seen a closed breaker, and nobody else strikes. */
  lemma InFlightClosed(s: System, t: nat)
    requires Core(s) && Busy(s.threads, t) && InFlight(StageAt(s, t))
    ensures s.proc.count < BREAKER && s.hidMu == Some(t)
  {
    Acting(s.threads, s.hidMu, t);
  }

  lemma ProcStep(s: System, e: Event, found: Option<StateFile>)
    requires Inv(s, found) && Enabled(s, e)
    ensures ProcOk(Apply(s, e).proc, found)
  {
    var p := s.proc;
    if e.Strike? || e.StrikeCommit? {
      InFlightClosed(s, e.t);
    }
    if e.Believe? {
      Acting(s.threads, s.hidMu, e.t);
    }
    ProcIs(s, e);
    hide Core, Proper, ThreadOk, Apply, MotorReports, ProcOk, Cleared, Struck, Probed, StruckAndProbed, SavedAs,
         Believed, Adopted, Booted, Guard, Refused, Stable;
    match e
    case Believe(t, save) => BelievedOk(p, OpAt(s, t), save, found);
    case Strike(_, r) => StruckAndProbedOk(p, r, found);
    case StrikeCommit(_) => StruckOk(p, found);
    case MotorDone(_) => MotorDoneOk(p, found);
    case TakeOver(t, save) => AdoptedOk(p, StageAt(s, t), save, found);
    case HolderProbe(_, r) => ProbedOk(p, r, found);
    case CmdProbe(r) => ProbedOk(p, r, found);
    case OtherSave(save) => SavedOk(p, save, found);
    case Restart(r, audio) => BootedOk(p, r, audio, found);
    case Arm => ArmedOk(p, found);
    case Expire => ArmedOk(p, found);
    case _ =>
  }

  lemma MotorDoneOk(p: Proc, found: Option<StateFile>)
    requires ProcOk(p, found)
    ensures ProcOk(Cleared(p), found)
  {
    ClearedOk(p, found);
  }

  lemma ArmedOk(p: Proc, found: Option<StateFile>)
    requires ProcOk(p, found)
    ensures ProcOk(p.(armed := true), found) && ProcOk(p.(armed := false), found)
  {
  }

  lemma InvStep(s: System, e: Event, found: Option<StateFile>)
    requires Inv(s, found) && Enabled(s, e)
    ensures Inv(Apply(s, e), found)
  {
    CoreStep(s, e);
    ProcStep(s, e, found);
    hide Core, ProcOk, Apply, Enabled;
  }

  // ---------------------------------------------------------------------
  // Runs
  // ---------------------------------------------------------------------

  ghost predicate Runs(s: System, es: seq<Event>)
    decreases |es|
  {
    es == [] || (Proper(s.threads, s.hidMu) && Enabled(s, es[0]) && Runs(Apply(s, es[0]), es[1..]))
  }

  ghost function After(s: System, es: seq<Event>): System
    requires Runs(s, es)
    decreases |es|
  {
    if es == [] then s else After(Apply(s, es[0]), es[1..])
  }

  /**
    A daemon that has just started, with any camera, configs of earlier calls
    pending, and whatever state file it found.
  */
  ghost predicate Started(s: System, found: Option<StateFile>) {
    && s.threads == map[] && s.hidMu == None && !s.panicked
    && Stable(s.cam.device) && s.cam.applied == []
    && s.cam.device.pending.Keys == s.cam.pendingBy.Keys
    && (forall i <- s.cam.pendingBy :: s.cam.pendingBy[i] < s.cam.calls)
    && exists p: Proc, r: Probe, audio: AudioMode :: p.file == found && p.belief.camera != Offline
         && !p.intent && s.proc == Booted(p, r, audio)
  }

  lemma StartedInv(s: System, found: Option<StateFile>)
    requires Started(s, found)
    ensures Inv(s, found)
  {
    var p: Proc, r: Probe, audio: AudioMode :| p.file == found && p.belief.camera != Offline
      && !p.intent && s.proc == Booted(p, r, audio);
    var loaded := Load(p.file);
    var b := if loaded.Some? then loaded.value else Belief(Privacy, audio, false);
    var p1 := p.(belief := b, intent := loaded.Some?, armed := false);
    ClearedOk(p1, found);
    ProbedOk(Cleared(p1), r, found);
  }

  lemma {:induction false} InvRuns(s: System, es: seq<Event>, found: Option<StateFile>)
    requires Inv(s, found) && Runs(s, es)
    ensures Inv(After(s, es), found)
    decreases |es|
  {
    if es != [] {
      InvStep(s, es[0], found);
      hide Inv, Apply, Enabled;
      InvRuns(Apply(s, es[0]), es[1..], found);
    }
  }

  lemma {:induction false} RunsConcat(s: System, a: seq<Event>, b: seq<Event>)
    requires Runs(s, a) && Runs(After(s, a), b)
    ensures Runs(s, a + b) && After(s, a + b) == After(After(s, a), b)
    decreases |a|
  {
    if a == [] {
      assert a + b == b;
    } else {
      assert (a + b)[1..] == a[1..] + b;
      hide Apply, Enabled, Proper;
      RunsConcat(Apply(s, a[0]), a[1..], b);
    }
  }

  lemma RunsOne(s: System, e: Event)
    requires Core(s) && Enabled(s, e)
    ensures Runs(s, [e]) && After(s, [e]) == Apply(s, e)
  {
    hide Apply, Enabled, Proper;
    assert [e][1..] == [];
    assert Runs(Apply(s, e), []) && After(Apply(s, e), []) == Apply(s, e);
  }

  /** A run may be cut anywhere: its parts are runs, one after the other. */
  lemma {:induction false} RunsSplit(s: System, es: seq<Event>, k: nat)
    requires Runs(s, es) && k <= |es|
    ensures Runs(s, es[..k]) && Runs(After(s, es[..k]), es[k..])
    ensures After(After(s, es[..k]), es[k..]) == After(s, es)
    decreases k
  {
    if k == 0 {
      assert es[..0] == [] && es[0..] == es;
    } else {
      hide Apply, Enabled, Proper;
      var rest := es[1..];
      RunsSplit(Apply(s, es[0]), rest, k - 1);
      assert es[..k][1..] == rest[..k - 1] && es[k..] == rest[k - 1..] && es[..k][0] == es[0];
    }
  }

  /** The k-th event of a run is enabled where the events before it lead, and leads on. */
  lemma RunsAt(s: System, es: seq<Event>, k: nat)
    requires Core(s) && Runs(s, es) && k < |es|
    ensures Runs(s, es[..k]) && Runs(s, es[..k + 1])
    ensures var u := After(s, es[..k]);
            Core(u) && Enabled(u, es[k]) && After(s, es[..k + 1]) == Apply(u, es[k])
  {
    RunsSplit(s, es, k);
    CoreRuns(s, es[..k]);
    var u, rest := After(s, es[..k]), es[k..];
    assert rest[0] == es[k];
    RunsOne(u, es[k]);
    RunsConcat(s, es[..k], [es[k]]);
    assert es[..k] + [es[k]] == es[..k + 1];
    hide Apply, Enabled;
  }

  lemma {:induction false} CoreRuns(s: System, es: seq<Event>)
    requires Core(s) && Runs(s, es)
    ensures Core(After(s, es))
    decreases |es|
  {
    if es != [] {
      CoreStep(s, es[0]);
      hide Core, Apply, Enabled;
      CoreRuns(Apply(s, es[0]), es[1..]);
    }
  }

  // ---------------------------------------------------------------------
  // What a step of the holder leaves of the threads
  // ---------------------------------------------------------------------

  lemma OtherThreads(s: System, e: Event, r: nat)
    requires Core(s) && Enabled(s, e) && HolderEvent(e) && r != e.t && r in Apply(s, e).threads
    ensures if r in s.threads then Apply(s, e).threads[r] == s.threads[r] else Apply(s, e).threads[r].Delayed?
  {
    hide Proper, PlanOk, CamOk, HolderOk, Rest, MotorReports, ReconcilePlan, ConfigArrives, CommitArrives, MotorArrives,
         ConfigOk, CommitOk, MotorOk, Believed, Adopted, Probed, StruckAndProbed, Stable;
    Acting(s.threads, s.hidMu, e.t);
  }

  /** Where the operations come from that the acting thread has before it after its step. */
  lemma OpsCome(s: System, e: Event)
    requires Core(s) && Enabled(s, e) && HolderEvent(e) && e.t in s.threads && s.threads[e.t].Holding?
    requires e.t in Apply(s, e).threads
    ensures Apply(s, e).threads[e.t].Holding?
    ensures forall op <- Apply(s, e).threads[e.t].ops ::
              || op in s.threads[e.t].ops
              || (e.HolderProbe? && op == Reconcile)
              || (e.BeginReconcile? && op == Intended)
              || (e.CheckIntent? && op == if s.proc.intent then Restore else Sync(false))
              || (e.BeginRestore? && op in ReconcilePlan(s.cam.device.tracking, s.proc.belief.camera, e.speeds))
  {
    Acting(s.threads, s.hidMu, e.t);
    var th := s.threads[e.t];
    if th.ops != [] {
      RestIn(RuleOf(th.ops[0]), th.ops[1..]);
      assert forall op <- th.ops[1..] :: op in th.ops;
    }
    hide Core, ThreadOk, Proper, Rest, MotorReports, ConfigArrives, CommitArrives, MotorArrives, ConfigOk, CommitOk,
         MotorOk, Believed, Adopted, Probed, StruckAndProbed, Cleared, Struck, ReconcilePlan, Guard, Refused, Answered;
  }

  lemma {:induction false} RestIn(rule: OnFail, ops: seq<Op>)
    ensures forall op <- Rest(rule, ops) :: op in ops
    decreases |ops|
  {
    if rule == SkipMotors && ops != [] {
      RestIn(rule, ops[1..]);
    }
  }

  lemma SameAgain(s: System, e: Event)
    requires Core(s) && Enabled(s, e) && HolderEvent(e) && s.hidMu == Some(e.t) && e.t in s.threads
    ensures var u := Apply(s, e);
            if e.t in u.threads then
              && u.threads[e.t].Holding? && u.threads[e.t].again == s.threads[e.t].again
              && (s.threads[e.t].ops == [] && s.threads[e.t].again.Some? ==> u.threads[e.t].ops == [])
            else s.threads[e.t].again.None?
  {
    Acting(s.threads, s.hidMu, e.t);
    if s.threads[e.t].again.Some? && s.threads[e.t].ops != [] {
      AgainNext(s.threads[e.t].again.value, s.threads[e.t].ops);
    }
    hide Proper, ThreadOk, PlanOk, CamOk, HolderOk, Rest, MotorReports, ReconcilePlan, ConfigArrives, CommitArrives,
         MotorArrives, ConfigOk, CommitOk, MotorOk, Believed, Adopted, Probed, StruckAndProbed, Stable;
  }
}
