/**
  The daemon's threads and the camera as one state machine: two-report mode
  writes under hidMu, the circuit breaker, re-probes, privacy-trap re-asserts,
  reconcile on re-appear, persisted state, crashes and power cycles.

  A step is one transfer to the camera or one critical section of mu.
*/
module DaemonSystem {
  import opened Base
  import opened PixyWire
  import opened PixyDevice
  import opened Presets

  const BREAKER: nat := 3

  // ---------------------------------------------------------------------
  // State
  // ---------------------------------------------------------------------

  /** What the daemon takes the camera to be, and saves. */
  datatype Belief = Belief(camera: CameraState, audio: AudioMode, gesture: bool)

  /** A state file: unrecognised strings are None, `rest` says whether the other fields are valid. */
  datatype StateFile = StateFile(camera: Option<CameraState>, audio: Option<AudioMode>, gesture: bool, rest: bool)

  /** What becomes of the plan when an operation fails. */
  datatype OnFail = GoOn | SkipMotors | GiveUp

  /**
    `served`: the sync runs for an HTTP request, whose thread survives a panic.
    `Reconcile` looks for the video node, `Intended` for intent, `Restore` asks for
    the mode and re-asserts the persisted one, `Adopt` ends a reconcile.
  */
  datatype Op =
    | Set(iface: Byte, mode: Byte, onFail: OnFail)
    | Motor(report: seq<Byte>, onFail: OnFail)
    | Sync(served: bool)
    | Reconcile
    | Intended
    | Restore
    | Adopt

  /**
    Where a thread is inside its first operation. `Guarded`: a sync has passed the
    guard; `Querying`: it has had that many of its three answers.
  */
  datatype Stage =
    | Ready
    | Configured(call: nat)
    | Committed(call: nat, epoch: nat)
    | WriteFailed
    | CommitFailed
    | TrapCheck
    | MotorSent
    | Guarded
    | Querying(done: nat, camera: Option<CameraState>, audio: Option<AudioMode>)
    | Queried(camera: Option<CameraState>, audio: Option<AudioMode>, gesture: Option<bool>)

  /** `again` is the mode of a privacy-trap re-assert, None for every other thread. */
  datatype Thread =
    | Delayed(mode: CameraState)
    | Waiting(again: Option<CameraState>, plan: seq<Op>)
    | Holding(again: Option<CameraState>, ops: seq<Op>, stage: Stage)

  type ThreadMap = map<nat, Thread>

  /** One mode the device applied: which call had configured it, which call committed it and asked for what. */
  datatype Entry = Entry(iface: Byte, mode: Byte, configuredBy: nat, committedBy: nat, asked: Byte)

  /** The camera, with who configured what is pending, what was applied, and how often it was powered up. */
  datatype Cam = Cam(device: Device, pendingBy: map<Byte, nat>, applied: seq<Entry>, epoch: nat, calls: nat)

  /** The daemon's fields. */
  datatype Proc = Proc(
    belief: Belief,
    hid: bool,
    video: bool,
    count: nat,
    armed: bool,
    intent: bool,
    file: Option<StateFile>,
    tmp: Option<StateFile>
  )

  datatype System = System(cam: Cam, proc: Proc, threads: ThreadMap, hidMu: Option<nat>, panicked: bool)

  datatype Probe = Probe(hid: bool, video: bool)

  /** How a save ends: renamed, only the temporary file written, or nothing. */
  datatype Save = Saved | TmpOnly(content: StateFile) | NotSaved

  datatype Event =
    // threads and the lock
    | Spawn(t: nat, plan: seq<Op>)
    | Lock(t: nat)
    | Unlock(t: nat)
    | Refuse(t: nat)
    // config, commit, belief
    | SendConfig(t: nat, link: Link)
    | Cancel(t: nat)
    | SendCommit(t: nat, link: Link)
    | Believe(t: nat, save: Save)
    | Strike(t: nat, probe: Probe)
    | StrikeCommit(t: nat)
    // motor reports
    | SendMotor(t: nat, link: Link)
    | MotorDone(t: nat)
    // reading back
    | BeginSync(t: nat)
    | SeeVideo(t: nat)
    | Query(t: nat, answered: bool)
    | TakeOver(t: nat, save: Save)
    | BeginReconcile(t: nat)
    | CheckIntent(t: nat)
    | BeginRestore(t: nat, answered: bool, speeds: seq<seq<Byte>>)
    | HolderProbe(t: nat, probe: Probe)
    // the privacy trap
    | TrapLook(t: nat, r: nat)
    | TimerFires(t: nat)
    | Arm
    | Expire
    // commands that take only mu, and the environment
    | CmdProbe(probe: Probe)
    | OtherSave(save: Save)
    | PowerCycle(boot: Device)
    | Restart(probe: Probe, defaultAudio: AudioMode)

  // ---------------------------------------------------------------------
  // The camera's part of a step
  // ---------------------------------------------------------------------

  function ConfigArrives(c: Cam, op: Op, link: Link): Cam
    requires op.Set?
  {
    var o := Receive(c.device, Sent(Config(op.iface, op.mode)));
    if link == Lost || o.error.Some? then c.(calls := c.calls + 1)
    else Cam(o.device, c.pendingBy[op.iface := c.calls], c.applied, c.epoch, c.calls + 1)
  }

  predicate ConfigOk(c: Cam, op: Op, link: Link)
    requires op.Set?
  {
    link == Delivered && Receive(c.device, Sent(Config(op.iface, op.mode))).error.None?
  }

  function CommitArrives(c: Cam, op: Op, call: nat, link: Link): Cam
    requires op.Set?
  {
    var o := Receive(c.device, Sent(Commit(op.iface)));
    if link == Lost || o.error.Some? then c
    else if op.iface in c.pendingBy && op.iface in c.device.pending then
      var entry := Entry(op.iface, c.device.pending[op.iface], c.pendingBy[op.iface], call, op.mode);
      Cam(o.device, c.pendingBy - {op.iface}, c.applied + [entry], c.epoch, c.calls)
    else c.(device := o.device)
  }

  predicate CommitOk(c: Cam, op: Op, link: Link)
    requires op.Set?
  {
    link == Delivered && Receive(c.device, Sent(Commit(op.iface))).error.None?
  }

  function MotorArrives(c: Cam, op: Op, link: Link): Cam
    requires op.Motor?
  {
    if link == Lost then c else c.(device := Receive(c.device, Sent(op.report)).device)
  }

  predicate MotorOk(c: Cam, op: Op, link: Link)
    requires op.Motor?
  {
    link == Delivered && Receive(c.device, Sent(op.report)).error.None?
  }

  // ---------------------------------------------------------------------
  // The daemon's part of a step
  // ---------------------------------------------------------------------

  /** A probe result; finding both nodes clears the strikes. */
  function Probed(p: Proc, r: Probe): Proc {
    var q := p.(hid := r.hid, video := r.video);
    if r.hid && r.video then Cleared(q) else q
  }

  function Cleared(p: Proc): Proc {
    p.(count := 0)
  }

  function Struck(p: Proc): Proc {
    p.(count := p.count + 1)
  }

  /** The re-probe follows a strike only while the breaker is closed. */
  function StruckAndProbed(p: Proc, r: Probe): Proc {
    var q := Struck(p);
    if q.count < BREAKER then Probed(q, r) else q
  }

  /** The snapshot every transfer path takes first: a device handle and a closed breaker. */
  predicate Guard(p: Proc) {
    p.hid && p.count < BREAKER
  }

  function FileOf(b: Belief): StateFile {
    StateFile(Some(b.camera), Some(b.audio), b.gesture, true)
  }

  function SavedAs(p: Proc, save: Save): Proc {
    match save
    case Saved => p.(file := Some(FileOf(p.belief)), tmp := None, intent := true)
    case TmpOnly(c) => p.(tmp := Some(c))
    case NotSaved => p
  }

  /** The state a daemon starts from: a camera mode that is no intent reads back as privacy. */
  function Load(file: Option<StateFile>): Option<Belief> {
    match file
    case None => None
    case Some(f) =>
      if f.audio.None? || !f.rest then None
      else
        var camera := if f.camera.Some? && f.camera.value != Offline then f.camera.value else Privacy;
        Some(Belief(camera, f.audio.value, f.gesture))
  }

  function WithMode(b: Belief, iface: Byte, mode: Byte): Belief {
    if iface == IF_TRACKING then b.(camera := CameraOfByte(mode))
    else if iface == IF_AUDIO then b.(audio := AudioOfByte(mode))
    else b.(gesture := mode == GESTURE_ON)
  }

  function TakenOver(b: Belief, q: Stage): Belief
    requires q.Queried?
  {
    Belief(if q.camera.Some? && q.camera.value != Offline then q.camera.value else b.camera,
           if q.audio.Some? then q.audio.value else b.audio,
           if q.gesture.Some? then q.gesture.value else b.gesture)
  }

  function Believed(p: Proc, op: Op, save: Save): Proc
    requires op.Set?
  {
    SavedAs(Cleared(p.(belief := WithMode(p.belief, op.iface, op.mode))), save)
  }

  function Adopted(p: Proc, q: Stage, save: Save): Proc
    requires q.Queried?
  {
    var b := TakenOver(p.belief, q);
    if b == p.belief then p else SavedAs(p.(belief := b), save)
  }

  function Booted(p: Proc, r: Probe, defaultAudio: AudioMode): Proc {
    var loaded := Load(p.file);
    var b := if loaded.Some? then loaded.value else Belief(Privacy, defaultAudio, false);
    Probed(Cleared(p.(belief := b, intent := loaded.Some?, armed := false)), r)
  }

  // ---------------------------------------------------------------------
  // The threads' part of a step
  // ---------------------------------------------------------------------

  /** After a failed operation: the remaining plan. */
  function Rest(rule: OnFail, ops: seq<Op>): seq<Op>
    decreases |ops|
  {
    match rule
    case GoOn => ops
    case GiveUp => []
    case SkipMotors =>
      if ops != [] && ops[0].Motor? && ops[0].onFail == SkipMotors then Rest(SkipMotors, ops[1..]) else ops
  }

  function RuleOf(op: Op): OnFail {
    match op
    case Set(_, _, r) => r
    case Motor(_, r) => r
    case _ => GoOn
  }

  /** Inside an operation. */
  predicate Busy(threads: ThreadMap, t: nat) {
    t in threads && threads[t].Holding? && threads[t].ops != []
  }

  function At(threads: ThreadMap, t: nat, stage: Stage): ThreadMap
    requires Busy(threads, t)
  {
    threads[t := threads[t].(stage := stage)]
  }

  /** The first operation is over. */
  function Done(threads: ThreadMap, t: nat, failed: bool): ThreadMap
    requires Busy(threads, t)
  {
    var th := threads[t];
    var left := if failed then Rest(RuleOf(th.ops[0]), th.ops[1..]) else th.ops[1..];
    threads[t := Holding(th.again, left, Ready)]
  }

  /** The first operation is replaced. */
  function Instead(threads: ThreadMap, t: nat, ops: seq<Op>): ThreadMap
    requires Busy(threads, t)
  {
    threads[t := Holding(threads[t].again, ops + threads[t].ops[1..], Ready)]
  }

  function MotorOps(reports: seq<seq<Byte>>): seq<Op> {
    seq(|reports|, i requires 0 <= i < |reports| => Motor(reports[i], SkipMotors))
  }

  /** The persisted mode where the hardware differs, the speeds, then audio and gesture from the hardware. */
  function ReconcilePlan(actual: CameraState, believed: CameraState, speeds: seq<seq<Byte>>): seq<Op> {
    (if actual == believed then [] else [Set(IF_TRACKING, CameraByte(believed), GoOn)]) + MotorOps(speeds) + [Adopt]
  }

  function ReassertPlan(mode: CameraState): seq<Op> {
    (if mode == Tracking then [Set(IF_TRACKING, CameraByte(Idle), GiveUp)] else [])
    + [Set(IF_TRACKING, CameraByte(mode), GoOn)]
  }

  /** A written tracking mode is followed by a look at the trap window, except in a re-assert. */
  function AfterBelieve(threads: ThreadMap, t: nat): ThreadMap
    requires Busy(threads, t) && threads[t].ops[0].Set?
  {
    var op := threads[t].ops[0];
    if op.iface == IF_TRACKING && threads[t].again.None? then At(threads, t, TrapCheck) else Done(threads, t, false)
  }

  function AfterLook(threads: ThreadMap, t: nat, r: nat, armed: bool): ThreadMap
    requires Busy(threads, t) && threads[t].ops[0].Set? && r != t
  {
    var mode := CameraOfByte(threads[t].ops[0].mode);
    var u := Done(threads, t, false);
    if mode != Privacy && armed then u[r := Delayed(mode)] else u
  }

  function AfterTimer(threads: ThreadMap, t: nat, camera: CameraState): ThreadMap
    requires t in threads && threads[t].Delayed?
  {
    var mode := threads[t].mode;
    if camera != mode then threads - {t} else threads[t := Waiting(Some(mode), ReassertPlan(mode))]
  }

  function AfterProbe(threads: ThreadMap, t: nat, appeared: bool): ThreadMap
    requires t in threads && threads[t].Holding?
  {
    if appeared then threads[t := Holding(threads[t].again, [Reconcile] + threads[t].ops, Ready)] else threads
  }

  // ---------------------------------------------------------------------
  // Proper threads
  // ---------------------------------------------------------------------

  predicate OpOk(op: Op) {
    match op
    case Set(i, m, _) => ValidInterface(i) && ValidMode(i, m)
    case Motor(r, _) => CommandOf(Sent(r)).Some?
    case _ => true
  }

  ghost predicate PlanOk(ops: seq<Op>) {
    forall op <- ops :: OpOk(op)
  }

  /** Which operation a stage belongs to. */
  predicate Fits(op: Op, stage: Stage) {
    match stage
    case Ready => true
    case WriteFailed => op.Set? || op.Motor?
    case MotorSent => op.Motor?
    case Guarded => op.Sync?
    case Querying(done, c, _) => done <= 2 && (op.Sync? || (op.Adopt? && done == 2 && c == None))
    case Queried(c, _, _) => op.Sync? || (op.Adopt? && c == None)
    case TrapCheck => op.Set? && op.iface == IF_TRACKING
    case _ => op.Set?
  }

  /** What is left of a re-assert: all of it, or, after the idle bounce, the mode itself. */
  predicate AgainOps(mode: CameraState, ops: seq<Op>) {
    (mode == Idle || mode == Tracking)
    && (ops == ReassertPlan(mode) || ops == [Set(IF_TRACKING, CameraByte(mode), GoOn)] || ops == [])
  }

  /** A thread by itself; `mine` says whether it is the one that holds hidMu. */
  ghost predicate ThreadOk(th: Thread, mine: bool) {
    match th
    case Delayed(m) => !mine && (m == Idle || m == Tracking)
    case Waiting(again, plan) =>
      !mine && PlanOk(plan) && (again.Some? ==> AgainOps(again.value, plan) && plan == ReassertPlan(again.value))
    case Holding(again, ops, stage) =>
      && mine && PlanOk(ops)
      && (if ops == [] then stage == Ready else Fits(ops[0], stage))
      && (again.Some? ==> AgainOps(again.value, ops) && stage != TrapCheck)
  }

  /** Only the holder of hidMu is inside an operation. */
  ghost predicate Proper(threads: ThreadMap, hidMu: Option<nat>) {
    && (hidMu.Some? ==> hidMu.value in threads)
    && forall t <- threads :: ThreadOk(threads[t], hidMu == Some(t))
  }

  lemma Acting(threads: ThreadMap, hidMu: Option<nat>, t: nat)
    requires Proper(threads, hidMu) && t in threads && threads[t].Holding?
    ensures hidMu == Some(t) && ThreadOk(threads[t], true)
    ensures Busy(threads, t) ==> OpOk(threads[t].ops[0]) && Fits(threads[t].ops[0], threads[t].stage)
  {
    assert ThreadOk(threads[t], hidMu == Some(t));
    assert Busy(threads, t) ==> threads[t].ops[0] in threads[t].ops;
  }

  // ---------------------------------------------------------------------
  // Steps
  // ---------------------------------------------------------------------

  predicate In(s: System, t: nat, stage: Stage) {
    Busy(s.threads, t) && s.threads[t].stage == stage
  }

  function OpAt(s: System, t: nat): Op
    requires Busy(s.threads, t)
  {
    s.threads[t].ops[0]
  }

  function StageAt(s: System, t: nat): Stage
    requires Busy(s.threads, t)
  {
    s.threads[t].stage
  }

  /** Whether the guard refuses the operation at hand. */
  predicate Refused(p: Proc, op: Op) {
    match op
    case Set(_, _, _) => !Guard(p)
    case Motor(_, _) => !Guard(p)
    case Sync(_) => !Guard(p)
    case _ => false
  }

  /** Steps of a reconcile and of reading back that no command starts with. */
  predicate Inner(op: Op) {
    op.Intended? || op.Restore? || op.Adopt?
  }

  /** Polls and plug events probe first; what follows of them are mode writes. */
  predicate MayProbe(ops: seq<Op>, stage: Stage) {
    stage == Ready && (ops == [] || ops[0].Set?)
  }

  /** A command's plan. */
  ghost predicate Startable(plan: seq<Op>) {
    PlanOk(plan) && forall op <- plan :: !Inner(op)
  }

  ghost predicate Enabled(s: System, e: Event) {
    (s.panicked ==> e.Restart? || e.PowerCycle?) &&
    match e
    case Spawn(t, plan) => t !in s.threads && Startable(plan)
    case Lock(t) => t in s.threads && s.threads[t].Waiting? && s.hidMu == None
    case Unlock(t) => t in s.threads && s.threads[t].Holding? && s.threads[t].ops == []
    case Refuse(t) => (In(s, t, Ready) && Refused(s.proc, OpAt(s, t))) || (In(s, t, Guarded) && !s.proc.video)
    case SendConfig(t, _) => In(s, t, Ready) && OpAt(s, t).Set? && Guard(s.proc)
    case Cancel(t) => Busy(s.threads, t) && StageAt(s, t).Configured? && s.threads[t].again.None?
    case SendCommit(t, _) => Busy(s.threads, t) && StageAt(s, t).Configured?
    case Believe(t, _) => Busy(s.threads, t) && StageAt(s, t).Committed?
    case Strike(t, _) => In(s, t, WriteFailed)
    case StrikeCommit(t) => In(s, t, CommitFailed)
    case SendMotor(t, _) => In(s, t, Ready) && OpAt(s, t).Motor? && Guard(s.proc)
    case MotorDone(t) => In(s, t, MotorSent)
    case BeginSync(t) => In(s, t, Ready) && OpAt(s, t).Sync? && Guard(s.proc)
    case SeeVideo(t) => In(s, t, Guarded) && s.proc.video
    case Query(t, _) => Busy(s.threads, t) && (StageAt(s, t).Querying? || (In(s, t, Ready) && OpAt(s, t).Adopt?))
    case TakeOver(t, _) => Busy(s.threads, t) && StageAt(s, t).Queried?
    case BeginReconcile(t) => In(s, t, Ready) && OpAt(s, t).Reconcile?
    case CheckIntent(t) => In(s, t, Ready) && OpAt(s, t).Intended?
    case BeginRestore(t, _, speeds) => In(s, t, Ready) && OpAt(s, t).Restore? && MotorReports(speeds)
    case HolderProbe(t, _) =>
      t in s.threads && s.threads[t].Holding? && s.threads[t].again.None?
      && MayProbe(s.threads[t].ops, s.threads[t].stage)
    case TrapLook(t, r) => In(s, t, TrapCheck) && r !in s.threads
    case TimerFires(t) => t in s.threads && s.threads[t].Delayed?
    case PowerCycle(boot) => Stable(boot) && boot.pending == map[]
    case _ => true
  }

  /** One answer more: the mode, then audio, then gesture; adopting asks for the last two only. */
  function Answered(d: Device, stage: Stage, answered: bool): Stage {
    var audio := if answered then Some(d.audio) else None;
    match stage
    case Querying(done, c, a) =>
      if done == 0 then Querying(1, if answered then Some(d.tracking) else None, None)
      else if done == 1 then Querying(2, c, audio)
      else Queried(c, a, if answered then Some(d.gesture) else None)
    case _ => Querying(2, None, audio)
  }

  /**
    The handle is read anew for every query: without one the thread panics. That
    ends the daemon, unless the panic is recovered: then the lock is released and
    the thread is gone.
  */
  function Queries(s: System, t: nat, answered: bool): System
    requires Busy(s.threads, t)
  {
    if s.proc.hid then s.(threads := At(s.threads, t, Answered(s.cam.device, StageAt(s, t), answered)))
    else if OpAt(s, t) == Sync(true) then s.(threads := s.threads - {t}, hidMu := None)
    else s.(panicked := true)
  }

  /** Without a video node there is nothing to reconcile. */
  function Reconciles(s: System, t: nat): System
    requires Busy(s.threads, t)
  {
    s.(threads := if s.proc.video then Instead(s.threads, t, [Intended]) else Done(s.threads, t, false))
  }

  /** A fresh install adopts everything from the hardware. */
  function Decides(s: System, t: nat): System
    requires Busy(s.threads, t)
  {
    s.(threads := Instead(s.threads, t, [if s.proc.intent then Restore else Sync(false)]))
  }

  /** The mode is asked for, with a handle read anew, and the persisted one re-asserted where it differs. */
  function Restores(s: System, t: nat, answered: bool, speeds: seq<seq<Byte>>): System
    requires Busy(s.threads, t)
  {
    if !s.proc.hid then s.(panicked := true)
    else if !answered then s.(threads := Done(s.threads, t, false))
    else s.(threads := Instead(s.threads, t, ReconcilePlan(s.cam.device.tracking, s.proc.belief.camera, speeds)))
  }

  ghost function Apply(s: System, e: Event): System
    requires Proper(s.threads, s.hidMu) && Enabled(s, e)
  {
    match e
    case Spawn(t, plan) => s.(threads := s.threads[t := Waiting(None, plan)])
    case Lock(t) =>
      s.(threads := s.threads[t := Holding(s.threads[t].again, s.threads[t].plan, Ready)], hidMu := Some(t))
    case Unlock(t) => s.(threads := s.threads - {t}, hidMu := None)
    case Refuse(t) => s.(threads := Done(s.threads, t, true))
    case SendConfig(t, link) =>
      var stage := if ConfigOk(s.cam, OpAt(s, t), link) then Configured(s.cam.calls) else WriteFailed;
      s.(cam := ConfigArrives(s.cam, OpAt(s, t), link), threads := At(s.threads, t, stage))
    case Cancel(t) => s.(threads := Done(s.threads, t, true))
    case SendCommit(t, link) =>
      Acting(s.threads, s.hidMu, t);
      var call := StageAt(s, t).call;
      var stage := if CommitOk(s.cam, OpAt(s, t), link) then Committed(call, s.cam.epoch) else CommitFailed;
      s.(cam := CommitArrives(s.cam, OpAt(s, t), call, link), threads := At(s.threads, t, stage))
    case Believe(t, save) =>
      Acting(s.threads, s.hidMu, t);
      s.(proc := Believed(s.proc, OpAt(s, t), save), threads := AfterBelieve(s.threads, t))
    case Strike(t, r) => s.(proc := StruckAndProbed(s.proc, r), threads := Done(s.threads, t, true))
    case StrikeCommit(t) => s.(proc := Struck(s.proc), threads := Done(s.threads, t, true))
    case SendMotor(t, link) =>
      var stage := if MotorOk(s.cam, OpAt(s, t), link) then MotorSent else WriteFailed;
      s.(cam := MotorArrives(s.cam, OpAt(s, t), link), threads := At(s.threads, t, stage))
    case MotorDone(t) => s.(proc := Cleared(s.proc), threads := Done(s.threads, t, false))
    case BeginSync(t) => s.(threads := At(s.threads, t, Guarded))
    case SeeVideo(t) => s.(threads := At(s.threads, t, Querying(0, None, None)))
    case Query(t, answered) => Queries(s, t, answered)
    case TakeOver(t, save) => s.(proc := Adopted(s.proc, StageAt(s, t), save), threads := Done(s.threads, t, false))
    case BeginReconcile(t) => Reconciles(s, t)
    case CheckIntent(t) => Decides(s, t)
    case BeginRestore(t, answered, speeds) => Restores(s, t, answered, speeds)
    case HolderProbe(t, r) =>
      s.(proc := Probed(s.proc, r), threads := AfterProbe(s.threads, t, !s.proc.video && r.video))
    case TrapLook(t, r) =>
      Acting(s.threads, s.hidMu, t);
      s.(threads := AfterLook(s.threads, t, r, s.proc.armed))
    case TimerFires(t) => s.(threads := AfterTimer(s.threads, t, s.proc.belief.camera))
    case Arm => s.(proc := s.proc.(armed := true))
    case Expire => s.(proc := s.proc.(armed := false))
    case CmdProbe(r) => s.(proc := Probed(s.proc, r))
    case OtherSave(save) => s.(proc := SavedAs(s.proc, save))
    case PowerCycle(boot) => s.(cam := Cam(boot, map[], s.cam.applied, s.cam.epoch + 1, s.cam.calls))
    case Restart(r, audio) => System(s.cam, Booted(s.proc, r, audio), map[], None, false)
  }

  // ---------------------------------------------------------------------
  // Threads stay proper
  // ---------------------------------------------------------------------

  lemma PutThread(threads: ThreadMap, hidMu: Option<nat>, t: nat, th: Thread)
    requires Proper(threads, hidMu) && ThreadOk(th, hidMu == Some(t))
    ensures Proper(threads[t := th], hidMu)
  {
    hide ThreadOk;
  }

  lemma DropThread(threads: ThreadMap, hidMu: Option<nat>, t: nat)
    requires Proper(threads, hidMu)
    ensures Proper(threads - {t}, if hidMu == Some(t) then None else hidMu)
  {
    hide ThreadOk;
  }

  lemma TakeLock(threads: ThreadMap, t: nat)
    requires Proper(threads, None) && t in threads && threads[t].Waiting?
    ensures Proper(threads[t := Holding(threads[t].again, threads[t].plan, Ready)], Some(t))
  {
    forall u | u in threads && u != t ensures ThreadOk(threads[u], Some(t) == Some(u)) {
      assert ThreadOk(threads[u], false);
    }
    assert ThreadOk(threads[t], false);
  }

  lemma {:induction false} RestOk(rule: OnFail, ops: seq<Op>)
    requires PlanOk(ops)
    ensures PlanOk(Rest(rule, ops))
    decreases |ops|
  {
    if rule == SkipMotors && ops != [] {
      RestOk(rule, ops[1..]);
    }
  }

  lemma AgainNext(mode: CameraState, ops: seq<Op>)
    requires AgainOps(mode, ops) && ops != []
    ensures AgainOps(mode, ops[1..]) && AgainOps(mode, Rest(RuleOf(ops[0]), ops[1..]))
    ensures ops[0].Set? && ops[0].iface == IF_TRACKING
  {
  }

  lemma AtProper(threads: ThreadMap, hidMu: Option<nat>, t: nat, stage: Stage)
    requires Proper(threads, hidMu) && Busy(threads, t) && Fits(threads[t].ops[0], stage)
    requires threads[t].again.Some? ==> stage != TrapCheck
    ensures Proper(At(threads, t, stage), hidMu)
  {
    Acting(threads, hidMu, t);
    PutThread(threads, hidMu, t, threads[t].(stage := stage));
  }

  /** Whatever the first operation ends with, the threads stay proper. */
  lemma DoneProper(threads: ThreadMap, hidMu: Option<nat>, t: nat, failed: bool)
    requires Proper(threads, hidMu) && Busy(threads, t)
    ensures Proper(Done(threads, t, failed), hidMu)
  {
    Acting(threads, hidMu, t);
    var th := threads[t];
    RestOk(RuleOf(th.ops[0]), th.ops[1..]);
    if th.again.Some? {
      AgainNext(th.again.value, th.ops);
    }
    var left := if failed then Rest(RuleOf(th.ops[0]), th.ops[1..]) else th.ops[1..];
    assert ThreadOk(Holding(th.again, left, Ready), true);
    hide ThreadOk, Rest;
    PutThread(threads, hidMu, t, Holding(th.again, left, Ready));
  }

  lemma InsteadProper(threads: ThreadMap, hidMu: Option<nat>, t: nat, ops: seq<Op>)
    requires Proper(threads, hidMu) && Busy(threads, t) && PlanOk(ops)
    requires threads[t].ops[0].Reconcile? || Inner(threads[t].ops[0])
    ensures Proper(Instead(threads, t, ops), hidMu)
  {
    Acting(threads, hidMu, t);
    var th := threads[t];
    if th.again.Some? {
      AgainNext(th.again.value, th.ops);
    }
    assert ThreadOk(Holding(th.again, ops + th.ops[1..], Ready), true);
    hide ThreadOk;
    PutThread(threads, hidMu, t, Holding(th.again, ops + th.ops[1..], Ready));
  }

  lemma ReconcilePlanOk(actual: CameraState, believed: CameraState, speeds: seq<seq<Byte>>)
    requires MotorReports(speeds)
    ensures PlanOk(ReconcilePlan(actual, believed, speeds))
  {
    forall op <- MotorOps(speeds) ensures OpOk(op) {
      var i :| 0 <= i < |speeds| && op == Motor(speeds[i], SkipMotors);
      assert speeds[i] in speeds;
    }
  }

  /** The three steps of a reconcile that replace it by what is left to do. */
  lemma ReconcileProper(s: System, t: nat)
    requires Proper(s.threads, s.hidMu) && Busy(s.threads, t) && (OpAt(s, t).Reconcile? || Inner(OpAt(s, t)))
    ensures Reconciles(s, t).hidMu == s.hidMu && Proper(Reconciles(s, t).threads, s.hidMu)
    ensures Decides(s, t).hidMu == s.hidMu && Proper(Decides(s, t).threads, s.hidMu)
  {
    DoneProper(s.threads, s.hidMu, t, false);
    InsteadProper(s.threads, s.hidMu, t, [Intended]);
    InsteadProper(s.threads, s.hidMu, t, [Restore]);
    InsteadProper(s.threads, s.hidMu, t, [Sync(false)]);
    hide Proper;
  }

  lemma RestoreProper(s: System, t: nat, answered: bool, speeds: seq<seq<Byte>>)
    requires Proper(s.threads, s.hidMu) && Busy(s.threads, t) && OpAt(s, t).Restore? && MotorReports(speeds)
    ensures Restores(s, t, answered, speeds).hidMu == s.hidMu
    ensures Proper(Restores(s, t, answered, speeds).threads, s.hidMu)
  {
    DoneProper(s.threads, s.hidMu, t, false);
    ReconcilePlanOk(s.cam.device.tracking, s.proc.belief.camera, speeds);
    hide Proper, ReconcilePlan, PlanOk;
    InsteadProper(s.threads, s.hidMu, t, ReconcilePlan(s.cam.device.tracking, s.proc.belief.camera, speeds));
  }

  lemma LookProper(threads: ThreadMap, hidMu: Option<nat>, t: nat, r: nat, armed: bool)
    requires Proper(threads, hidMu) && Busy(threads, t) && threads[t].stage == TrapCheck && r !in threads
    ensures threads[t].ops[0].Set?
    ensures Proper(AfterLook(threads, t, r, armed), hidMu)
  {
    Acting(threads, hidMu, t);
    DoneProper(threads, hidMu, t, false);
    var mode := CameraOfByte(threads[t].ops[0].mode);
    hide Proper;
    if mode != Privacy && armed {
      PutThread(Done(threads, t, false), hidMu, r, Delayed(mode));
    }
  }

  lemma ProbeProper(threads: ThreadMap, hidMu: Option<nat>, t: nat, appeared: bool)
    requires Proper(threads, hidMu) && t in threads && threads[t].Holding? && threads[t].stage == Ready
             && threads[t].again.None?
    ensures Proper(AfterProbe(threads, t, appeared), hidMu)
  {
    Acting(threads, hidMu, t);
    var th := Holding(threads[t].again, [Reconcile] + threads[t].ops, Ready);
    assert ThreadOk(th, true);
    hide ThreadOk;
    PutThread(threads, hidMu, t, th);
  }

  lemma BelieveProper(threads: ThreadMap, hidMu: Option<nat>, t: nat)
    requires Proper(threads, hidMu) && Busy(threads, t) && threads[t].ops[0].Set?
    ensures Proper(AfterBelieve(threads, t), hidMu)
  {
    DoneProper(threads, hidMu, t, false);
    if threads[t].ops[0].iface == IF_TRACKING && threads[t].again.None? {
      AtProper(threads, hidMu, t, TrapCheck);
    }
    hide Proper;
  }

  lemma TimerProper(threads: ThreadMap, hidMu: Option<nat>, t: nat, camera: CameraState)
    requires Proper(threads, hidMu) && t in threads && threads[t].Delayed?
    ensures Proper(AfterTimer(threads, t, camera), hidMu)
  {
    assert ThreadOk(threads[t], hidMu == Some(t));
    var mode := threads[t].mode;
    DropThread(threads, hidMu, t);
    var th := Waiting(Some(mode), ReassertPlan(mode));
    assert ThreadOk(th, false);
    hide ThreadOk;
    PutThread(threads, hidMu, t, th);
  }

  /** A step of the thread that holds hidMu, inside an operation or between two. */
  predicate HolderEvent(e: Event) {
    !(e.Spawn? || e.Lock? || e.Unlock? || e.TimerFires? || e.Arm? || e.Expire? || e.CmdProbe? || e.OtherSave?
      || e.PowerCycle? || e.Restart?)
  }

  lemma ProperHolder(s: System, e: Event)
    requires Proper(s.threads, s.hidMu) && Enabled(s, e) && HolderEvent(e)
    ensures Proper(Apply(s, e).threads, Apply(s, e).hidMu)
  {
    Acting(s.threads, s.hidMu, e.t);
    hide Proper, ThreadOk, Done, Rest, PlanOk, MotorReports, At, Instead, AfterBelieve, AfterLook, AfterProbe,
         ConfigArrives, ConfigOk, CommitArrives, CommitOk, MotorArrives, MotorOk, Probed, Believed, Adopted,
         StruckAndProbed, Cleared, Reconciles, Decides, Restores, Queries, Refused, Guard;
    match e
    case Refuse(t) => DoneProper(s.threads, s.hidMu, t, true);
    case SendConfig(t, link) =>
      AtProper(s.threads, s.hidMu, t,
               if ConfigOk(s.cam, OpAt(s, t), link) then Configured(s.cam.calls) else WriteFailed);
    case Cancel(t) => DoneProper(s.threads, s.hidMu, t, true);
    case SendCommit(t, link) =>
      AtProper(s.threads, s.hidMu, t,
               if CommitOk(s.cam, OpAt(s, t), link) then Committed(StageAt(s, t).call, s.cam.epoch) else CommitFailed);
    case Believe(t, save) => BelieveProper(s.threads, s.hidMu, t);
    case Strike(t, _) => DoneProper(s.threads, s.hidMu, t, true);
    case StrikeCommit(t) => DoneProper(s.threads, s.hidMu, t, true);
    case SendMotor(t, link) =>
      AtProper(s.threads, s.hidMu, t, if MotorOk(s.cam, OpAt(s, t), link) then MotorSent else WriteFailed);
    case MotorDone(t) => DoneProper(s.threads, s.hidMu, t, false);
    case BeginSync(t) => AtProper(s.threads, s.hidMu, t, Guarded);
    case SeeVideo(t) => AtProper(s.threads, s.hidMu, t, Querying(0, None, None));
    case Query(t, answered) => QueryProper(s, t, answered);
    case TakeOver(t, _) => DoneProper(s.threads, s.hidMu, t, false);
    case BeginReconcile(t) => ReconcileProper(s, t);
    case CheckIntent(t) => ReconcileProper(s, t);
    case BeginRestore(t, answered, speeds) => RestoreProper(s, t, answered, speeds);
    case HolderProbe(t, r) => ProbeProper(s.threads, s.hidMu, t, !s.proc.video && r.video);
    case TrapLook(t, r) => LookProper(s.threads, s.hidMu, t, r, s.proc.armed);
  }

  lemma ProperOther(s: System, e: Event)
    requires Proper(s.threads, s.hidMu) && Enabled(s, e) && !HolderEvent(e)
    ensures Proper(Apply(s, e).threads, Apply(s, e).hidMu)
  {
    hide Proper, ThreadOk, PlanOk, Stable, AfterTimer, Booted, Probed;
    match e
    case Spawn(t, plan) => SpawnProper(s.threads, s.hidMu, t, plan);
    case Lock(t) => TakeLock(s.threads, t);
    case Unlock(t) =>
      Acting(s.threads, s.hidMu, t);
      DropThread(s.threads, s.hidMu, t);
    case TimerFires(t) => TimerProper(s.threads, s.hidMu, t, s.proc.belief.camera);
    case Restart(_, _) => NoThreads();
    case _ =>
  }

  lemma ProperStep(s: System, e: Event)
    requires Proper(s.threads, s.hidMu) && Enabled(s, e)
    ensures Proper(Apply(s, e).threads, Apply(s, e).hidMu)
  {
    if HolderEvent(e) {
      ProperHolder(s, e);
    } else {
      ProperOther(s, e);
    }
    hide *;
  }

  lemma NoThreads()
    ensures Proper(map[], None)
  {
  }

  lemma SpawnProper(threads: ThreadMap, hidMu: Option<nat>, t: nat, plan: seq<Op>)
    requires Proper(threads, hidMu) && t !in threads && PlanOk(plan)
    ensures Proper(threads[t := Waiting(None, plan)], hidMu)
  {
    PutThread(threads, hidMu, t, Waiting(None, plan));
  }

  lemma QueryProper(s: System, t: nat, answered: bool)
    requires Proper(s.threads, s.hidMu) && Enabled(s, Query(t, answered))
    ensures Proper(Queries(s, t, answered).threads, Queries(s, t, answered).hidMu)
  {
    Acting(s.threads, s.hidMu, t);
    DropThread(s.threads, s.hidMu, t);
    AtProper(s.threads, s.hidMu, t, Answered(s.cam.device, StageAt(s, t), answered));
    hide Proper;
  }
}
