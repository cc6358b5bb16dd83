/**
  The daemon's device calls as they are written, statement by statement over its
  fields, each tied to the steps of the state machine.
*/
module DaemonCalls {
  import opened Base
  import opened PixyWire
  import opened PixyDevice
  import opened Presets
  import opened DaemonSystem
  import opened DaemonSafety
  import opened DaemonTheorems

  /** What the environment does during one call. */
  datatype Weather = Weather(config: Link, cancelled: bool, commit: Link, probe: Probe, save: Save)

  /** Fields and camera after a call. */
  datatype CallResult = CallResult(p: Proc, d: Device, ok: bool)

  function Written(d: Device, report: seq<Byte>, link: Link): Device {
    if link == Lost then d else Receive(d, Sent(report)).device
  }

  predicate WriteOk(d: Device, report: seq<Byte>, link: Link) {
    link == Delivered && Receive(d, Sent(report)).error.None?
  }

  /** Nothing lost, nothing cancelled. */
  predicate Calm(w: Weather) {
    w.config == Delivered && !w.cancelled && w.commit == Delivered
  }

  /** setDeviceState: guard, config, pause, commit, belief. */
  function SetState(p: Proc, d: Device, op: Op, w: Weather): CallResult
    requires op.Set?
  {
    if !Guard(p) then CallResult(p, d, false)
    else
      var d1 := Written(d, Config(op.iface, op.mode), w.config);
      if !WriteOk(d, Config(op.iface, op.mode), w.config) then CallResult(StruckAndProbed(p, w.probe), d1, false)
      else if w.cancelled then CallResult(p, d1, false)
      else
        var d2 := Written(d1, Commit(op.iface), w.commit);
        if !WriteOk(d1, Commit(op.iface), w.commit) then CallResult(Struck(p), d2, false)
        else CallResult(Believed(p, op, w.save), d2, true)
  }

  function TrackingWrite(mode: CameraState): Op {
    Set(IF_TRACKING, CameraByte(mode), GoOn)
  }

  /** What a re-assert leaves, when nobody else acts in between. */
  function Reasserted(p: Proc, d: Device, mode: CameraState, bounce: Weather, w: Weather): CallResult {
    if p.belief.camera != mode then CallResult(p, d, true)
    else
      var a := if mode == Tracking then SetState(p, d, TrackingWrite(Idle), bounce) else CallResult(p, d, true);
      if !a.ok then CallResult(a.p, a.d, true)
      else
        var b := SetState(a.p, a.d, TrackingWrite(mode), w);
        CallResult(b.p, b.d, true)
  }

  /** sendV2Set: guard, one report, accounting. */
  function SendSet(p: Proc, d: Device, report: seq<Byte>, link: Link, probe: Probe): CallResult {
    if !Guard(p) then CallResult(p, d, false)
    else if !WriteOk(d, report, link) then CallResult(StruckAndProbed(p, probe), Written(d, report, link), false)
    else CallResult(Cleared(p), Written(d, report, link), true)
  }

  /** Speeds are sent until the first that fails. */
  function SendSpeeds(p: Proc, d: Device, reports: seq<seq<Byte>>, links: nat -> Link, probe: Probe, k: nat): CallResult
    decreases |reports|
  {
    if reports == [] then CallResult(p, d, true)
    else
      var r := SendSet(p, d, reports[0], links(k), probe);
      if r.ok then SendSpeeds(r.p, r.d, reports[1..], links, probe, k + 1) else r
  }

  /** The modes that could be read. */
  function ReadBack(d: Device, tracking: bool, audio: bool, gesture: bool): (q: Stage)
    ensures q.Queried?
  {
    Queried(if tracking then Some(d.tracking) else None, if audio then Some(d.audio) else None,
            if gesture then Some(d.gesture) else None)
  }

  /** Each value read replaces the believed one where it differs. */
  method AdoptValues(believed: Belief, q: Stage) returns (b: Belief, changed: bool)
    requires q.Queried?
    ensures b == TakenOver(believed, q) && (changed <==> b != believed)
  {
    b, changed := believed, false;
    if q.camera.Some? && q.camera.value != Offline && b.camera != q.camera.value {
      b, changed := b.(camera := q.camera.value), true;
    }
    if q.audio.Some? && b.audio != q.audio.value {
      b, changed := b.(audio := q.audio.value), true;
    }
    if q.gesture.Some? && b.gesture != q.gesture.value {
      b, changed := b.(gesture := q.gesture.value), true;
    }
  }

  class Daemon {
    var belief: Belief
    var hid: bool
    var video: bool
    var count: nat
    var armed: bool
    var intent: bool
    var file: Option<StateFile>
    var tmp: Option<StateFile>
    const dev: Simulator

    constructor (dev: Simulator, found: Option<StateFile>, probe: Probe, defaultAudio: AudioMode)
      ensures this.dev == dev
      ensures exists p: Proc ::
                && p.file == found && p.belief.camera != Offline && !p.intent
                && Fields() == Booted(p, probe, defaultAudio)
    {
      this.dev := dev;
      belief := match Load(found) case Some(b) => b case None => Belief(Privacy, defaultAudio, false);
      hid, video, count, armed := probe.hid, probe.video, 0, false;
      intent := Load(found).Some?;
      file, tmp := found, None;
      new;
      ghost var p := Proc(Belief(Privacy, defaultAudio, false), false, false, 0, false, false, found, None);
      assert Fields() == Booted(p, probe, defaultAudio);
    }

    ghost function Fields(): Proc
      reads this
    {
      Proc(belief, hid, video, count, armed, intent, file, tmp)
    }

    method ResetFailCount()
      modifies this`count
      ensures Fields() == Cleared(old(Fields()))
    {
      count := 0;
    }

    method ApplyProbeResult(r: Probe)
      modifies this`hid, this`video, this`count
      ensures Fields() == Probed(old(Fields()), r)
    {
      hid, video := r.hid, r.video;
      if r.hid && r.video {
        ResetFailCount();
      }
    }

    method RecordSendFailure(r: Probe)
      modifies this`hid, this`video, this`count
      ensures Fields() == StruckAndProbed(old(Fields()), r)
    {
      count := count + 1;
      if count < BREAKER {
        ApplyProbeResult(r);
      }
    }

    method SaveState(save: Save)
      modifies this`file, this`tmp, this`intent
      ensures Fields() == SavedAs(old(Fields()), save)
    {
      match save {
        case NotSaved =>
        case TmpOnly(c) => tmp := Some(c);
        case Saved =>
          file, tmp := Some(FileOf(belief)), None;
          intent := true;
      }
    }

    /** One write to the hidraw node. */
    method SendReport(report: seq<Byte>, link: Link) returns (ok: bool)
      modifies dev
      ensures dev.State() == Written(old(dev.State()), report, link) && ok == WriteOk(old(dev.State()), report, link)
    {
      if link == Lost { return false; }
      var error := dev.Send(Sent(report));
      ok := link == Delivered && error.None?;
    }

    method SetDeviceState(op: Op, w: Weather) returns (ok: bool)
      requires op.Set?
      modifies this, dev
      ensures CallResult(Fields(), dev.State(), ok) == SetState(old(Fields()), old(dev.State()), op, w)
    {
      if !hid || count >= BREAKER { return false; }
      ok := SendReport(Config(op.iface, op.mode), w.config);
      if !ok {
        RecordSendFailure(w.probe);
        return;
      }
      if w.cancelled { return false; }
      ok := SendReport(Commit(op.iface), w.commit);
      if !ok {
        count := count + 1;
        return;
      }
      ResetFailCount();
      if op.iface == IF_TRACKING {
        belief := belief.(camera := CameraOfByte(op.mode));
      } else if op.iface == IF_AUDIO {
        belief := belief.(audio := AudioOfByte(op.mode));
      } else {
        belief := belief.(gesture := op.mode == GESTURE_ON);
      }
      SaveState(w.save);
    }

    /**
      A tracking or idle write made while the trap is armed asks for one re-assert
      of its mode. Offline is never commanded.
    */
    method SetTracking(mode: CameraState, w: Weather) returns (ok: bool, again: Option<CameraState>)
      requires mode != Offline
      modifies this, dev
      ensures CallResult(Fields(), dev.State(), ok) == SetState(old(Fields()), old(dev.State()), TrackingWrite(mode), w)
      ensures again == if ok && mode != Privacy && old(armed) then Some(mode) else None
    {
      ok := SetDeviceState(TrackingWrite(mode), w);
      again := None;
      if ok && mode != Privacy && armed {
        again := Some(mode);
      }
    }

    /**
      A re-assert once its timer has fired: checks belief, bounces through idle for
      tracking, never asks for another.
    */
    method Reassert(mode: CameraState, bounce: Weather, w: Weather)
      requires mode != Offline && !bounce.cancelled && !w.cancelled
      modifies this, dev
      ensures Reasserted(old(Fields()), old(dev.State()), mode, bounce, w) == CallResult(Fields(), dev.State(), true)
    {
      if belief.camera != mode { return; }
      if mode == Tracking {
        var bounced := SetDeviceState(TrackingWrite(Idle), bounce);
        if !bounced { return; }
      }
      var ok := SetDeviceState(TrackingWrite(mode), w);
    }

    method SendV2Set(report: seq<Byte>, link: Link, probe: Probe) returns (ok: bool)
      modifies this, dev
      ensures CallResult(Fields(), dev.State(), ok) == SendSet(old(Fields()), old(dev.State()), report, link, probe)
    {
      if !hid || count >= BREAKER { return false; }
      ok := SendReport(report, link);
      if ok {
        ResetFailCount();
      } else {
        RecordSendFailure(probe);
      }
    }

    method ReassertSpeeds(reports: seq<seq<Byte>>, links: nat -> Link, probe: Probe) returns (ok: bool)
      modifies this, dev
      ensures CallResult(Fields(), dev.State(), ok)
              == SendSpeeds(old(Fields()), old(dev.State()), reports, links, probe, 0)
    {
      ok := true;
      var k := 0;
      while k < |reports|
        invariant 0 <= k <= |reports|
        invariant SendSpeeds(old(Fields()), old(dev.State()), reports, links, probe, 0)
               == SendSpeeds(Fields(), dev.State(), reports[k..], links, probe, k)
      {
        assert reports[k..][0] == reports[k] && reports[k..][1..] == reports[k + 1..];
        ok := SendV2Set(reports[k], links(k), probe);
        if !ok { return; }
        k := k + 1;
      }
    }

    /** Reads audio and gesture back; a missing device handle brings the daemon down. */
    method AdoptSecondary(audioRead: bool, gestureRead: bool, save: Save) returns (alive: bool)
      modifies this
      ensures alive == old(hid)
      ensures Fields() ==
              if old(hid) then AdoptedFrom(old(Fields()), dev.State(), audioRead, gestureRead, save) else old(Fields())
    {
      if !hid { return false; }
      var b, changed := AdoptValues(belief, ReadBack(dev.State(), false, audioRead, gestureRead));
      hide TakenOver;
      if changed {
        belief := b;
        SaveState(save);
      }
      alive := true;
    }

    /** Adopts all three modes from the hardware. */
    method SyncState(trackingRead: bool, audioRead: bool, gestureRead: bool, save: Save)
      modifies this
      ensures Fields() == SyncSpec(old(Fields()), dev.State(), trackingRead, audioRead, gestureRead, save)
    {
      if !hid || count >= BREAKER || !video { return; }
      var b, changed := AdoptValues(belief, ReadBack(dev.State(), trackingRead, audioRead, gestureRead));
      hide TakenOver;
      if changed {
        belief := b;
        SaveState(save);
      }
    }

    /** `alive` is false when a query finds no handle; `again` is the re-assert that the mode write asks for. */
    method ReconcileOnDeviceAppear(env: Surroundings) returns (alive: bool, again: Option<CameraState>)
      requires belief.camera != Offline
      modifies this, dev
      ensures Reconciled(Fields(), dev.State(), alive, again) == ReconcileSpec(old(Fields()), old(dev.State()), env)
    {
      again := None;
      if !video { return true, None; }
      if !intent {
        SyncState(env.answered, env.audioRead, env.gestureRead, env.save);
        return true, None;
      }
      if !hid { return false, None; }
      if !env.answered { return true, None; }
      var actual := dev.tracking;
      if actual != belief.camera {
        var ok;
        ok, again := SetTracking(belief.camera, env.weather);
      }
      var ok := ReassertSpeeds(env.speeds, env.links, env.probe);
      alive := AdoptSecondary(env.audioRead, env.gestureRead, env.save);
    }
  }

  function SyncSpec(p: Proc, d: Device, trackingRead: bool, audioRead: bool, gestureRead: bool, save: Save): Proc {
    if !Guard(p) || !p.video then p else Adopted(p, ReadBack(d, trackingRead, audioRead, gestureRead), save)
  }

  function AdoptedFrom(p: Proc, d: Device, audioRead: bool, gestureRead: bool, save: Save): Proc {
    Adopted(p, ReadBack(d, false, audioRead, gestureRead), save)
  }

  /** What the environment does during a reconcile. */
  datatype Surroundings = Surroundings(answered: bool, weather: Weather, speeds: seq<seq<Byte>>,
                                       links: nat -> Link, probe: Probe,
                                       audioRead: bool, gestureRead: bool, save: Save)

  datatype Reconciled = Reconciled(p: Proc, d: Device, alive: bool, again: Option<CameraState>)

  function ReconcileSpec(p: Proc, d: Device, env: Surroundings): Reconciled {
    if !p.video then Reconciled(p, d, true, None)
    else if !p.intent then
      Reconciled(SyncSpec(p, d, env.answered, env.audioRead, env.gestureRead, env.save), d, true, None)
    else if !p.hid then Reconciled(p, d, false, None)
    else if !env.answered then Reconciled(p, d, true, None)
    else
      var same := d.tracking == p.belief.camera;
      var a := if same then CallResult(p, d, true) else SetState(p, d, TrackingWrite(p.belief.camera), env.weather);
      var again := if !same && a.ok && p.armed && p.belief.camera != Privacy then Some(p.belief.camera) else None;
      var b := SendSpeeds(a.p, a.d, env.speeds, env.links, env.probe, 0);
      if !b.p.hid then Reconciled(b.p, b.d, false, again)
      else Reconciled(AdoptedFrom(b.p, b.d, env.audioRead, env.gestureRead, env.save), b.d, true, again)
  }

  // ---------------------------------------------------------------------
  // What the calls come to
  // ---------------------------------------------------------------------

  /** The two reports of a mode write, each arriving or not. */
  lemma TwoReports(d: Device, op: Op, l1: Link, l2: Link)
    requires op.Set? && OpOk(op) && Stable(d)
    ensures var d1 := d.(pending := d.pending[op.iface := op.mode]);
            var d2 := Applied(d, op.iface, op.mode).(pending := d.pending - {op.iface});
            && Written(d, Config(op.iface, op.mode), l1) == (if l1 == Lost then d else d1)
            && (WriteOk(d, Config(op.iface, op.mode), l1) <==> l1 == Delivered)
            && Written(d1, Commit(op.iface), l2) == (if l2 == Lost then d1 else d2)
            && (WriteOk(d1, Commit(op.iface), l2) <==> l2 == Delivered)
  {
    SentConfig(op.iface, op.mode);
    ConfigPends(d, op.iface, op.mode, 23);
    var d1 := d.(pending := d.pending[op.iface := op.mode]);
    CommitApplies(d1, op.iface, 28);
    assert d1.pending - {op.iface} == d.pending - {op.iface};
    hide Receive, Sent, Config, Commit;
  }

  lemma AppliedModeAt(d: Device, iface: Byte, mode: Byte, j: Byte)
    requires ValidInterface(iface) && ValidMode(iface, mode) && ValidInterface(j) && d.tracking != Offline
    ensures Applied(d, iface, mode).tracking != Offline
    ensures ModeByte(Applied(d, iface, mode), j) == if j == iface then mode else ModeByte(d, j)
  {
    ModeBytes(mode);
    hide CameraByte, AudioByte, CameraOfByte, AudioOfByte;
    var e := Applied(d, iface, mode);
    assert e.tracking == (if iface == IF_TRACKING then CameraOfByte(mode) else d.tracking);
    assert e.audio == (if iface == IF_AUDIO then AudioOfByte(mode) else d.audio);
    assert e.gesture == (if iface == IF_GESTURE then mode == GESTURE_ON else d.gesture);
    hide Applied;
  }

  lemma ModeBytes(mode: Byte)
    ensures CameraOfByte(mode) != Offline
    ensures mode <= 2 ==> CameraByte(CameraOfByte(mode)) == mode
    ensures 1 <= mode <= 3 ==> AudioByte(AudioOfByte(mode)) == mode
  {
  }

  lemma AppliedMode(d: Device, op: Op)
    requires op.Set? && OpOk(op) && d.tracking != Offline
    ensures var e := Applied(d, op.iface, op.mode);
            && e.tracking != Offline
            && ModeByte(e, op.iface) == op.mode
            && forall j :: ValidInterface(j) && j != op.iface ==> ModeByte(e, j) == ModeByte(d, j)
  {
    hide Applied, ModeByte;
    AppliedModeAt(d, op.iface, op.mode, op.iface);
    forall j | ValidInterface(j) && j != op.iface ensures ModeByte(Applied(d, op.iface, op.mode), j) == ModeByte(d, j) {
      AppliedModeAt(d, op.iface, op.mode, j);
    }
  }

  lemma StableBoth(d: Device, op: Op)
    requires op.Set? && OpOk(op) && Stable(d)
    ensures Stable(d.(pending := d.pending[op.iface := op.mode]))
    ensures Stable(Applied(d, op.iface, op.mode).(pending := d.pending - {op.iface}))
  {
    AppliedMode(d, op);
    hide Applied;
  }

  lemma PendingIsNoMode(d: Device, m: map<Byte, Byte>, j: Byte)
    ensures ModeByte(d.(pending := m), j) == ModeByte(d, j)
  {
  }

  /**
    A mode write changes belief if and only if it succeeds, and then camera and
    belief both have its mode; the other modes of both stay as they were however it
    ends.
  */
  lemma SetStateEffect(p: Proc, d: Device, op: Op, w: Weather)
    requires op.Set? && OpOk(op) && Stable(d)
    ensures var r := SetState(p, d, op, w);
            && Stable(r.d)
            && r.p.belief == (if r.ok then WithMode(p.belief, op.iface, op.mode) else p.belief)
            && (r.ok ==> ModeByte(r.d, op.iface) == op.mode && BeliefByte(r.p.belief, op.iface) == op.mode)
            && (forall j :: ValidInterface(j) && j != op.iface ==> ModeByte(r.d, j) == ModeByte(d, j))
            && (r.ok <==> Guard(p) && Calm(w))
  {
    TwoReports(d, op, w.config, w.commit);
    AppliedMode(d, op);
    StableBoth(d, op);
    BeliefAfter(p, op, w);
    forall j ensures ModeByte(d.(pending := d.pending[op.iface := op.mode]), j) == ModeByte(d, j)
              && ModeByte(Applied(d, op.iface, op.mode).(pending := d.pending - {op.iface}), j)
                 == ModeByte(Applied(d, op.iface, op.mode), j)
    {
      PendingIsNoMode(d, d.pending[op.iface := op.mode], j);
      PendingIsNoMode(Applied(d, op.iface, op.mode), d.pending - {op.iface}, j);
    }
    hide Written, WriteOk, Config, Commit, StruckAndProbed, Believed, BeliefByte, WithMode, ModeByte, Stable, Applied;
  }

  lemma BeliefAfter(p: Proc, op: Op, w: Weather)
    requires op.Set? && OpOk(op)
    ensures Believed(p, op, w.save).belief == WithMode(p.belief, op.iface, op.mode)
    ensures BeliefByte(WithMode(p.belief, op.iface, op.mode), op.iface) == op.mode
    ensures StruckAndProbed(p, w.probe).belief == p.belief
  {
  }

  /** Both reports reach the camera, reported so or not. */
  predicate Lands(w: Weather) {
    w.config == Delivered && !w.cancelled && w.commit != Lost
  }

  /** The camera takes the mode exactly when both reports reach it, whatever the call is told. */
  lemma SetStateLands(p: Proc, d: Device, op: Op, w: Weather)
    requires op.Set? && OpOk(op) && Stable(d)
    ensures ModeByte(SetState(p, d, op, w).d, op.iface)
            == if Guard(p) && Lands(w) then op.mode else ModeByte(d, op.iface)
  {
    TwoReports(d, op, w.config, w.commit);
    AppliedMode(d, op);
    PendingIsNoMode(d, d.pending[op.iface := op.mode], op.iface);
    PendingIsNoMode(Applied(d, op.iface, op.mode), d.pending - {op.iface}, op.iface);
    hide Written, WriteOk, Config, Commit, StruckAndProbed, Believed, ModeByte, Stable, Applied;
  }

  /** The file changes only with a successful write, and a completed save holds the new belief. */
  lemma SetStateFile(p: Proc, d: Device, op: Op, w: Weather)
    requires op.Set?
    ensures var r := SetState(p, d, op, w);
            && (!r.ok ==> r.p.file == p.file)
            && (r.ok && w.save == Saved ==> r.p.file == Some(FileOf(r.p.belief)))
            && (r.ok && w.save != Saved ==> r.p.file == p.file)
  {
    hide Written, WriteOk, WithMode;
  }

  /**
    A re-assert whose mode is no longer believed sends nothing. Otherwise, for
    idle, belief stays idle and the camera is idle if the write lands. For
    tracking: when the idle bounce fails belief stays tracking and the mode is not
    written; when the bounce succeeds and the mode's write fails belief is idle, on
    disk too if the bounce was saved, and so is the camera unless the failed write
    landed all the same; when both succeed camera and belief are tracking.
  */
  lemma ReassertEffect(p: Proc, d: Device, mode: CameraState, bounce: Weather, w: Weather)
    requires Stable(d) && (mode == Idle || mode == Tracking)
    ensures var r := Reasserted(p, d, mode, bounce, w);
            var bounced := Guard(p) && Calm(bounce);
            if p.belief.camera != mode then r.p == p && r.d == d
            else if mode == Idle then
              && r.p.belief.camera == Idle
              && r.d.tracking == if Guard(p) && Lands(w) then Idle else d.tracking
            else if !bounced then
              && r.p.belief.camera == Tracking && r.p.file == p.file
              && r.d.tracking == if Guard(p) && Lands(bounce) then Idle else d.tracking
            else if !Calm(w) then
              && r.p.belief.camera == Idle
              && (bounce.save == Saved ==> r.p.file == Some(FileOf(r.p.belief)))
              && r.d.tracking == if Lands(w) then Tracking else Idle
            else r.p.belief.camera == Tracking && r.d.tracking == Tracking
  {
    if p.belief.camera == mode {
      var idle, op := TrackingWrite(Idle), TrackingWrite(mode);
      CallFacts(p, d, idle, bounce);
      GuardAfter(p, d, idle, bounce);
      var a := if mode == Tracking then SetState(p, d, idle, bounce) else CallResult(p, d, true);
      CallFacts(a.p, a.d, op, w);
      hide SetState, FileOf, Stable;
    }
  }

  /** One camera-mode write, all told. */
  lemma CallFacts(p: Proc, d: Device, op: Op, w: Weather)
    requires Stable(d) && op.Set? && op.iface == IF_TRACKING && op.mode <= 2
    ensures var r := SetState(p, d, op, w);
            && Stable(r.d) && (r.ok <==> Guard(p) && Calm(w))
            && r.p.belief == (if r.ok then p.belief.(camera := CameraOfByte(op.mode)) else p.belief)
            && r.d.tracking == (if Guard(p) && Lands(w) then CameraOfByte(op.mode) else d.tracking)
            && (!r.ok ==> r.p.file == p.file)
            && (r.ok && w.save == Saved ==> r.p.file == Some(FileOf(r.p.belief)))
  {
    SetStateEffect(p, d, op, w);
    SetStateLands(p, d, op, w);
    SetStateFile(p, d, op, w);
    hide SetState, FileOf;
  }

  lemma GuardAfter(p: Proc, d: Device, op: Op, w: Weather)
    requires op.Set?
    ensures SetState(p, d, op, w).ok ==> Guard(SetState(p, d, op, w).p)
  {
    hide Written, WriteOk;
  }

  lemma {:induction false} SpeedsKeep(p: Proc, d: Device, reports: seq<seq<Byte>>, links: nat -> Link,
          probe: Probe, k: nat)
    requires MotorReports(reports)
    ensures var r := SendSpeeds(p, d, reports, links, probe, k);
            r.p.belief == p.belief && r.p.intent == p.intent && r.p.file == p.file && Legacy(r.d) == Legacy(d)
    decreases |reports|
  {
    if reports != [] {
      V2KeepsLegacy(d, Sent(reports[0]));
      var r := SendSet(p, d, reports[0], links(k), probe);
      assert r.p.belief == p.belief && r.p.intent == p.intent && r.p.file == p.file && Legacy(r.d) == Legacy(d) by {
        hide HandleV2Set, Sent;
      }
      hide SendSet, HandleV2Set, Sent;
      if r.ok {
        SpeedsKeep(r.p, r.d, reports[1..], links, probe, k + 1);
      }
    }
  }

  /**
    A sync that is not refused leaves belief equal to the hardware in everything it
    could read, and as it was in the rest.
  */
  lemma SyncEffect(p: Proc, d: Device, trackingRead: bool, audioRead: bool, gestureRead: bool, save: Save)
    requires d.tracking != Offline
    ensures var q := SyncSpec(p, d, trackingRead, audioRead, gestureRead, save);
            var sees := Guard(p) && p.video;
            && q.belief.camera == (if sees && trackingRead then d.tracking else p.belief.camera)
            && q.belief.audio == (if sees && audioRead then d.audio else p.belief.audio)
            && q.belief.gesture == (if sees && gestureRead then d.gesture else p.belief.gesture)
            && (q.belief == p.belief ==> q == p)
            && (q.belief != p.belief && save == Saved ==> q.intent && q.file == Some(FileOf(q.belief)))
  {
  }

  lemma AdoptingKeepsCamera(p: Proc, d: Device, audioRead: bool, gestureRead: bool, save: Save)
    ensures var q := AdoptedFrom(p, d, audioRead, gestureRead, save);
            q.belief.camera == p.belief.camera && q.hid == p.hid
  {
  }

  /** The mode write of a reconcile, made only where the hardware differs. */
  lemma ReconcileWrite(p: Proc, d: Device, w: Weather)
    requires p.belief.camera != Offline && Stable(d)
    ensures var same := d.tracking == p.belief.camera;
            var a := if same then CallResult(p, d, true) else SetState(p, d, TrackingWrite(p.belief.camera), w);
            && Stable(a.d) && a.p.belief.camera == p.belief.camera
            && (same || (Guard(p) && Calm(w)) ==> a.d.tracking == p.belief.camera)
  {
    var op := TrackingWrite(p.belief.camera);
    SetStateEffect(p, d, op, w);
    hide SetState, Stable, Guard;
  }

  /**
    With persisted intent, reconcile never changes the believed camera mode,
    whatever fails on the way; when the mode write it may need succeeds, or none is
    needed, the camera ends in the believed mode.
  */
  lemma ReconcileServesIntent(p: Proc, d: Device, env: Surroundings)
    requires p.intent && p.belief.camera != Offline && Stable(d) && MotorReports(env.speeds)
    ensures var r := ReconcileSpec(p, d, env);
            && r.p.belief.camera == p.belief.camera
            && (d.tracking == p.belief.camera ==> r.d.tracking == p.belief.camera)
            && (p.video && Guard(p) && env.answered && Calm(env.weather) ==> r.d.tracking == p.belief.camera)
            && (!r.alive ==> p.video && (p.hid ==> env.answered && !r.p.hid))
  {
    if p.video && p.hid && env.answered {
      ReconcileWrite(p, d, env.weather);
      var a := if d.tracking == p.belief.camera then CallResult(p, d, true)
               else SetState(p, d, TrackingWrite(p.belief.camera), env.weather);
      SpeedsKeep(a.p, a.d, env.speeds, env.links, env.probe, 0);
      var b := SendSpeeds(a.p, a.d, env.speeds, env.links, env.probe, 0);
      AdoptingKeepsCamera(b.p, b.d, env.audioRead, env.gestureRead, env.save);
      hide SetState, SendSpeeds, MotorReports, AdoptedFrom, Stable, Calm, Guard;
    }
  }

  /** The steps of one mode write by a thread that nobody disturbs. */
  function CallEvents(p: Proc, t: nat, w: Weather): seq<Event> {
    if !Guard(p) then [Refuse(t)]
    else if w.config != Delivered then [SendConfig(t, w.config)] + [Strike(t, w.probe)]
    else if w.cancelled then [SendConfig(t, w.config)] + [Cancel(t)]
    else if w.commit != Delivered then [SendConfig(t, w.config)] + [SendCommit(t, w.commit)] + [StrikeCommit(t)]
    else [SendConfig(t, w.config)] + [SendCommit(t, w.commit)] + [Believe(t, w.save)]
  }

  /** Moving on inside an operation changes nothing of what its end leaves. */
  lemma DoneAt(threads: ThreadMap, t: nat, a: Stage, b: Stage, failed: bool)
    requires Busy(threads, t)
    ensures Done(At(threads, t, a), t, failed) == Done(threads, t, failed)
    ensures At(At(threads, t, a), t, b) == At(threads, t, b)
  {
    hide Rest;
  }

  /**
    The call does what its steps do: that run of the state machine ends in its
    fields and its camera, with the write over and, after a success, the look at
    the trap window due. The other threads, the lock and the daemon stay as they were.
  */
  lemma CallIsRun(s: System, t: nat, w: Weather)
    requires Core(s) && !s.panicked && In(s, t, Ready) && OpAt(s, t).Set? && s.threads[t].again.None?
    ensures var es := CallEvents(s.proc, t, w);
            && Runs(s, es)
            && var r, u := SetState(s.proc, s.cam.device, OpAt(s, t), w), After(s, es);
            && u.proc == r.p && u.cam.device == r.d && u.hidMu == s.hidMu && !u.panicked
            && u.threads == if r.ok then AfterBelieve(s.threads, t) else Done(s.threads, t, true)
  {
    var op := OpAt(s, t);
    Acting(s.threads, s.hidMu, t);
    if !Guard(s.proc) {
      RunsOne(s, Refuse(t));
    } else {
      var e1 := SendConfig(t, w.config);
      ConfigOf(s.cam, op, w.config);
      ConfigWritten(s.cam, op, w.config);
      CoreStep(s, e1);
      AfterConfig(s, t, w);
      var s1 := Apply(s, e1);
      hide Core, Apply, Enabled, ConfigArrives, ConfigOk, Written, WriteOk, StruckAndProbed, Done, AfterBelieve;
      if w.config != Delivered {
        TwoSteps(s, e1, Strike(t, w.probe));
      } else if w.cancelled {
        TwoSteps(s, e1, Cancel(t));
      } else {
        CallCommits(s, s1, t, w);
      }
    }
  }

  lemma AfterConfig(s: System, t: nat, w: Weather)
    requires Core(s) && Enabled(s, SendConfig(t, w.config)) && !s.panicked && s.threads[t].again.None?
    requires ConfigOk(s.cam, OpAt(s, t), w.config) <==> w.config == Delivered
    requires Core(Apply(s, SendConfig(t, w.config)))
    ensures var u := Apply(s, SendConfig(t, w.config));
            && u == s.(cam := ConfigArrives(s.cam, OpAt(s, t), w.config), threads := u.threads)
            && In(u, t, if w.config == Delivered then Configured(s.cam.calls) else WriteFailed)
            && u.threads == At(s.threads, t, u.threads[t].stage)
            && if w.config == Delivered then
                 && Enabled(u, Cancel(t))
                 && Apply(u, Cancel(t)) == u.(threads := Done(s.threads, t, true))
               else
                 && Enabled(u, Strike(t, w.probe))
                 && Apply(u, Strike(t, w.probe))
                    == u.(proc := StruckAndProbed(s.proc, w.probe), threads := Done(s.threads, t, true))
  {
    hide CamOk, HolderOk, PlanOk, ThreadOk, ConfigArrives, ConfigOk, StruckAndProbed, Done;
    DoneAt(s.threads, t, Configured(s.cam.calls), Ready, true);
    DoneAt(s.threads, t, WriteFailed, Ready, true);
  }

  lemma CallCommits(s: System, s1: System, t: nat, w: Weather)
    requires Core(s) && Enabled(s, SendConfig(t, Delivered)) && s1 == Apply(s, SendConfig(t, Delivered)) && Core(s1)
    requires OpAt(s, t).Set? && !s.panicked && Guard(s.proc) && w.config == Delivered && !w.cancelled
    requires s1.proc == s.proc && s1.hidMu == s.hidMu && !s1.panicked
    requires In(s, t, Ready) && s1.threads == At(s.threads, t, Configured(s.cam.calls)) && s.threads[t].again.None?
    requires s1.cam.device == s.cam.device.(pending := s.cam.device.pending[OpAt(s, t).iface := OpAt(s, t).mode])
    requires s1.cam.device == Written(s.cam.device, Config(OpAt(s, t).iface, OpAt(s, t).mode), Delivered)
    requires WriteOk(s.cam.device, Config(OpAt(s, t).iface, OpAt(s, t).mode), Delivered)
    ensures var es := CallEvents(s.proc, t, w);
            && Runs(s, es)
            && var r, u := SetState(s.proc, s.cam.device, OpAt(s, t), w), After(s, es);
            && u.proc == r.p && u.cam.device == r.d && u.hidMu == s.hidMu && !u.panicked
            && u.threads == if r.ok then AfterBelieve(s.threads, t) else Done(s.threads, t, true)
  {
    var op := OpAt(s, t);
    var e1, e2 := SendConfig(t, w.config), SendCommit(t, w.commit);
    Acting(s1.threads, s1.hidMu, t);
    assert StageOk(s1.cam, 0, op, Configured(s.cam.calls));
    CommitOf(s1.cam, op, s.cam.calls, w.commit);
    CommitWritten(s1.cam, op, s.cam.calls, w.commit);
    CoreStep(s1, e2);
    AfterCommit(s1, t, s.cam.calls, w);
    BelieveAt(s.threads, t, Configured(s.cam.calls));
    hide Core, Written, WriteOk, Struck, Believed, Apply, Enabled, AfterBelieve, Done;
    if w.commit == Delivered {
      ThreeSteps(s, e1, e2, Believe(t, w.save));
    } else {
      ThreeSteps(s, e1, e2, StrikeCommit(t));
    }
  }

  lemma AfterCommit(s: System, t: nat, call: nat, w: Weather)
    requires Core(s) && Enabled(s, SendCommit(t, w.commit)) && In(s, t, Configured(call)) && OpAt(s, t).Set?
             && !s.panicked
    requires CommitOk(s.cam, OpAt(s, t), w.commit) <==> w.commit == Delivered
    requires Core(Apply(s, SendCommit(t, w.commit)))
    ensures var u := Apply(s, SendCommit(t, w.commit));
            && u == s.(cam := CommitArrives(s.cam, OpAt(s, t), call, w.commit), threads := u.threads)
            && if w.commit == Delivered then
                 && Enabled(u, Believe(t, w.save))
                 && Apply(u, Believe(t, w.save))
                    == u.(proc := Believed(s.proc, OpAt(s, t), w.save), threads := AfterBelieve(s.threads, t))
               else
                 && Enabled(u, StrikeCommit(t))
                 && Apply(u, StrikeCommit(t)) == u.(proc := Struck(s.proc), threads := Done(s.threads, t, true))
  {
    hide CamOk, HolderOk, PlanOk, ThreadOk, CommitArrives, CommitOk, Believed, Struck, AfterBelieve, Done;
    BelieveAt(s.threads, t, Committed(call, s.cam.epoch));
    BelieveAt(s.threads, t, CommitFailed);
  }

  lemma BelieveAt(threads: ThreadMap, t: nat, a: Stage)
    requires Busy(threads, t) && threads[t].ops[0].Set?
    ensures AfterBelieve(At(threads, t, a), t) == AfterBelieve(threads, t)
    ensures Done(At(threads, t, a), t, true) == Done(threads, t, true)
  {
    DoneAt(threads, t, a, TrapCheck, false);
    DoneAt(threads, t, a, TrapCheck, true);
    hide Done;
  }

  lemma ConfigWritten(c: Cam, op: Op, link: Link)
    requires CamOk(c) && op.Set? && OpOk(op)
    ensures ConfigArrives(c, op, link).device == Written(c.device, Config(op.iface, op.mode), link)
    ensures WriteOk(c.device, Config(op.iface, op.mode), link) <==> link == Delivered
  {
    SentConfig(op.iface, op.mode);
    ConfigPends(c.device, op.iface, op.mode, 23);
    hide Receive, Sent, Config;
  }

  lemma CommitWritten(c: Cam, op: Op, call: nat, link: Link)
    requires CamOk(c) && op.Set? && OpOk(op) && op.iface in c.device.pending
    ensures CommitArrives(c, op, call, link).device == Written(c.device, Commit(op.iface), link)
    ensures WriteOk(c.device, Commit(op.iface), link) <==> link == Delivered
  {
    SentConfig(op.iface, op.mode);
    CommitApplies(c.device, op.iface, 28);
    hide Receive, Sent, Commit;
  }

  lemma TwoSteps(s: System, e1: Event, e2: Event)
    requires Core(s) && Enabled(s, e1) && Core(Apply(s, e1)) && Enabled(Apply(s, e1), e2)
    ensures Runs(s, [e1] + [e2]) && After(s, [e1] + [e2]) == Apply(Apply(s, e1), e2)
  {
    hide Apply, Enabled, Proper;
    RunsOne(Apply(s, e1), e2);
    assert ([e1] + [e2])[1..] == [e2];
  }

  lemma ThreeSteps(s: System, e1: Event, e2: Event, e3: Event)
    requires Core(s) && Enabled(s, e1) && Core(Apply(s, e1)) && Enabled(Apply(s, e1), e2)
    requires Core(Apply(Apply(s, e1), e2)) && Enabled(Apply(Apply(s, e1), e2), e3)
    ensures Runs(s, [e1] + [e2] + [e3]) && After(s, [e1] + [e2] + [e3]) == Apply(Apply(Apply(s, e1), e2), e3)
  {
    hide Apply, Enabled, Proper;
    TwoSteps(Apply(s, e1), e2, e3);
    assert ([e1] + [e2] + [e3])[1..] == [e2] + [e3];
  }

  /** The steps of one motor report by a thread that nobody disturbs. */
  function MotorEvents(p: Proc, d: Device, report: seq<Byte>, t: nat, link: Link, probe: Probe): seq<Event> {
    if !Guard(p) then [Refuse(t)]
    else if WriteOk(d, report, link) then [SendMotor(t, link)] + [MotorDone(t)]
    else [SendMotor(t, link)] + [Strike(t, probe)]
  }

  /** A motor report too does what its steps do. */
  lemma MotorCallIsRun(s: System, t: nat, link: Link, probe: Probe)
    requires Core(s) && !s.panicked && In(s, t, Ready) && OpAt(s, t).Motor?
    ensures var report := OpAt(s, t).report;
            var es := MotorEvents(s.proc, s.cam.device, report, t, link, probe);
            && Runs(s, es)
            && var r, u := SendSet(s.proc, s.cam.device, report, link, probe), After(s, es);
            && u.proc == r.p && u.cam.device == r.d && u.hidMu == s.hidMu && !u.panicked
            && u.threads == Done(s.threads, t, !r.ok)
  {
    var op := OpAt(s, t);
    Acting(s.threads, s.hidMu, t);
    if !Guard(s.proc) {
      RunsOne(s, Refuse(t));
    } else {
      var e1 := SendMotor(t, link);
      CoreStep(s, e1);
      AfterMotor(s, t, link, probe);
      hide Core, Apply, Enabled, Written, WriteOk, StruckAndProbed, Cleared, Done;
      TwoSteps(s, e1, if WriteOk(s.cam.device, op.report, link) then MotorDone(t) else Strike(t, probe));
    }
  }

  lemma AfterMotor(s: System, t: nat, link: Link, probe: Probe)
    requires Core(s) && Enabled(s, SendMotor(t, link)) && !s.panicked && Core(Apply(s, SendMotor(t, link)))
    ensures var u := Apply(s, SendMotor(t, link));
            var report := OpAt(s, t).report;
            && u == s.(cam := u.cam, threads := u.threads) && u.cam.device == Written(s.cam.device, report, link)
            && if WriteOk(s.cam.device, report, link) then
                 && Enabled(u, MotorDone(t))
                 && Apply(u, MotorDone(t)) == u.(proc := Cleared(s.proc), threads := Done(s.threads, t, false))
               else
                 && Enabled(u, Strike(t, probe))
                 && Apply(u, Strike(t, probe))
                    == u.(proc := StruckAndProbed(s.proc, probe), threads := Done(s.threads, t, true))
  {
    hide CamOk, HolderOk, PlanOk, ThreadOk, StruckAndProbed, Cleared, Done, Receive, Sent;
    DoneAt(s.threads, t, MotorSent, Ready, false);
    DoneAt(s.threads, t, WriteFailed, Ready, true);
  }

  // ---------------------------------------------------------------------
  // Preset pushes through the guard
  // ---------------------------------------------------------------------

  /**
    Several sends of the daemon: while the guard holds at first they are the
    transfers of the reports, up to the first that fails, and strike at most once;
    otherwise nothing is sent and nothing changes.
  */
  lemma {:induction false} SendsAreTransfers(p: Proc, d: Device, reports: seq<seq<Byte>>, links: nat -> Link,
          probe: Probe, k: nat)
    requires reports != []
    ensures var r, s := SendSpeeds(p, d, reports, links, probe, k), Transmit(d, reports, links, k);
            if Guard(p) then r.d == s.device && r.ok == s.ok && (r.ok ==> r.p.count == 0) && r.p.count <= p.count + 1
            else r == CallResult(p, d, false)
    decreases |reports|
  {
    var r := SendSet(p, d, reports[0], links(k), probe);
    if r.ok && reports[1..] != [] {
      SendsAreTransfers(r.p, r.d, reports[1..], links, probe, k + 1);
    }
    hide Receive, Sent;
  }

  /** A preset push: the speeds, best-effort, then the move and the save, each send through the guard. */
  function PushCall(p: Proc, d: Device, pos: Axes, slot: Byte, speeds: Axes, links: nat -> Link, r1: Probe, r2: Probe)
    : CallResult
  {
    var a := SendSpeeds(p, d, SpeedReports(speeds), links, r1, 0);
    SendSpeeds(a.p, a.d, PushReports(pos, slot), links, r2, Transmit(d, SpeedReports(speeds), links, 0).attempts)
  }

  /**
    With the guard it does to the camera what `Pushed` says exactly while the guard
    holds before the speeds and after them; otherwise it fails and nothing of the
    move or the save is sent. It strikes at most twice.
  */
  lemma PushThroughGuard(p: Proc, d: Device, pos: Axes, slot: Byte, speeds: Axes, links: nat -> Link,
          r1: Probe, r2: Probe)
    ensures var a := SendSpeeds(p, d, SpeedReports(speeds), links, r1, 0);
            var r, s := PushCall(p, d, pos, slot, speeds, links, r1, r2), Pushed(d, pos, slot, speeds, links);
            && (Guard(p) && Guard(a.p) ==> r.d == s.device && r.ok == s.ok)
            && (!Guard(a.p) ==> r == CallResult(a.p, a.d, false))
            && (!Guard(p) ==> r == CallResult(p, d, false))
            && r.p.count <= p.count + 2
  {
    var reports := SpeedReports(speeds);
    if reports != [] {
      SendsAreTransfers(p, d, reports, links, r1, 0);
    }
    var a := SendSpeeds(p, d, reports, links, r1, 0);
    SendsAreTransfers(a.p, a.d, PushReports(pos, slot), links, r2, Transmit(d, reports, links, 0).attempts);
    hide Guard, SpeedReports, PushReports;
  }
}
