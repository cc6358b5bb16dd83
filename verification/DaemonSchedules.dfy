/** Runs in which nothing is lost: one mode write, and a whole command. */
module DaemonSchedules {
  import opened Base
  import opened PixyWire
  import opened PixyDevice
  import opened Presets
  import opened DaemonSystem
  import opened DaemonSafety
  import opened DaemonTheorems

  /** The three steps of a write with nothing lost. */
  function Write(t: nat): seq<Event> {
    [SendConfig(t, Delivered)] + [SendCommit(t, Delivered)] + [Believe(t, Saved)]
  }

  /** A write of the camera mode with nothing lost: camera and belief end in that mode. */
  lemma WriteRuns(s: System, t: nat)
    requires Core(s) && !s.panicked && In(s, t, Ready) && Guard(s.proc)
    requires OpAt(s, t).Set? && OpAt(s, t).iface == IF_TRACKING
    ensures Runs(s, Write(t))
    ensures var v := After(s, Write(t));
            && Core(v) && !v.panicked && v.hidMu == s.hidMu && Guard(v.proc) && v.proc.armed == s.proc.armed
            && v.proc.belief.camera == CameraOfByte(OpAt(s, t).mode) && v.cam.device.tracking == v.proc.belief.camera
            && v.threads == AfterBelieve(s.threads, t)
  {
    var e1, e2, e3 := SendConfig(t, Delivered), SendCommit(t, Delivered), Believe(t, Saved);
    Acting(s.threads, s.hidMu, t);
    var mode := OpAt(s, t).mode;
    assert mode <= 2;
    WriteCompletes(s, t, OpAt(s, t), Saved);
    var s1 := Apply(s, e1);
    var s2 := Apply(s1, e2);
    NeverOffline(Apply(s2, e3));
    WriteThreads(s, s1, s2, t);
    hide Apply, Enabled, Proper, Runs, After, Core, AfterBelieve;
    RunsOne(s, e1);
    RunsOne(s1, e2);
    RunsOne(s2, e3);
    RunsConcat(s, [e1], [e2]);
    RunsConcat(s, [e1] + [e2], [e3]);
  }

  lemma WriteThreads(s: System, s1: System, s2: System, t: nat)
    requires Core(s) && Enabled(s, SendConfig(t, Delivered)) && s1 == Apply(s, SendConfig(t, Delivered))
    requires Core(s1) && Enabled(s1, SendCommit(t, Delivered)) && s2 == Apply(s1, SendCommit(t, Delivered))
    requires Core(s2) && Enabled(s2, Believe(t, Saved))
    ensures var s3 := Apply(s2, Believe(t, Saved));
            && s3.threads == AfterBelieve(s.threads, t)
            && s3.hidMu == s.hidMu && s3.panicked == s.panicked && s3.proc.armed == s.proc.armed
            && (Guard(s.proc) ==> Guard(s3.proc))
  {
    hide Core, ConfigArrives, CommitArrives, ConfigOk, CommitOk, WithMode, Rest;
  }

  /** The write is on disk. */
  lemma WriteIsSaved(s: System, t: nat)
    requires Core(s) && !s.panicked && In(s, t, Ready) && Guard(s.proc)
    requires OpAt(s, t).Set? && OpAt(s, t).iface == IF_TRACKING
    ensures Runs(s, Write(t)) && After(s, Write(t)).proc.file == Some(FileOf(After(s, Write(t)).proc.belief))
  {
    var e1, e2, e3 := SendConfig(t, Delivered), SendCommit(t, Delivered), Believe(t, Saved);
    WriteCompletes(s, t, OpAt(s, t), Saved);
    var s1 := Apply(s, e1);
    var s2 := Apply(s1, e2);
    hide Apply, Enabled, Proper, Runs, After, Core;
    RunsOne(s, e1);
    RunsOne(s1, e2);
    RunsOne(s2, e3);
    RunsConcat(s, [e1], [e2]);
    RunsConcat(s, [e1] + [e2], [e3]);
  }

  lemma NeverOffline(s: System)
    requires Core(s)
    ensures s.cam.device.tracking != Offline
  {
  }

  /** With nothing lost, a mode write goes through in three steps: camera and belief end in its mode. */
  lemma WriteCompletes(s: System, t: nat, op: Op, save: Save)
    requires Core(s) && !s.panicked && In(s, t, Ready) && OpAt(s, t) == op && op.Set? && Guard(s.proc)
    ensures Enabled(s, SendConfig(t, Delivered))
    ensures var s1 := Apply(s, SendConfig(t, Delivered));
            && Core(s1) && Enabled(s1, SendCommit(t, Delivered))
            && var s2 := Apply(s1, SendCommit(t, Delivered));
            && Core(s2) && Enabled(s2, Believe(t, save))
            && var s3 := Apply(s2, Believe(t, save));
            && Core(s3)
            && ModeByte(s3.cam.device, op.iface) == op.mode
            && s3.proc == Believed(s.proc, op, save)
            && (op.iface == IF_TRACKING ==> s3.proc.belief == s.proc.belief.(camera := CameraOfByte(op.mode)))
            && (op.iface == IF_TRACKING ==> CameraByte(s3.cam.device.tracking) == op.mode)
  {
    var e1, e2, e3 := SendConfig(t, Delivered), SendCommit(t, Delivered), Believe(t, save);
    Acting(s.threads, s.hidMu, t);
    ConfigOf(s.cam, op, Delivered);
    CoreStep(s, e1);
    var s1 := Apply(s, e1);
    SendConfigIs(s, t);
    CommitOf(s1.cam, op, s.cam.calls, Delivered);
    CoreStep(s1, e2);
    SendCommitIs(s1, t, s.cam.calls);
    var s2 := Apply(s1, e2);
    CoreStep(s2, e3);
    BelieveIs(s2, t, save);
    hide Apply, Core, Enabled, ConfigArrives, CommitArrives, ConfigOk, CommitOk;
  }

  lemma SendConfigIs(s: System, t: nat)
    requires Core(s) && Enabled(s, SendConfig(t, Delivered)) && ConfigOk(s.cam, OpAt(s, t), Delivered)
    requires ConfigArrives(s.cam, OpAt(s, t), Delivered).device.pending
             == s.cam.device.pending[OpAt(s, t).iface := OpAt(s, t).mode]
    requires ConfigArrives(s.cam, OpAt(s, t), Delivered).pendingBy == s.cam.pendingBy[OpAt(s, t).iface := s.cam.calls]
    ensures var u := Apply(s, SendConfig(t, Delivered));
            && Busy(u.threads, t) && OpAt(u, t) == OpAt(s, t) && StageAt(u, t) == Configured(s.cam.calls)
            && u.proc == s.proc && u.panicked == s.panicked && u.cam == ConfigArrives(s.cam, OpAt(s, t), Delivered)
            && Enabled(s, SendConfig(t, Delivered)) && Enabled(u, SendCommit(t, Delivered))
            && OpAt(s, t).iface in u.cam.device.pending
            && StageOk(u.cam, 0, OpAt(s, t), Configured(s.cam.calls))
  {
    hide Core, ConfigArrives, ConfigOk;
  }

  lemma SendCommitIs(s: System, t: nat, call: nat)
    requires Core(s) && Enabled(s, SendCommit(t, Delivered)) && StageAt(s, t) == Configured(call)
    requires OpAt(s, t).Set? && CommitOk(s.cam, OpAt(s, t), Delivered)
    ensures var u := Apply(s, SendCommit(t, Delivered));
            && Busy(u.threads, t) && OpAt(u, t) == OpAt(s, t) && StageAt(u, t) == Committed(call, s.cam.epoch)
            && u.proc == s.proc && u.panicked == s.panicked
            && u.cam == CommitArrives(s.cam, OpAt(s, t), call, Delivered)
            && forall save :: Enabled(u, Believe(t, save))
  {
    hide Core, CommitArrives, CommitOk;
  }

  lemma BelieveIs(s: System, t: nat, save: Save)
    requires Core(s) && Enabled(s, Believe(t, save)) && OpAt(s, t).Set?
    ensures var u := Apply(s, Believe(t, save));
            u.cam == s.cam && u.proc == Believed(s.proc, OpAt(s, t), save)
    ensures OpAt(s, t).iface == IF_TRACKING ==>
              Believed(s.proc, OpAt(s, t), save).belief == s.proc.belief.(camera := CameraOfByte(OpAt(s, t).mode))
  {
    hide Core, AfterBelieve;
  }

  // ---------------------------------------------------------------------
  // A whole command
  // ---------------------------------------------------------------------

  function ModeWrite(mode: CameraState): Op {
    Set(IF_TRACKING, CameraByte(mode), GoOn)
  }

  /**
    The command that asks for a mode, from its arrival to the release of hidMu; `r`
    names the re-assert it may schedule.
  */
  function CommandSteps(t: nat, r: nat, mode: CameraState): seq<Event> {
    [Spawn(t, [ModeWrite(mode)])] + [Lock(t)] + Write(t) + [TrapLook(t, r)] + [Unlock(t)]
  }

  /** A command with nothing lost: camera and belief in its mode, and one re-assert more if the trap is armed for it. */
  lemma CommandRuns(s: System, t: nat, r: nat, mode: CameraState)
    requires Core(s) && !s.panicked && s.hidMu == None && Guard(s.proc) && mode != Offline
    requires t !in s.threads && r !in s.threads && t != r
    ensures Runs(s, CommandSteps(t, r, mode))
    ensures var v := After(s, CommandSteps(t, r, mode));
            && Core(v) && !v.panicked && v.hidMu == None && Guard(v.proc) && v.proc.armed == s.proc.armed
            && v.proc.belief.camera == mode && v.cam.device.tracking == mode
            && v.threads == if mode != Privacy && s.proc.armed then s.threads[r := Delayed(mode)] else s.threads
  {
    var plan := [ModeWrite(mode)];
    var s1 := Arrives(s, t, plan);
    hide *;
    CommandWrites(s1, t, mode);
    var s2 := After(s1, Write(t));
    CommandEnds(s, s2, t, r, mode);
    var a, c := [Spawn(t, plan)] + [Lock(t)], [TrapLook(t, r)] + [Unlock(t)];
    RunsConcat(s, a, Write(t));
    RunsConcat(s, a + Write(t), c);
    CommandIs(t, r, mode);
  }

  lemma CommandIs(t: nat, r: nat, mode: CameraState)
    ensures CommandSteps(t, r, mode)
            == [Spawn(t, [ModeWrite(mode)])] + [Lock(t)] + Write(t) + ([TrapLook(t, r)] + [Unlock(t)])
  {
    hide Write;
  }

  lemma CommandWrites(s: System, t: nat, mode: CameraState)
    requires Core(s) && !s.panicked && Guard(s.proc) && mode != Offline
    requires t in s.threads && s.threads[t] == Holding(None, [ModeWrite(mode)], Ready)
    ensures Runs(s, Write(t))
    ensures var v := After(s, Write(t));
            && Core(v) && !v.panicked && v.hidMu == s.hidMu && Guard(v.proc) && v.proc.armed == s.proc.armed
            && v.proc.belief.camera == mode && v.cam.device.tracking == mode
            && v.threads == s.threads[t := Holding(None, [ModeWrite(mode)], TrapCheck)]
  {
    hide Write, Core, Runs, After;
    WriteRuns(s, t);
  }

  /** A new thread arrives and takes the free lock. */
  lemma Arrives(s: System, t: nat, plan: seq<Op>) returns (u: System)
    requires Core(s) && !s.panicked && s.hidMu == None && t !in s.threads && Startable(plan)
    ensures Runs(s, [Spawn(t, plan)] + [Lock(t)]) && u == After(s, [Spawn(t, plan)] + [Lock(t)])
    ensures Core(u) && u == s.(threads := s.threads[t := Holding(None, plan, Ready)], hidMu := Some(t))
  {
    var e1, e2 := Spawn(t, plan), Lock(t);
    CoreStep(s, e1);
    var s1 := Apply(s, e1);
    CoreStep(s1, e2);
    u := Apply(s1, e2);
    RunsOne(s, e1);
    RunsOne(s1, e2);
    RunsConcat(s, [e1], [e2]);
    hide Core, Runs, After;
  }

  lemma CommandEnds(s: System, u: System, t: nat, r: nat, mode: CameraState)
    requires Core(u) && !u.panicked && u.hidMu == Some(t) && mode != Offline
    requires t !in s.threads && r !in s.threads && t != r
    requires var ops := [ModeWrite(mode)];
             u.threads == s.threads[t := Holding(None, ops, Ready)][t := Holding(None, ops, TrapCheck)]
    ensures var es := [TrapLook(t, r)] + [Unlock(t)];
            && Runs(u, es)
            && var v := After(u, es);
            && Core(v) && v.cam == u.cam && v.proc == u.proc && v.hidMu == None && v.panicked == u.panicked
            && v.threads == if mode != Privacy && u.proc.armed then s.threads[r := Delayed(mode)] else s.threads
  {
    var e1, e2 := TrapLook(t, r), Unlock(t);
    CoreStep(u, e1);
    var u1 := Apply(u, e1);
    LookEnds(s.threads, u.threads, t, r, mode, u.proc.armed);
    assert Enabled(u1, e2) && u1.cam == u.cam && u1.proc == u.proc && u1.panicked == u.panicked by {
      hide AfterLook, Core;
    }
    CoreStep(u1, e2);
    hide Core, Runs, After, AfterLook, PlanOk;
    RunsOne(u, e1);
    RunsOne(u1, e2);
    RunsConcat(u, [e1], [e2]);
  }

  lemma LookEnds(before: ThreadMap, threads: ThreadMap, t: nat, r: nat, mode: CameraState, armed: bool)
    requires t !in before && r !in before && t != r && mode != Offline
    requires var ops := [ModeWrite(mode)];
             threads == before[t := Holding(None, ops, Ready)][t := Holding(None, ops, TrapCheck)]
    ensures var v := AfterLook(threads, t, r, armed);
            && t in v && v[t] == Holding(None, [], Ready)
            && v - {t} == if mode != Privacy && armed then before[r := Delayed(mode)] else before
  {
    var v := AfterLook(threads, t, r, armed);
    assert v - {t} == if mode != Privacy && armed then before[r := Delayed(mode)] else before;
  }
}
