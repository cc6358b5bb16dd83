/** Reconcile and sync calls, and the runs of the state machine that they are. */
module DaemonReconcile {
  import opened Base
  import opened PixyWire
  import opened PixyDevice
  import opened Presets
  import opened DaemonSystem
  import opened DaemonSafety
  import opened DaemonCalls

  // ---------------------------------------------------------------------
  // The steps of the calls
  // ---------------------------------------------------------------------

  /** The tracking write of a thread that nobody disturbs, with its look at the trap window. */
  function WriteEvents(p: Proc, d: Device, op: Op, w: Weather, t: nat, r: nat): seq<Event>
    requires op.Set?
  {
    CallEvents(p, t, w) + (if SetState(p, d, op, w).ok then [TrapLook(t, r)] else [])
  }

  /** Motor reports one after the other, up to the first that fails. */
  function MotorsEvents(p: Proc, d: Device, reports: seq<seq<Byte>>, links: nat -> Link, probe: Probe, k: nat, t: nat)
    : seq<Event>
    decreases |reports|
  {
    if reports == [] then []
    else
      var r := SendSet(p, d, reports[0], links(k), probe);
      MotorEvents(p, d, reports[0], t, links(k), probe)
      + (if r.ok then MotorsEvents(r.p, r.d, reports[1..], links, probe, k + 1, t) else [])
  }

  /** Audio and gesture are asked for and taken over; without a handle the first query is the last step. */
  function AdoptEvents(p: Proc, env: Surroundings, t: nat): seq<Event> {
    if p.hid then [Query(t, env.audioRead)] + ([Query(t, env.gestureRead)] + [TakeOver(t, env.save)])
    else [Query(t, env.audioRead)]
  }

  function SyncEvents(p: Proc, trackingRead: bool, audioRead: bool, gestureRead: bool, save: Save, t: nat)
    : seq<Event>
  {
    if !Guard(p) then [Refuse(t)]
    else if !p.video then [BeginSync(t)] + [Refuse(t)]
    else
      [BeginSync(t)] + [SeeVideo(t)]
      + ([Query(t, trackingRead)] + [Query(t, audioRead)] + ([Query(t, gestureRead)] + [TakeOver(t, save)]))
  }

  function RestoreEvents(p: Proc, d: Device, env: Surroundings, t: nat, r: nat): seq<Event> {
    if d.tracking == p.belief.camera then
      var b := SendSpeeds(p, d, env.speeds, env.links, env.probe, 0);
      MotorsEvents(p, d, env.speeds, env.links, env.probe, 0, t) + AdoptEvents(b.p, env, t)
    else
      var op := TrackingWrite(p.belief.camera);
      var a := SetState(p, d, op, env.weather);
      var b := SendSpeeds(a.p, a.d, env.speeds, env.links, env.probe, 0);
      WriteEvents(p, d, op, env.weather, t, r)
      + (MotorsEvents(a.p, a.d, env.speeds, env.links, env.probe, 0, t) + AdoptEvents(b.p, env, t))
  }

  function ReconcileEvents(p: Proc, d: Device, env: Surroundings, t: nat, r: nat): seq<Event> {
    if !p.video then [BeginReconcile(t)]
    else
      [BeginReconcile(t)] + [CheckIntent(t)]
      + (if !p.intent then SyncEvents(p, env.answered, env.audioRead, env.gestureRead, env.save, t)
         else [BeginRestore(t, env.answered, env.speeds)]
              + if p.hid && env.answered then RestoreEvents(p, d, env, t, r) else [])
  }

  // ---------------------------------------------------------------------
  // Runs of one thread that nobody disturbs
  // ---------------------------------------------------------------------

  /** Thread t has these operations left and is inside none. */
  function AtOps(threads: ThreadMap, t: nat, ops: seq<Op>): ThreadMap {
    threads[t := Holding(None, ops, Ready)]
  }

  /** The steps can be taken and end in these fields, this camera and these threads. */
  ghost predicate Leads(s: System, es: seq<Event>, p: Proc, d: Device, threads: ThreadMap) {
    && Runs(s, es)
    && var u := After(s, es);
    && Core(u) && u.proc == p && u.cam.device == d && u.threads == threads && u.hidMu == s.hidMu && !u.panicked
  }

  /** They end in these fields and this camera, with the daemon down. */
  ghost predicate Falls(s: System, es: seq<Event>, p: Proc, d: Device) {
    && Runs(s, es)
    && After(s, es).proc == p && After(s, es).cam.device == d && After(s, es).panicked
  }

  lemma Then(s: System, a: seq<Event>, b: seq<Event>, p: Proc, d: Device, threads: ThreadMap)
    requires Core(s) && Runs(s, a) && After(s, a).hidMu == s.hidMu
    ensures Leads(After(s, a), b, p, d, threads) ==> Leads(s, a + b, p, d, threads)
    ensures Falls(After(s, a), b, p, d) ==> Falls(s, a + b, p, d)
  {
    hide Core;
    if Runs(After(s, a), b) {
      RunsConcat(s, a, b);
    }
  }

  lemma One(s: System, e: Event)
    requires Core(s) && Enabled(s, e)
    ensures Runs(s, [e]) && After(s, [e]) == Apply(s, e) && Core(Apply(s, e))
  {
    hide Core, Apply, Enabled;
    RunsOne(s, e);
    CoreStep(s, e);
  }

  // ---------------------------------------------------------------------
  // Reading back
  // ---------------------------------------------------------------------

  predicate Stands(s: System, t: nat, ops: seq<Op>, stage: Stage) {
    !s.panicked && t in s.threads && s.threads[t] == Holding(None, ops, stage)
  }

  lemma OneQuery(s: System, t: nat, ops: seq<Op>, stage: Stage, answered: bool)
    requires Core(s) && Stands(s, t, ops, stage) && ops != [] && s.proc.hid
    requires stage.Querying? || (stage == Ready && ops[0].Adopt?)
    ensures var u := Apply(s, Query(t, answered));
            && Proper(s.threads, s.hidMu) && Enabled(s, Query(t, answered))
            && u == s.(threads := s.threads[t := Holding(None, ops, Answered(s.cam.device, stage, answered))])
            && Runs(s, [Query(t, answered)]) && After(s, [Query(t, answered)]) == u && Core(u)
  {
    One(s, Query(t, answered));
    hide Proper, CamOk, HolderOk, Answered, Runs, After;
  }

  /** The last query and what follows. */
  lemma FinishLeads(s: System, t: nat, ops: seq<Op>, c: Option<CameraState>, a: Option<AudioMode>, gestureRead: bool,
          save: Save)
    requires Core(s) && Stands(s, t, ops, Querying(2, c, a)) && ops != [] && s.proc.hid
    ensures var q := Queried(c, a, if gestureRead then Some(s.cam.device.gesture) else None);
            Leads(s, [Query(t, gestureRead)] + [TakeOver(t, save)], Adopted(s.proc, q, save), s.cam.device,
                  AtOps(s.threads, t, ops[1..]))
  {
    var e1, e2 := Query(t, gestureRead), TakeOver(t, save);
    OneQuery(s, t, ops, Querying(2, c, a), gestureRead);
    var u := Apply(s, e1);
    TakesOver(u, t, ops, Queried(c, a, if gestureRead then Some(s.cam.device.gesture) else None), save);
    assert u.threads[t := Holding(None, ops[1..], Ready)] == AtOps(s.threads, t, ops[1..]);
    hide Core, Apply, Enabled, Adopted;
    Then(s, [e1], [e2], Apply(u, e2).proc, s.cam.device, AtOps(s.threads, t, ops[1..]));
  }

  lemma TakesOver(s: System, t: nat, ops: seq<Op>, q: Stage, save: Save)
    requires Core(s) && q.Queried? && Stands(s, t, ops, q) && ops != []
    ensures Leads(s, [TakeOver(t, save)], Adopted(s.proc, q, save), s.cam.device, AtOps(s.threads, t, ops[1..]))
    ensures Enabled(s, TakeOver(t, save)) && Apply(s, TakeOver(t, save)).proc == Adopted(s.proc, q, save)
  {
    One(s, TakeOver(t, save));
    hide CamOk, HolderOk, Runs, After, Adopted;
  }

  /** The end of a reconcile: what could be read is taken over, or the daemon goes down. */
  lemma AdoptEnds(s: System, t: nat, rest: seq<Op>, env: Surroundings)
    requires Core(s) && Stands(s, t, [Adopt] + rest, Ready)
    ensures var p, d, es := s.proc, s.cam.device, AdoptEvents(s.proc, env, t);
            if p.hid then
              Leads(s, es, AdoptedFrom(p, d, env.audioRead, env.gestureRead, env.save), d, AtOps(s.threads, t, rest))
            else Falls(s, es, p, d)
  {
    hide CamOk, HolderOk, PlanOk, ThreadOk, Adopted, Runs, After;
    var ops := [Adopt] + rest;
    var e := Query(t, env.audioRead);
    if s.proc.hid {
      OneQuery(s, t, ops, Ready, env.audioRead);
      var u := Apply(s, e);
      var a := if env.audioRead then Some(s.cam.device.audio) else None;
      FinishLeads(u, t, ops, None, a, env.gestureRead, env.save);
      assert AtOps(u.threads, t, ops[1..]) == AtOps(s.threads, t, rest);
      hide Core, Apply, Enabled;
      Then(s, [e], [Query(t, env.gestureRead)] + [TakeOver(t, env.save)],
           AdoptedFrom(s.proc, s.cam.device, env.audioRead, env.gestureRead, env.save), s.cam.device,
           AtOps(s.threads, t, rest));
    } else {
      One(s, e);
    }
  }

  /** A refusal ends the operation. */
  lemma RefuseLeads(s: System, t: nat, op: Op, rest: seq<Op>, stage: Stage)
    requires Core(s) && Stands(s, t, [op] + rest, stage) && RuleOf(op) == GoOn
    requires Enabled(s, Refuse(t))
    ensures Leads(s, [Refuse(t)], s.proc, s.cam.device, AtOps(s.threads, t, rest))
  {
    One(s, Refuse(t));
    hide CamOk, HolderOk, Runs, After;
  }

  lemma GuardedLeads(s: System, t: nat, op: Op, rest: seq<Op>)
    requires Core(s) && Stands(s, t, [op] + rest, Ready) && op.Sync? && Guard(s.proc)
    ensures var e := BeginSync(t);
            && Proper(s.threads, s.hidMu) && Enabled(s, e)
            && Runs(s, [e]) && After(s, [e]) == Apply(s, e) && Core(Apply(s, e))
            && Apply(s, e) == s.(threads := s.threads[t := Holding(None, [op] + rest, Guarded)])
  {
    One(s, BeginSync(t));
    hide CamOk, HolderOk, Runs, After;
  }

  lemma SeesLeads(s: System, t: nat, op: Op, rest: seq<Op>)
    requires Core(s) && Stands(s, t, [op] + rest, Guarded) && op.Sync? && s.proc.video
    ensures var e := SeeVideo(t);
            && Proper(s.threads, s.hidMu) && Enabled(s, e)
            && Runs(s, [e]) && After(s, [e]) == Apply(s, e) && Core(Apply(s, e))
            && Apply(s, e) == s.(threads := s.threads[t := Holding(None, [op] + rest, Querying(0, None, None))])
  {
    One(s, SeeVideo(t));
    hide CamOk, HolderOk, Runs, After;
  }

  /** A sync that nobody disturbs is the run of its steps. */
  lemma SyncIsRun(s: System, t: nat, op: Op, rest: seq<Op>, trackingRead: bool, audioRead: bool, gestureRead: bool,
          save: Save)
    requires Core(s) && Stands(s, t, [op] + rest, Ready) && op.Sync?
    ensures Leads(s, SyncEvents(s.proc, trackingRead, audioRead, gestureRead, save, t),
                  SyncSpec(s.proc, s.cam.device, trackingRead, audioRead, gestureRead, save), s.cam.device,
                  AtOps(s.threads, t, rest))
  {
    var p, d, ops, ths := s.proc, s.cam.device, [op] + rest, AtOps(s.threads, t, rest);
    hide Core, Adopted;
    if !Guard(p) {
      RefuseLeads(s, t, op, rest, Ready);
    } else {
      GuardedLeads(s, t, op, rest);
      var s1 := Apply(s, BeginSync(t));
      assert AtOps(s1.threads, t, rest) == ths;
      if !p.video {
        RefuseLeads(s1, t, op, rest, Guarded);
        hide Apply, Enabled;
        Then(s, [BeginSync(t)], [Refuse(t)], p, d, ths);
      } else {
        SeesLeads(s1, t, op, rest);
        var s2 := Apply(s1, SeeVideo(t));
        assert AtOps(s2.threads, t, rest) == ths;
        QueriesLead(s2, t, ops, trackingRead, audioRead, gestureRead, save);
        hide Apply, Enabled, Runs, After;
        var es := [Query(t, trackingRead)] + [Query(t, audioRead)] + ([Query(t, gestureRead)] + [TakeOver(t, save)]);
        RunsConcat(s, [BeginSync(t)], [SeeVideo(t)]);
        Then(s, [BeginSync(t)] + [SeeVideo(t)], es,
             Adopted(p, ReadBack(d, trackingRead, audioRead, gestureRead), save), d, ths);
      }
    }
  }

  /** The three questions of a sync and its take-over. */
  lemma QueriesLead(s: System, t: nat, ops: seq<Op>, trackingRead: bool, audioRead: bool, gestureRead: bool,
          save: Save)
    requires Core(s) && Stands(s, t, ops, Querying(0, None, None)) && ops != [] && s.proc.hid
    ensures Leads(s, [Query(t, trackingRead)] + [Query(t, audioRead)] + ([Query(t, gestureRead)] + [TakeOver(t, save)]),
                  Adopted(s.proc, ReadBack(s.cam.device, trackingRead, audioRead, gestureRead), save), s.cam.device,
                  AtOps(s.threads, t, ops[1..]))
  {
    hide Core, Adopted, Runs, After;
    var d, ths := s.cam.device, AtOps(s.threads, t, ops[1..]);
    var c := if trackingRead then Some(d.tracking) else None;
    var a := if audioRead then Some(d.audio) else None;
    var e1, e2 := Query(t, trackingRead), Query(t, audioRead);
    OneQuery(s, t, ops, Querying(0, None, None), trackingRead);
    var s1 := Apply(s, e1);
    OneQuery(s1, t, ops, Querying(1, c, None), audioRead);
    var s2 := Apply(s1, e2);
    FinishLeads(s2, t, ops, c, a, gestureRead, save);
    assert AtOps(s2.threads, t, ops[1..]) == ths;
    hide Apply, Enabled;
    RunsConcat(s, [e1], [e2]);
    Then(s, [e1] + [e2], [Query(t, gestureRead)] + [TakeOver(t, save)],
         Adopted(s.proc, ReadBack(d, trackingRead, audioRead, gestureRead), save), d, ths);
  }

  // ---------------------------------------------------------------------
  // Writing
  // ---------------------------------------------------------------------

  /** The re-assert that a mode write asks for starts as one more thread. */
  function WithAgain(threads: ThreadMap, r: nat, again: Option<CameraState>): ThreadMap {
    if again.Some? then threads[r := Delayed(again.value)] else threads
  }

  lemma SetKeepsArmed(p: Proc, d: Device, op: Op, w: Weather)
    requires op.Set?
    ensures SetState(p, d, op, w).p.armed == p.armed
  {
    hide Written, WriteOk, WithMode;
  }

  lemma LookLeads(s: System, t: nat, op: Op, rest: seq<Op>, r: nat)
    requires Core(s) && Stands(s, t, [op] + rest, TrapCheck) && op.Set? && r !in s.threads
    ensures var mode := CameraOfByte(op.mode);
            var again := if mode != Privacy && s.proc.armed then Some(mode) else None;
            Leads(s, [TrapLook(t, r)], s.proc, s.cam.device, WithAgain(AtOps(s.threads, t, rest), r, again))
  {
    One(s, TrapLook(t, r));
    hide CamOk, HolderOk, Runs, After, CameraOfByte;
  }

  /** A tracking write, with the look at the trap window after a success. */
  lemma WriteLeads(s: System, t: nat, op: Op, rest: seq<Op>, w: Weather, r: nat)
    requires Core(s) && Stands(s, t, [op] + rest, Ready) && op.Set? && op.iface == IF_TRACKING && op.onFail == GoOn
    requires r !in s.threads
    ensures var p, a := s.proc, SetState(s.proc, s.cam.device, op, w);
            var mode := CameraOfByte(op.mode);
            var again := if a.ok && p.armed && mode != Privacy then Some(mode) else None;
            Leads(s, WriteEvents(p, s.cam.device, op, w, t, r), a.p, a.d,
                  WithAgain(AtOps(s.threads, t, rest), r, again))
  {
    var p, d := s.proc, s.cam.device;
    hide Core, Apply, Enabled, SetState, CameraOfByte, CallEvents, Runs, After;
    CalledAt(s, t, op, rest, w);
    var a, es := SetState(p, d, op, w), CallEvents(p, t, w);
    var u := After(s, es);
    if a.ok {
      assert AtOps(u.threads, t, rest) == AtOps(s.threads, t, rest);
      LookLeads(u, t, op, rest, r);
      var mode := CameraOfByte(op.mode);
      var again := if mode != Privacy && p.armed then Some(mode) else None;
      Then(s, es, [TrapLook(t, r)], a.p, a.d, WithAgain(AtOps(s.threads, t, rest), r, again));
    } else {
      assert es + [] == es;
    }
  }

  lemma CalledAt(s: System, t: nat, op: Op, rest: seq<Op>, w: Weather)
    requires Core(s) && Stands(s, t, [op] + rest, Ready) && op.Set? && op.iface == IF_TRACKING && op.onFail == GoOn
    ensures var a := SetState(s.proc, s.cam.device, op, w);
            && Leads(s, CallEvents(s.proc, t, w), a.p, a.d,
                     s.threads[t := if a.ok then Holding(None, [op] + rest, TrapCheck) else Holding(None, rest, Ready)])
            && a.p.armed == s.proc.armed
  {
    hide Core, SetState, CallEvents, Runs, After, AfterBelieve, Done;
    SetKeepsArmed(s.proc, s.cam.device, op, w);
    CallIsRun(s, t, w);
    CoreRuns(s, CallEvents(s.proc, t, w));
    WriteThreads(s.threads, t, op, rest);
  }

  lemma WriteThreads(threads: ThreadMap, t: nat, op: Op, rest: seq<Op>)
    requires t in threads && threads[t] == Holding(None, [op] + rest, Ready)
    requires op.Set? && op.iface == IF_TRACKING && op.onFail == GoOn
    ensures AfterBelieve(threads, t) == threads[t := Holding(None, [op] + rest, TrapCheck)]
    ensures Done(threads, t, true) == AtOps(threads, t, rest)
  {
  }

  lemma {:induction false} SkipAll(reports: seq<seq<Byte>>, rest: seq<Op>)
    requires rest == [] || !rest[0].Motor?
    ensures Rest(SkipMotors, MotorOps(reports) + rest) == rest
    decreases |reports|
  {
    var ops := MotorOps(reports) + rest;
    if reports != [] {
      assert ops[0] == Motor(reports[0], SkipMotors) && ops[1..] == MotorOps(reports[1..]) + rest;
      SkipAll(reports[1..], rest);
    } else {
      assert ops == rest;
    }
  }

  lemma MotorOpsAre(reports: seq<seq<Byte>>, rest: seq<Op>)
    ensures if reports == [] then MotorOps(reports) + rest == rest
            else MotorOps(reports) + rest == [Motor(reports[0], SkipMotors)] + (MotorOps(reports[1..]) + rest)
  {
  }

  /** One motor report; after a failure nothing is left of the other speeds. */
  lemma MotorLeads(s: System, t: nat, report: seq<Byte>, later: seq<Op>, rest: seq<Op>, link: Link, probe: Probe)
    requires Core(s) && Stands(s, t, [Motor(report, SkipMotors)] + later, Ready) && Rest(SkipMotors, later) == rest
    ensures var r := SendSet(s.proc, s.cam.device, report, link, probe);
            Leads(s, MotorEvents(s.proc, s.cam.device, report, t, link, probe), r.p, r.d,
                  AtOps(s.threads, t, if r.ok then later else rest))
  {
    hide Core, SendSet, MotorEvents, Runs, After;
    MotorCallIsRun(s, t, link, probe);
    CoreRuns(s, MotorEvents(s.proc, s.cam.device, report, t, link, probe));
  }

  /** The speeds, up to the first that fails; the rest of them are skipped. */
  lemma {:induction false} MotorsLead(s: System, t: nat, reports: seq<seq<Byte>>, rest: seq<Op>, links: nat -> Link,
          probe: Probe, k: nat)
    requires Core(s) && Stands(s, t, MotorOps(reports) + rest, Ready) && rest != [] && !rest[0].Motor?
    ensures var b := SendSpeeds(s.proc, s.cam.device, reports, links, probe, k);
            Leads(s, MotorsEvents(s.proc, s.cam.device, reports, links, probe, k, t), b.p, b.d,
                  AtOps(s.threads, t, rest))
    decreases |reports|
  {
    var p, d := s.proc, s.cam.device;
    MotorOpsAre(reports, rest);
    if reports == [] {
      assert AtOps(s.threads, t, rest) == s.threads;
      assert Runs(s, []) && After(s, []) == s;
      CoreHolder(s, t);
    } else {
      hide Core, SendSet, MotorEvents, Runs, After, MotorOps, Rest;
      var later := MotorOps(reports[1..]) + rest;
      SkipAll(reports[1..], rest);
      MotorLeads(s, t, reports[0], later, rest, links(k), probe);
      var r := SendSet(p, d, reports[0], links(k), probe);
      var es := MotorEvents(p, d, reports[0], t, links(k), probe);
      if r.ok {
        var u := After(s, es);
        assert AtOps(u.threads, t, rest) == AtOps(s.threads, t, rest);
        MotorsLead(u, t, reports[1..], rest, links, probe, k + 1);
        var b := SendSpeeds(p, d, reports, links, probe, k);
        Then(s, es, MotorsEvents(r.p, r.d, reports[1..], links, probe, k + 1, t), b.p, b.d, AtOps(s.threads, t, rest));
      } else {
        assert es + [] == es;
      }
    }
  }

  lemma CoreHolder(s: System, t: nat)
    requires Core(s) && t in s.threads && s.threads[t].Holding?
    ensures s.hidMu == Some(t)
  {
    Acting(s.threads, s.hidMu, t);
  }

  // ---------------------------------------------------------------------
  // The whole call
  // ---------------------------------------------------------------------

  /** What is left of a reconcile that has read the mode: the write where it is needed, the speeds, the rest. */
  lemma RestoreIsRun(s: System, t: nat, rest: seq<Op>, env: Surroundings, r: nat)
    requires Core(s) && s.proc.video && s.proc.intent && s.proc.hid && env.answered && s.proc.belief.camera != Offline
    requires Stands(s, t, ReconcilePlan(s.cam.device.tracking, s.proc.belief.camera, env.speeds) + rest, Ready)
    requires r !in s.threads
    ensures var c := ReconcileSpec(s.proc, s.cam.device, env);
            var es := RestoreEvents(s.proc, s.cam.device, env, t, r);
            if c.alive then Leads(s, es, c.p, c.d, WithAgain(AtOps(s.threads, t, rest), r, c.again))
            else Falls(s, es, c.p, c.d)
  {
    var p, d := s.proc, s.cam.device;
    var camera, last := p.belief.camera, [Adopt] + rest;
    var plan := ReconcilePlan(d.tracking, camera, env.speeds) + rest;
    hide Core, SetState, SendSpeeds, AdoptedFrom, MotorsEvents, AdoptEvents, WriteEvents, MotorOps, Runs, After;
    if d.tracking == camera {
      assert plan == MotorOps(env.speeds) + last;
      SpeedsThenAdopt(s, t, rest, env);
    } else {
      var op := TrackingWrite(camera);
      assert plan == [op] + (MotorOps(env.speeds) + last);
      var a, es := SetState(p, d, op, env.weather), WriteEvents(p, d, op, env.weather, t, r);
      WriteLeads(s, t, op, MotorOps(env.speeds) + last, env.weather, r);
      var u := After(s, es);
      assert CameraOfByte(op.mode) == camera;
      var again := if a.ok && p.armed && camera != Privacy then Some(camera) else None;
      var ths := WithAgain(AtOps(s.threads, t, rest), r, again);
      assert AtOps(u.threads, t, rest) == ths;
      SpeedsThenAdopt(u, t, rest, env);
      var b := SendSpeeds(a.p, a.d, env.speeds, env.links, env.probe, 0);
      var q := AdoptedFrom(b.p, b.d, env.audioRead, env.gestureRead, env.save);
      var more := MotorsEvents(a.p, a.d, env.speeds, env.links, env.probe, 0, t) + AdoptEvents(b.p, env, t);
      Then(s, es, more, if b.p.hid then q else b.p, b.d, ths);
    }
  }

  lemma SpeedsThenAdopt(s: System, t: nat, rest: seq<Op>, env: Surroundings)
    requires Core(s) && Stands(s, t, MotorOps(env.speeds) + ([Adopt] + rest), Ready)
    ensures var b := SendSpeeds(s.proc, s.cam.device, env.speeds, env.links, env.probe, 0);
            var es := MotorsEvents(s.proc, s.cam.device, env.speeds, env.links, env.probe, 0, t)
                      + AdoptEvents(b.p, env, t);
            if b.p.hid then
              Leads(s, es, AdoptedFrom(b.p, b.d, env.audioRead, env.gestureRead, env.save), b.d,
                    AtOps(s.threads, t, rest))
            else Falls(s, es, b.p, b.d)
  {
    var b := SendSpeeds(s.proc, s.cam.device, env.speeds, env.links, env.probe, 0);
    var es := MotorsEvents(s.proc, s.cam.device, env.speeds, env.links, env.probe, 0, t);
    MotorsLead(s, t, env.speeds, [Adopt] + rest, env.links, env.probe, 0);
    var u := After(s, es);
    hide Core, SendSpeeds, AdoptedFrom, MotorsEvents, AdoptEvents, MotorOps, Runs, After;
    assert AtOps(u.threads, t, rest) == AtOps(s.threads, t, rest);
    AdoptEnds(u, t, rest, env);
    var q := AdoptedFrom(b.p, b.d, env.audioRead, env.gestureRead, env.save);
    Then(s, es, AdoptEvents(b.p, env, t), if b.p.hid then q else b.p, b.d, AtOps(s.threads, t, rest));
  }

  lemma BeginLeads(s: System, t: nat, rest: seq<Op>)
    requires Core(s) && Stands(s, t, [Reconcile] + rest, Ready)
    ensures Leads(s, [BeginReconcile(t)], s.proc, s.cam.device,
                  AtOps(s.threads, t, if s.proc.video then [Intended] + rest else rest))
  {
    One(s, BeginReconcile(t));
    hide CamOk, HolderOk, Runs, After;
  }

  lemma IntentLeads(s: System, t: nat, rest: seq<Op>)
    requires Core(s) && Stands(s, t, [Intended] + rest, Ready)
    ensures Leads(s, [CheckIntent(t)], s.proc, s.cam.device,
                  AtOps(s.threads, t, [if s.proc.intent then Restore else Sync(false)] + rest))
  {
    One(s, CheckIntent(t));
    hide CamOk, HolderOk, Runs, After;
  }

  lemma AskLeads(s: System, t: nat, rest: seq<Op>, answered: bool, speeds: seq<seq<Byte>>)
    requires Core(s) && Stands(s, t, [Restore] + rest, Ready) && MotorReports(speeds)
    ensures var p, d, es := s.proc, s.cam.device, [BeginRestore(t, answered, speeds)];
            if !p.hid then Falls(s, es, p, d)
            else Leads(s, es, p, d, AtOps(s.threads, t,
                   if answered then ReconcilePlan(d.tracking, p.belief.camera, speeds) + rest else rest))
  {
    One(s, BeginRestore(t, answered, speeds));
    hide CamOk, HolderOk, Runs, After, ReconcilePlan;
  }

  /**
    The reconcile does what its steps do: undisturbed, that run of the state
    machine can be taken and ends in the call's fields and its camera. It brings
    the daemon down exactly when the call does; otherwise the reconcile is over, the
    rest of the plan is left, and a re-assert is under way exactly when the call
    asks for one.
  */
  lemma ReconcileIsRun(s: System, t: nat, rest: seq<Op>, env: Surroundings, r: nat)
    requires Core(s) && Stands(s, t, [Reconcile] + rest, Ready) && r !in s.threads
    requires s.proc.belief.camera != Offline && MotorReports(env.speeds)
    ensures var es := ReconcileEvents(s.proc, s.cam.device, env, t, r);
            && Runs(s, es)
            && var u, c := After(s, es), ReconcileSpec(s.proc, s.cam.device, env);
            && u.proc == c.p && u.cam.device == c.d && (u.panicked <==> !c.alive)
            && (c.alive ==> u.hidMu == s.hidMu && u.threads == WithAgain(AtOps(s.threads, t, rest), r, c.again))
  {
    var p, d := s.proc, s.cam.device;
    hide Core, ReconcilePlan, RestoreEvents, SyncEvents, SyncSpec, Runs, After;
    BeginLeads(s, t, rest);
    var e1, e2 := [BeginReconcile(t)], [CheckIntent(t)];
    if p.video {
      var s1 := After(s, e1);
      IntentLeads(s1, t, rest);
      var s2 := After(s1, e2);
      RunsConcat(s, e1, e2);
      assert AtOps(s2.threads, t, rest) == AtOps(s.threads, t, rest);
      if p.intent {
        IntendedIsRun(s2, t, rest, env, r);
        var more := [BeginRestore(t, env.answered, env.speeds)]
                    + if p.hid && env.answered then RestoreEvents(p, d, env, t, r) else [];
        RunsConcat(s, e1 + e2, more);
      } else {
        SyncIsRun(s2, t, Sync(false), rest, env.answered, env.audioRead, env.gestureRead, env.save);
        RunsConcat(s, e1 + e2, SyncEvents(p, env.answered, env.audioRead, env.gestureRead, env.save, t));
      }
    }
  }

  lemma IntendedIsRun(s: System, t: nat, rest: seq<Op>, env: Surroundings, r: nat)
    requires Core(s) && Stands(s, t, [Restore] + rest, Ready) && r !in s.threads
    requires s.proc.belief.camera != Offline && MotorReports(env.speeds) && s.proc.video && s.proc.intent
    ensures var p, d := s.proc, s.cam.device;
            var es := [BeginRestore(t, env.answered, env.speeds)]
                      + if p.hid && env.answered then RestoreEvents(p, d, env, t, r) else [];
            var c := ReconcileSpec(p, d, env);
            if c.alive then Leads(s, es, c.p, c.d, WithAgain(AtOps(s.threads, t, rest), r, c.again))
            else Falls(s, es, c.p, c.d)
  {
    var p, d := s.proc, s.cam.device;
    hide Core, ReconcilePlan, RestoreEvents, MotorReports;
    AskLeads(s, t, rest, env.answered, env.speeds);
    var e := [BeginRestore(t, env.answered, env.speeds)];
    assert e + [] == e;
    if p.hid && env.answered {
      var u := After(s, e);
      assert AtOps(u.threads, t, rest) == AtOps(s.threads, t, rest);
      RestoreIsRun(u, t, rest, env, r);
      var c := ReconcileSpec(p, d, env);
      hide ReconcileSpec, Runs, After;
      Then(s, e, RestoreEvents(p, d, env, t, r), c.p, c.d, WithAgain(AtOps(s.threads, t, rest), r, c.again));
    }
  }

  // ---------------------------------------------------------------------
  // What a reconcile comes to
  // ---------------------------------------------------------------------

  /** A mode write leaves everything of the camera but that mode and what is pending. */
  lemma WriteFrame(p: Proc, d: Device, mode: CameraState, w: Weather)
    requires mode != Offline && Stable(d)
    ensures var e := SetState(p, d, TrackingWrite(mode), w).d;
            e == d.(pending := e.pending, tracking := if Guard(p) && Lands(w) then mode else d.tracking)
  {
    var op := TrackingWrite(mode);
    hide Written, WriteOk, Config, Commit, Stable, StruckAndProbed, Struck, Believed;
    TwoReports(d, op, w.config, w.commit);
    assert CameraOfByte(CameraByte(mode)) == mode;
  }

  /** Intent stays; the file has the new belief after a completed save and is kept otherwise. */
  lemma WriteBelief(p: Proc, d: Device, mode: CameraState, w: Weather)
    requires mode != Offline && p.intent
    ensures var r := SetState(p, d, TrackingWrite(mode), w);
            && r.p.intent && r.p.belief == (if r.ok then p.belief.(camera := mode) else p.belief)
  {
    hide Written, WriteOk;
  }

  /** What was taken over is on file if its save completed. */
  lemma AdoptedIs(p: Proc, d: Device, env: Surroundings)
    requires p.intent
    ensures var q := AdoptedFrom(p, d, env.audioRead, env.gestureRead, env.save);
            && q.belief == Belief(p.belief.camera, if env.audioRead then d.audio else p.belief.audio,
                                  if env.gestureRead then d.gesture else p.belief.gesture)
            && q.intent && q.hid == p.hid
            && q.file == (if q.belief != p.belief && env.save == Saved then Some(FileOf(q.belief)) else p.file)
  {
  }

  /** What the mode write of a reconcile leaves, made only where the hardware differs. */
  function Rewritten(p: Proc, d: Device, w: Weather): CallResult {
    if d.tracking == p.belief.camera then CallResult(p, d, true)
    else SetState(p, d, TrackingWrite(p.belief.camera), w)
  }

  lemma RewrittenIs(p: Proc, d: Device, w: Weather)
    requires p.intent && p.belief.camera != Offline && Stable(d)
    ensures var a := Rewritten(p, d, w);
            var lands := d.tracking == p.belief.camera || (Guard(p) && Lands(w));
            && a.p.belief == p.belief && a.p.intent
            && a.d == d.(pending := a.d.pending, tracking := if lands then p.belief.camera else d.tracking)
  {
    hide SetState, Stable, Guard, Lands;
    WriteFrame(p, d, p.belief.camera, w);
    WriteBelief(p, d, p.belief.camera, w);
    assert p.belief.(camera := p.belief.camera) == p.belief;
  }

  lemma InThreeParts(p: Proc, d: Device, env: Surroundings)
    requires p.intent && p.video && p.hid && env.answered
    ensures var r, a := ReconcileSpec(p, d, env), Rewritten(p, d, env.weather);
            var b := SendSpeeds(a.p, a.d, env.speeds, env.links, env.probe, 0);
            && r.d == b.d && r.alive == b.p.hid
            && r.p == if b.p.hid then AdoptedFrom(b.p, b.d, env.audioRead, env.gestureRead, env.save) else b.p
  {
    hide SetState, SendSpeeds, AdoptedFrom;
  }

  /** The daemon's speeds: they change the motor speeds and nothing else, and no belief, intent or file. */
  lemma SpeedsSent(p: Proc, d: Device, speeds: Axes, links: nat -> Link, probe: Probe)
    ensures var r, s := SendSpeeds(p, d, SpeedReports(speeds), links, probe, 0),
                        Transmit(d, SpeedReports(speeds), links, 0);
            && r.d == (if Guard(p) then s.device else d)
            && r.p.belief == p.belief && r.p.intent == p.intent && r.p.file == p.file
  {
    hide SendSpeeds, Transmit, SpeedReports, MotorReports, Legacy, Guard;
    SpeedsAreMotorReports(speeds);
    SpeedsKeep(p, d, SpeedReports(speeds), links, probe, 0);
    if SpeedReports(speeds) != [] {
      SendsAreTransfers(p, d, SpeedReports(speeds), links, probe, 0);
    } else {
      NothingIsSent(p, d, links, probe);
      NothingSent(d, links, 0);
    }
  }

  lemma NothingIsSent(p: Proc, d: Device, links: nat -> Link, probe: Probe)
    ensures SendSpeeds(p, d, [], links, probe, 0) == CallResult(p, d, true)
  {
  }

  /**
    What a reconcile with persisted intent does, when the camera answers. The
    camera has the believed mode if it had it before or both reports of the write
    reached it. Each motor has its own preferred speed under the conditions of
    `SpeedsArrive` while the guard holds after the write, and keeps its speed
    otherwise; nothing else of the camera changes but what is pending. Audio and
    gesture are believed as the camera has them where they could be read and as
    before where not; the camera mode is believed as before. What was taken over is
    on file if its save completed; with nothing to take over the file is as the
    write left it. The call fails to end exactly when the handle is gone by then,
    and then nothing is taken over.
  */
  lemma ReconcileEffect(p: Proc, d: Device, env: Surroundings, speeds: Axes)
    requires p.intent && p.video && p.hid && env.answered && p.belief.camera != Offline && Stable(d)
    requires env.speeds == SpeedReports(speeds)
    ensures var r, a := ReconcileSpec(p, d, env), Rewritten(p, d, env.weather).p;
            var arrived := Transmit(d, SpeedReports(speeds), env.links, 0).device.motorSpeed;
            var lands := d.tracking == p.belief.camera || (Guard(p) && Lands(env.weather));
            && r.d == d.(tracking := if lands then p.belief.camera else d.tracking, pending := r.d.pending,
                         motorSpeed := if Guard(a) then arrived else d.motorSpeed)
            && r.p.belief == Belief(p.belief.camera,
                                    if r.alive && env.audioRead then d.audio else p.belief.audio,
                                    if r.alive && env.gestureRead then d.gesture else p.belief.gesture)
            && r.p.intent
            && r.p.file == (if r.p.belief != p.belief && env.save == Saved then Some(FileOf(r.p.belief)) else a.file)
            && (r.alive <==> r.p.hid)
  {
    hide SetState, SendSpeeds, Transmit, SpeedReports, Stable, Guard, Lands, FileOf, AdoptedFrom;
    hide ReconcileSpec, Rewritten;
    RewrittenIs(p, d, env.weather);
    InThreeParts(p, d, env);
    var a := Rewritten(p, d, env.weather);
    SpeedsSent(a.p, a.d, speeds, env.links, env.probe);
    SpeedsIgnoreModes(d, a.d, speeds, env.links);
    var b := SendSpeeds(a.p, a.d, env.speeds, env.links, env.probe, 0);
    AdoptedIs(b.p, b.d, env);
  }

  /** What the speeds become does not depend on modes or what is pending. */
  lemma SpeedsIgnoreModes(d: Device, e: Device, speeds: Axes, links: nat -> Link)
    requires e.motorSpeed == d.motorSpeed
    ensures var s, t := Transmit(d, SpeedReports(speeds), links, 0), Transmit(e, SpeedReports(speeds), links, 0);
            s.device.motorSpeed == t.device.motorSpeed && t.device == e.(motorSpeed := s.device.motorSpeed)
  {
    hide Transmit, SpeedReports, IsPreference;
    SpeedsArrive(d, speeds, links, 0);
    SpeedsArrive(e, speeds, links, 0);
  }

  /**
    A reconcile asks for a re-assert exactly when it had to write the mode, the
    write succeeded with the trap armed and the mode is not privacy; always of the
    believed mode.
  */
  lemma ReconcileAgain(p: Proc, d: Device, env: Surroundings)
    requires p.belief.camera != Offline && Stable(d)
    ensures ReconcileSpec(p, d, env).again
            == if p.video && p.intent && p.hid && env.answered && d.tracking != p.belief.camera && p.count < 3
                  && Calm(env.weather) && p.armed && p.belief.camera != Privacy
               then Some(p.belief.camera) else None
  {
    hide SetState, SendSpeeds, AdoptedFrom, Stable;
    SetStateEffect(p, d, TrackingWrite(p.belief.camera), env.weather);
  }

  /** Without a camera, a handle or an answer a reconcile with intent changes nothing; only the handle matters to it. */
  lemma ReconcileRefused(p: Proc, d: Device, env: Surroundings)
    requires p.intent && !(p.video && p.hid && env.answered)
    ensures ReconcileSpec(p, d, env) == Reconciled(p, d, !p.video || p.hid, None)
  {
  }

  /** A fresh install takes over what can be read, writes nothing to the camera and always ends. */
  lemma FreshReconcile(p: Proc, d: Device, env: Surroundings)
    requires !p.intent && d.tracking != Offline
    ensures var r := ReconcileSpec(p, d, env);
            var sees := p.video && p.hid && p.count < 3;
            && r.d == d && r.alive && r.again == None
            && r.p.belief == Belief(if sees && env.answered then d.tracking else p.belief.camera,
                                    if sees && env.audioRead then d.audio else p.belief.audio,
                                    if sees && env.gestureRead then d.gesture else p.belief.gesture)
            && (r.p.belief == p.belief ==> r.p == p)
            && (r.p.belief != p.belief && env.save == Saved ==> r.p.intent && r.p.file == Some(FileOf(r.p.belief)))
  {
    SyncEffect(p, d, env.answered, env.audioRead, env.gestureRead, env.save);
    hide FileOf, SyncSpec;
  }
}
