/** The main results about every run of the daemon and the camera. */
module DaemonTheorems {
  import opened Base
  import opened PixyWire
  import opened PixyDevice
  import opened Presets
  import opened DaemonSystem
  import opened DaemonSafety

  // ---------------------------------------------------------------------
  // Commits and belief
  // ---------------------------------------------------------------------

  /**
    In every interleaving, each mode the camera applied was configured by the same
    call whose commit applied it and is the mode that call asked for, whatever
    stale configs cancelled and failed calls left behind.
  */
  lemma EveryCommitIsOwn(s: System, es: seq<Event>, found: Option<StateFile>)
    requires Started(s, found) && Runs(s, es)
    ensures forall a <- After(s, es).cam.applied :: a.configuredBy == a.committedBy && a.mode == a.asked
  {
    StartedInv(s, found);
    InvRuns(s, es, found);
    hide Runs, Started;
  }

  /** How many configs are sent. */
  function Configs(es: seq<Event>): nat {
    if es == [] then 0 else (if es[0].SendConfig? then 1 else 0) + Configs(es[1..])
  }

  /**
    Every call that sends a config gets the next number, and the config pending there
    becomes its own if anything reaches the camera; nothing else gives numbers.
  */
  lemma CallsAreNumbered(s: System, e: Event)
    requires Core(s) && Enabled(s, e)
    ensures var c, u := s.cam, Apply(s, e).cam;
            && u.calls == c.calls + (if e.SendConfig? then 1 else 0)
            && (e.SendConfig? ==>
                  && (Apply(s, e).threads[e.t].stage == WriteFailed
                      || Apply(s, e).threads[e.t].stage == Configured(c.calls))
                  && (u.device != c.device ==> u.pendingBy == c.pendingBy[OpAt(s, e.t).iface := c.calls]))
            && (!e.SendConfig? && !e.SendCommit? && !e.PowerCycle? ==> u.pendingBy == c.pendingBy)
  {
    hide Proper, CamOk, HolderOk, PlanOk, Receive, Sent, Rest, MotorReports, ReconcilePlan, Believed, Adopted, Probed,
         StruckAndProbed, Booted, AfterLook, AfterBelieve, AfterTimer, AfterProbe;
  }

  /**
    A commit that changes the camera is recorded: the interface, the mode that was
    pending, the call that configured it, the call that commits, and what that asked
    for. Nothing else is.
  */
  lemma CommitsAreRecorded(s: System, e: Event)
    requires Core(s) && Enabled(s, e)
    ensures Apply(s, e).cam.applied != s.cam.applied ==> e.SendCommit?
    ensures e.SendCommit? ==>
              var c, u, op := s.cam, Apply(s, e).cam, OpAt(s, e.t);
              && StageAt(s, e.t).Configured? && op.Set?
              && (u == c
                  || (op.iface in c.device.pending && op.iface in c.pendingBy
                      && u.applied == c.applied + [Entry(op.iface, c.device.pending[op.iface], c.pendingBy[op.iface],
                                                      StageAt(s, e.t).call, op.mode)]
                      && op.iface !in u.pendingBy))
  {
    if e.SendCommit? {
      Acting(s.threads, s.hidMu, e.t);
      assert StageOk(s.cam, s.proc.count, OpAt(s, e.t), StageAt(s, e.t));
    }
    hide Proper, PlanOk, Receive, Sent, Rest, MotorReports, ReconcilePlan, Believed, Adopted, Probed,
         StruckAndProbed, Booted, AfterLook, AfterBelieve, AfterTimer, AfterProbe;
  }

  /** So no two calls of a run share a number: a call's is the one before the run and the configs sent before it. */
  lemma {:induction false} CallNumbers(s: System, es: seq<Event>, k: nat)
    requires Core(s) && Runs(s, es) && k < |es| && es[k].SendConfig?
    ensures Runs(s, es[..k + 1])
    ensures var u := After(s, es[..k + 1]);
            && u.cam.calls == s.cam.calls + Configs(es[..k]) + 1
            && es[k].t in u.threads && u.threads[es[k].t].Holding?
            && var stage := u.threads[es[k].t].stage;
               stage == WriteFailed || stage == Configured(s.cam.calls + Configs(es[..k]))
  {
    RunsAt(s, es, k);
    CallsCounted(s, es[..k]);
    var u := After(s, es[..k]);
    CallsAreNumbered(u, es[k]);
    StillHolding(u, es[k]);
    hide Core, Apply, Enabled, Runs, After;
  }

  lemma StillHolding(s: System, e: Event)
    requires Core(s) && Enabled(s, e) && e.SendConfig?
    ensures e.t in Apply(s, e).threads && Apply(s, e).threads[e.t].Holding?
  {
    hide Core, ConfigArrives, ConfigOk;
  }

  lemma {:induction false} CallsCounted(s: System, es: seq<Event>)
    requires Core(s) && Runs(s, es)
    ensures After(s, es).cam.calls == s.cam.calls + Configs(es)
    decreases |es|
  {
    if es != [] {
      CallsAreNumbered(s, es[0]);
      CoreStep(s, es[0]);
      hide Core, Apply, Enabled;
      CallsCounted(Apply(s, es[0]), es[1..]);
    }
  }

  /** A reconcile comes of a probe exactly when it finds a video node where there was none. */
  lemma ReconcileStarts(s: System, t: nat, r: Probe)
    requires Core(s) && Enabled(s, HolderProbe(t, r))
    ensures Apply(s, HolderProbe(t, r)).threads
            == if r.video && !s.proc.video then s.threads[t := Holding(None, [Reconcile] + s.threads[t].ops, Ready)]
               else s.threads
  {
    hide Core, Probed;
  }

  /** Refused: a write, a motor report or a sync without a handle or after three strikes, a sync without video. */
  lemma RefusesExactly(s: System, t: nat)
    requires Core(s)
    ensures Enabled(s, Refuse(t))
            <==> && !s.panicked && t in s.threads && s.threads[t].Holding? && s.threads[t].ops != []
                 && var op, stage := s.threads[t].ops[0], s.threads[t].stage;
                    || (stage == Ready && (op.Set? || op.Motor? || op.Sync?) && (!s.proc.hid || s.proc.count >= 3))
                    || (stage == Guarded && !s.proc.video)
  {
    hide Core;
  }

  /** A daemon that went down does nothing until it is restarted; the camera may lose power meanwhile. */
  lemma DownStaysDown(s: System, e: Event)
    requires Core(s) && s.panicked && Enabled(s, e)
    ensures e.Restart? || (e.PowerCycle? && Apply(s, e).panicked && Apply(s, e).proc == s.proc)
  {
    hide Core, Booted;
  }

  function BeliefByte(b: Belief, iface: Byte): Byte {
    if iface == IF_TRACKING then CameraByte(b.camera)
    else if iface == IF_AUDIO then AudioByte(b.audio)
    else if b.gesture then 1 else 0
  }

  /**
    Belief moves only by a committed write, by taking over what was read, or at a
    restart; a write moves its own mode only, to what the call asked, which is what
    the camera is committed to unless it was power-cycled since the commit.
  */
  lemma BeliefMoves(s: System, e: Event, found: Option<StateFile>)
    requires Inv(s, found) && Enabled(s, e)
    ensures var u := Apply(s, e);
            u.proc.belief != s.proc.belief ==> e.Believe? || e.TakeOver? || e.Restart?
    ensures e.Believe? ==>
              var op, stage := OpAt(s, e.t), StageAt(s, e.t);
              var b := Apply(s, e).proc.belief;
              && op.Set? && stage.Committed? && ValidInterface(op.iface)
              && BeliefByte(b, op.iface) == op.mode
              && (forall j :: ValidInterface(j) && j != op.iface ==> BeliefByte(b, j) == BeliefByte(s.proc.belief, j))
              && (stage.epoch == s.cam.epoch ==> ModeByte(Apply(s, e).cam.device, op.iface) == op.mode)
  {
    if e.Believe? {
      BelieveMoves(s, e.t, e.save);
    }
    hide Inv, StageOk, Proper, PlanOk, ConfigArrives, CommitArrives, MotorArrives, ConfigOk, CommitOk, MotorOk, Done,
         At, AfterBelieve, AfterLook, AfterTimer, AfterProbe, Instead, ReconcilePlan, Booted, Adopted, BeliefByte,
         ModeByte, WithMode;
  }

  lemma BelieveMoves(s: System, t: nat, save: Save)
    requires Core(s) && Enabled(s, Believe(t, save))
    ensures var op, stage := OpAt(s, t), StageAt(s, t);
            && op.Set? && stage.Committed? && OpOk(op)
            && var b := Believed(s.proc, op, save).belief;
            && BeliefByte(b, op.iface) == op.mode
            && (forall j :: ValidInterface(j) && j != op.iface ==> BeliefByte(b, j) == BeliefByte(s.proc.belief, j))
            && (stage.epoch == s.cam.epoch ==> ModeByte(s.cam.device, op.iface) == op.mode)
  {
    Acting(s.threads, s.hidMu, t);
    assert StageOk(s.cam, s.proc.count, OpAt(s, t), StageAt(s, t));
  }

  // ---------------------------------------------------------------------
  // Belief and camera agree
  // ---------------------------------------------------------------------

  /** No power cycle, no crash, and no commit that arrives although its write is reported failed. */
  predicate Clean(e: Event) {
    !(e.PowerCycle? || e.Restart? || (e.SendCommit? && e.link == Unconfirmed))
  }

  datatype Owing = Nothing | Owes(iface: Byte, mode: Byte)

  /** The interface whose commit has been delivered and whose belief is about to follow, with its mode. */
  function Owed(threads: ThreadMap, hidMu: Option<nat>): Owing {
    if hidMu.Some? && Busy(threads, hidMu.value) && threads[hidMu.value].stage.Committed?
       && threads[hidMu.value].ops[0].Set?
    then Owes(threads[hidMu.value].ops[0].iface, threads[hidMu.value].ops[0].mode)
    else Nothing
  }

  /** Every mode of the camera is the believed one, except one that is just being committed. */
  ghost predicate Agree(d: Device, b: Belief, owed: Owing) {
    forall j :: ValidInterface(j) ==>
      ModeByte(d, j) == if owed.Owes? && owed.iface == j then owed.mode else BeliefByte(b, j)
  }

  /** What was read is still what the camera has. */
  predicate Fresh(d: Device, stage: Stage) {
    stage.Querying? || stage.Queried? ==>
      && (stage.camera.Some? ==> stage.camera.value == d.tracking)
      && (stage.audio.Some? ==> stage.audio.value == d.audio)
      && (stage.Queried? && stage.gesture.Some? ==> stage.gesture.value == d.gesture)
  }

  ghost predicate FreshlyRead(d: Device, threads: ThreadMap, hidMu: Option<nat>) {
    hidMu.Some? && Busy(threads, hidMu.value) ==> Fresh(d, threads[hidMu.value].stage)
  }

  ghost predicate Coherent(s: System) {
    Agree(s.cam.device, s.proc.belief, Owed(s.threads, s.hidMu)) && FreshlyRead(s.cam.device, s.threads, s.hidMu)
  }

  lemma CommitAgrees(c: Cam, b: Belief, op: Op, call: nat, link: Link)
    requires CamOk(c) && op.Set? && OpOk(op) && StageOk(c, 0, op, Configured(call)) && Agree(c.device, b, Nothing)
    requires link != Unconfirmed
    ensures Agree(CommitArrives(c, op, call, link).device, b,
                  if CommitOk(c, op, link) then Owes(op.iface, op.mode) else Nothing)
  {
    CommitOf(c, op, call, link);
    hide CommitArrives, CommitOk;
  }

  lemma TransferCoherent(s: System, e: Event)
    requires Core(s) && Enabled(s, e) && Clean(e) && Coherent(s) && (e.SendConfig? || e.SendCommit? || e.SendMotor?)
    ensures Coherent(Apply(s, e))
  {
    var t := e.t;
    Acting(s.threads, s.hidMu, t);
    var op, c, stage := OpAt(s, t), s.cam, StageAt(s, t);
    var u := Apply(s, e);
    hide Receive, Sent, ThreadOk, Proper, PlanOk, OpOk, ConfigArrives, CommitArrives, MotorArrives, ConfigOk, CommitOk,
         MotorOk, Agree, CamOk, BeliefByte;
    match e {
      case SendConfig(_, link) =>
        ConfigOf(c, op, link);
        SameModes(c.device, u.cam.device, s.proc.belief);
      case SendCommit(_, link) =>
        assert StageOk(c, 0, op, stage);
        CommitAgrees(c, s.proc.belief, op, stage.call, link);
      case SendMotor(_, link) =>
        MotorOf(c, op, link);
        SameModes(c.device, u.cam.device, s.proc.belief);
    }
  }

  lemma SameModes(d: Device, e: Device, b: Belief)
    requires d.tracking == e.tracking && d.audio == e.audio && d.gesture == e.gesture && Agree(d, b, Nothing)
    ensures Agree(e, b, Nothing)
  {
  }

  lemma BelieveCoherent(s: System, t: nat, save: Save)
    requires Core(s) && Enabled(s, Believe(t, save)) && Coherent(s)
    ensures Coherent(Apply(s, Believe(t, save)))
  {
    BelieveMoves(s, t, save);
    Acting(s.threads, s.hidMu, t);
    var op := OpAt(s, t);
    assert Agree(s.cam.device, s.proc.belief, Owes(op.iface, op.mode));
    var b := Believed(s.proc, op, save).belief;
    assert Agree(s.cam.device, b, Nothing) by { hide Believed, WithMode, BeliefByte; }
    var u := Apply(s, Believe(t, save));
    hide Agree, Believed, Rest, Proper, ThreadOk;
    assert Owed(u.threads, u.hidMu) == Nothing;
  }

  lemma TakeOverCoherent(s: System, t: nat, save: Save)
    requires Core(s) && Enabled(s, TakeOver(t, save)) && Coherent(s)
    ensures Coherent(Apply(s, TakeOver(t, save)))
  {
    Acting(s.threads, s.hidMu, t);
    var q := StageAt(s, t);
    var b := Adopted(s.proc, q, save).belief;
    assert b == TakenOver(s.proc.belief, q);
    assert Agree(s.cam.device, b, Nothing);
    var u := Apply(s, TakeOver(t, save));
    hide Agree, Adopted, Rest, Proper, ThreadOk;
    assert Owed(u.threads, u.hidMu) == Nothing;
  }

  /** The other steps change neither a mode nor belief, and start nothing that is owed. */
  lemma QuietStep(s: System, e: Event)
    requires Core(s) && Enabled(s, e) && Clean(e)
    requires !(e.SendConfig? || e.SendCommit? || e.SendMotor? || e.Believe? || e.TakeOver?)
    ensures var u := Apply(s, e);
            && u.cam == s.cam && u.proc.belief == s.proc.belief
            && Owed(u.threads, u.hidMu) == Owed(s.threads, s.hidMu)
            && (FreshlyRead(s.cam.device, s.threads, s.hidMu) ==> FreshlyRead(s.cam.device, u.threads, u.hidMu))
  {
    if HolderEvent(e) {
      QuietHolderStep(s, e);
    } else {
      QuietOtherStep(s, e);
    }
    hide *;
  }

  lemma QuietHolderStep(s: System, e: Event)
    requires Core(s) && Enabled(s, e) && HolderEvent(e)
    requires !(e.SendConfig? || e.SendCommit? || e.SendMotor? || e.Believe? || e.TakeOver?)
    ensures var u := Apply(s, e);
            && u.cam == s.cam && u.proc.belief == s.proc.belief
            && Owed(u.threads, u.hidMu) == Owed(s.threads, s.hidMu)
            && (FreshlyRead(s.cam.device, s.threads, s.hidMu) ==> FreshlyRead(s.cam.device, u.threads, u.hidMu))
  {
    Acting(s.threads, s.hidMu, e.t);
    hide Proper, ThreadOk, PlanOk, CamOk, HolderOk, Rest, MotorReports, ReconcilePlan;
  }

  lemma QuietOtherStep(s: System, e: Event)
    requires Core(s) && Enabled(s, e) && Clean(e) && !HolderEvent(e)
    ensures var u := Apply(s, e);
            && u.cam == s.cam && u.proc.belief == s.proc.belief
            && Owed(u.threads, u.hidMu) == Owed(s.threads, s.hidMu)
            && (FreshlyRead(s.cam.device, s.threads, s.hidMu) ==> FreshlyRead(s.cam.device, u.threads, u.hidMu))
  {
    if e.Unlock? {
      Acting(s.threads, s.hidMu, e.t);
    }
    if e.TimerFires? {
      assert ThreadOk(s.threads[e.t], s.hidMu == Some(e.t));
    }
    hide Proper, ThreadOk, PlanOk, CamOk, HolderOk, ReassertPlan, Fresh;
  }

  lemma CoherentStep(s: System, e: Event)
    requires Core(s) && Enabled(s, e) && Clean(e) && Coherent(s)
    ensures Coherent(Apply(s, e))
  {
    if e.SendConfig? || e.SendCommit? || e.SendMotor? {
      TransferCoherent(s, e);
    } else if e.Believe? {
      BelieveCoherent(s, e.t, e.save);
    } else if e.TakeOver? {
      TakeOverCoherent(s, e.t, e.save);
    } else {
      QuietStep(s, e);
      hide Apply, Core, Agree, FreshlyRead, Owed, Enabled;
    }
  }

  /**
    Over any run without power cycles, crashes and falsely reported commits, once
    belief and camera agree they agree for good: whatever was refused, lost,
    cancelled or left pending, every mode of the camera is the believed one except
    the one between its commit and its belief.
  */
  lemma {:induction false} CoherentRuns(s: System, es: seq<Event>)
    requires Core(s) && Runs(s, es) && Coherent(s) && forall e <- es :: Clean(e)
    ensures Coherent(After(s, es))
    decreases |es|
  {
    if es != [] {
      assert es[0] in es;
      CoreStep(s, es[0]);
      CoherentStep(s, es[0]);
      hide Apply, Core, Coherent, Enabled, Clean;
      CoherentRuns(Apply(s, es[0]), es[1..]);
    }
  }

  // ---------------------------------------------------------------------
  // The circuit breaker
  // ---------------------------------------------------------------------

  predicate Both(r: Probe) {
    r.hid && r.video
  }

  /** A failed send or commit is a strike, unless the re-probe after a failed send finds both nodes. */
  predicate IsStrike(e: Event) {
    e.StrikeCommit? || e.Strike?
  }

  /** A completed write, a probe of both nodes, or a new process. */
  predicate ClearsStrikes(e: Event) {
    match e
    case Believe(_, _) => true
    case MotorDone(_) => true
    case HolderProbe(_, r) => Both(r)
    case CmdProbe(r) => Both(r)
    case Restart(_, _) => true
    case _ => false
  }

  /**
    The strikes a run of events leaves: counted since the last clearing. The third
    strike is not followed by a re-probe, an earlier failed send is, and a re-probe
    that finds both nodes clears it and what was before.
  */
  function StrikesAfter(n: nat, es: seq<Event>): nat
    decreases |es|
  {
    if es == [] then n
    else
      var e := es[0];
      var m := if ClearsStrikes(e) then 0
               else if e.Strike? && n + 1 < BREAKER && Both(e.probe) then 0
               else if IsStrike(e) then n + 1
               else n;
      StrikesAfter(m, es[1..])
  }

  lemma CountStep(s: System, e: Event)
    requires Proper(s.threads, s.hidMu) && Enabled(s, e)
    ensures Apply(s, e).proc.count == StrikesAfter(s.proc.count, [e])
  {
    assert [e][1..] == [];
    if e.TakeOver? {
      AdoptedCount(s.proc, StageAt(s, e.t), e.save);
    }
    ProcIs(s, e);
    hide Proper, Apply, MotorReports, Adopted, Stable, Load, FileOf, WithMode, Guard, Refused;
  }

  lemma {:induction false} CountRuns(s: System, es: seq<Event>)
    requires Runs(s, es)
    ensures After(s, es).proc.count == StrikesAfter(s.proc.count, es)
    decreases |es|
  {
    if es != [] {
      CountStep(s, es[0]);
      assert [es[0]][1..] == [];
      hide Apply, Enabled, Proper;
      CountRuns(Apply(s, es[0]), es[1..]);
    }
  }

  /** In every run the count is what its events' strikes and clearings leave, and it never passes the threshold. */
  lemma BreakerCounts(s: System, es: seq<Event>, found: Option<StateFile>)
    requires Started(s, found) && Runs(s, es)
    ensures After(s, es).proc.count == StrikesAfter(0, es) && StrikesAfter(0, es) <= BREAKER
  {
    StartedInv(s, found);
    InvRuns(s, es, found);
    CountRuns(s, es);
    StartsAtZero(s, found);
    hide Runs, Started;
  }

  lemma StartsAtZero(s: System, found: Option<StateFile>)
    requires Started(s, found)
    ensures s.proc.count == 0
  {
    hide Load;
  }

  function StrikeCount(es: seq<Event>): nat {
    if es == [] then 0 else (if IsStrike(es[0]) then 1 else 0) + StrikeCount(es[1..])
  }

  /**
    After a clearing event the count starts over; with no clearing and no re-probe
    of both nodes it counts the strikes.
  */
  lemma {:induction false} StrikesMean(n: nat, es: seq<Event>)
    ensures es != [] && ClearsStrikes(es[0]) ==> StrikesAfter(n, es) == StrikesAfter(0, es[1..])
    ensures (forall e <- es :: !ClearsStrikes(e) && !(e.Strike? && Both(e.probe))) ==>
              StrikesAfter(n, es) == n + StrikeCount(es)
    decreases |es|
  {
    if es != [] {
      StrikesMean(if IsStrike(es[0]) then n + 1 else n, es[1..]);
      assert forall e <- es[1..] :: e in es;
    }
  }

  /** A probe of both nodes, or a new process. */
  predicate Clears(e: Event) {
    match e
    case CmdProbe(r) => Both(r)
    case HolderProbe(_, r) => Both(r)
    case Restart(_, _) => true
    case _ => false
  }

  lemma OpenStep(s: System, e: Event)
    requires Core(s) && Enabled(s, e) && s.proc.count == BREAKER && !Clears(e)
    ensures Apply(s, e).cam == PoweredThrough(s.cam, [e]) && Apply(s, e).proc.count == BREAKER
  {
    assert [e][1..] == [];
    if HolderEvent(e) && !e.HolderProbe? && InFlight(StageAt(s, e.t)) {
      InFlightClosed(s, e.t);
    }
    hide Core, At, Done, AfterBelieve, AfterLook, AfterTimer, AfterProbe, Instead, ReconcilePlan, PlanOk, MotorReports,
         Adopted, SavedAs, Stable;
    if e.TakeOver? {
      AdoptedCount(s.proc, StageAt(s, e.t), e.save);
    }
    if e.OtherSave? {
      SavedCount(s.proc, e.save);
    }
  }

  lemma SavedCount(p: Proc, save: Save)
    ensures SavedAs(p, save).count == p.count
  {
  }

  lemma AdoptedCount(p: Proc, q: Stage, save: Save)
    requires q.Queried?
    ensures Adopted(p, q, save).count == p.count
  {
    hide TakenOver;
  }

  /** The camera as its power cycles alone leave it, without a daemon. */
  function PoweredThrough(c: Cam, es: seq<Event>): Cam
    decreases |es|
  {
    if es == [] then c
    else
      var d := if es[0].PowerCycle? then Cam(es[0].boot, map[], c.applied, c.epoch + 1, c.calls) else c;
      PoweredThrough(d, es[1..])
  }

  /**
    While the breaker is open the daemon changes nothing in the camera: through any
    run without a probe of both nodes or a restart the camera goes as if only its
    own power cycles had happened, nothing is applied, and the breaker stays open.
  */
  lemma {:induction false} OpenBreakerIsSilent(s: System, es: seq<Event>)
    requires Core(s) && s.proc.count == BREAKER && Runs(s, es) && forall e <- es :: !Clears(e)
    ensures After(s, es).cam == PoweredThrough(s.cam, es) && After(s, es).proc.count == BREAKER
    ensures After(s, es).cam.applied == s.cam.applied
    decreases |es|
  {
    if es != [] {
      assert es[0] in es;
      CoreStep(s, es[0]);
      OpenStep(s, es[0]);
      assert [es[0]][1..] == [];
      hide Apply, Core, Enabled, Clears;
      OpenBreakerIsSilent(Apply(s, es[0]), es[1..]);
    }
  }

  /** No failed commit, and every probe that finds the hidraw node finds the video node. */
  predicate Regular(e: Event) {
    match e
    case StrikeCommit(_) => false
    case Strike(_, r) => r.hid ==> r.video
    case HolderProbe(_, r) => r.hid ==> r.video
    case CmdProbe(r) => r.hid ==> r.video
    case Restart(r, _) => r.hid ==> r.video
    case _ => true
  }

  /** A device handle, or an operation begun with one, comes with a full budget. */
  ghost predicate Budget(s: System) {
    && s.proc.count <= 1
    && (s.proc.hid ==> s.proc.count == 0)
    && (s.hidMu.Some? && Busy(s.threads, s.hidMu.value) && InFlight(s.threads[s.hidMu.value].stage)
        ==> s.proc.count == 0)
  }

  lemma BudgetStep(s: System, e: Event)
    requires Core(s) && Enabled(s, e) && Regular(e) && Budget(s)
    ensures Budget(Apply(s, e))
  {
    if HolderEvent(e) {
      Acting(s.threads, s.hidMu, e.t);
      BudgetHolderStep(s, e);
    } else {
      BudgetOtherStep(s, e);
    }
    hide *;
  }

  lemma BudgetHolderStep(s: System, e: Event)
    requires Core(s) && Enabled(s, e) && Regular(e) && Budget(s) && HolderEvent(e) && s.hidMu == Some(e.t)
    ensures Budget(Apply(s, e))
  {
    if e.TakeOver? {
      AdoptedCount(s.proc, StageAt(s, e.t), e.save);
      AdoptedHid(s.proc, StageAt(s, e.t), e.save);
    }
    hide Core, Rest, MotorReports, ReconcilePlan, Adopted, ConfigArrives, CommitArrives, MotorArrives, ConfigOk,
         CommitOk, MotorOk, WithMode;
  }

  lemma AdoptedHid(p: Proc, q: Stage, save: Save)
    requires q.Queried?
    ensures Adopted(p, q, save).hid == p.hid
  {
    hide TakenOver;
  }

  lemma BudgetOtherStep(s: System, e: Event)
    requires Core(s) && Enabled(s, e) && Regular(e) && Budget(s) && !HolderEvent(e)
    ensures Budget(Apply(s, e))
  {
    BudgetProc(s, e);
    var u := Apply(s, e);
    if u.hidMu.Some? && Busy(u.threads, u.hidMu.value) && InFlight(u.threads[u.hidMu.value].stage) {
      HolderBefore(s, e, u.hidMu.value);
      HolderStays(s, e);
    }
    hide Core, Apply, Enabled;
  }

  lemma BudgetProc(s: System, e: Event)
    requires Core(s) && Enabled(s, e) && Regular(e) && !HolderEvent(e)
    ensures var u := Apply(s, e);
            && u.proc.count <= (if e.Restart? then 0 else s.proc.count)
            && (u.proc.hid ==> u.proc.count == 0 || (u.proc.count == s.proc.count && s.proc.hid))
            && (e.Restart? ==> u.hidMu == None)
  {
    ProcIs(s, e);
    assert e.Restart? ==> Apply(s, e).hidMu == None;
    hide Core, Apply, Load, Startable, FileOf, Stable;
  }

  /** Then the breaker never opens: a device that is there always has its full budget. */
  lemma {:induction false} BreakerNeverOpens(s: System, es: seq<Event>)
    requires Core(s) && Budget(s) && Runs(s, es) && forall e <- es :: Regular(e)
    ensures Budget(After(s, es)) && After(s, es).proc.count < BREAKER
    decreases |es|
  {
    if es != [] {
      assert es[0] in es;
      CoreStep(s, es[0]);
      BudgetStep(s, es[0]);
      hide Apply, Core, Enabled, Regular, Budget;
      BreakerNeverOpens(Apply(s, es[0]), es[1..]);
    }
  }
}
