/** Reconcile on re-appear, the user's intent, and what is persisted. */
module DaemonIntent {
  import opened Base
  import opened PixyWire
  import opened PixyDevice
  import opened Presets
  import opened DaemonSystem
  import opened DaemonSafety
  import opened DaemonTheorems
  import opened DaemonSchedules
  import opened DaemonReassert

  // ---------------------------------------------------------------------
  // Reconcile
  // ---------------------------------------------------------------------

  /**
    A reconcile that has seen persisted intent and has a device handle moves the
    camera to the believed mode and not the reverse: where they differ, the next three steps
    re-assert the believed mode and leave belief as it was; where they do not, no
    mode is written at all.
  */
  lemma ReconcileMovesTheCamera(s: System, t: nat, speeds: seq<seq<Byte>>, found: Option<StateFile>)
    requires Inv(s, found) && !s.panicked && Enabled(s, BeginRestore(t, true, speeds))
    requires Guard(s.proc) && s.threads[t].again.None?
    ensures var s1 := Apply(s, BeginRestore(t, true, speeds));
            && s1.cam == s.cam && s1.proc == s.proc
            && if s.cam.device.tracking == s.proc.belief.camera then
                 s1.threads[t].ops == MotorOps(speeds) + [Adopt] + s.threads[t].ops[1..]
               else
                 && Enabled(s1, SendConfig(t, Delivered))
                 && Core(s1)
                 && var s2 := Apply(s1, SendConfig(t, Delivered));
                 && Core(s2) && Enabled(s2, SendCommit(t, Delivered))
                 && var s3 := Apply(s2, SendCommit(t, Delivered));
                 && Core(s3) && Enabled(s3, Believe(t, Saved))
                 && var s4 := Apply(s3, Believe(t, Saved));
                 && s4.cam.device.tracking == s.proc.belief.camera
                 && s4.proc.belief == s.proc.belief
  {
    var e := BeginRestore(t, true, speeds);
    CoreStep(s, e);
    Acting(s.threads, s.hidMu, t);
    var s1 := Apply(s, e);
    if s.cam.device.tracking != s.proc.belief.camera {
      var op := Set(IF_TRACKING, CameraByte(s.proc.belief.camera), GoOn);
      assert ReconcilePlan(s.cam.device.tracking, s.proc.belief.camera, speeds)[0] == op;
      assert In(s1, t, Ready) && OpAt(s1, t) == op && s1.proc == s.proc && !s1.panicked && s1.cam == s.cam;
      hide Apply, Enabled, Core;
      WriteCompletes(s1, t, op, Saved);
      var s4 := Apply(Apply(Apply(s1, SendConfig(t, Delivered)), SendCommit(t, Delivered)), Believe(t, Saved));
      NeverOffline(s4);
    }
  }

  // ---------------------------------------------------------------------
  // The user's intent
  // ---------------------------------------------------------------------

  predicate NoSyncOps(ops: seq<Op>) {
    forall op <- ops :: !op.Sync?
  }

  predicate NoSyncIn(th: Thread) {
    match th
    case Delayed(_) => true
    case Waiting(_, plan) => NoSyncOps(plan)
    case Holding(_, ops, _) => NoSyncOps(ops)
  }

  /** The camera mode a step writes into belief. */
  ghost function WrittenBy(s: System, e: Event): set<CameraState> {
    if e.Believe? && Busy(s.threads, e.t) && OpAt(s, e.t).Set? && OpAt(s, e.t).iface == IF_TRACKING
    then {CameraOfByte(OpAt(s, e.t).mode)} else {}
  }

  ghost function Written(s: System, es: seq<Event>): set<CameraState>
    requires Runs(s, es)
    decreases |es|
  {
    if es == [] then {} else WrittenBy(s, es[0]) + Written(Apply(s, es[0]), es[1..])
  }

  /** The camera mode a step takes over from the hardware into belief. */
  ghost function TakenBy(s: System, e: Event): set<CameraState> {
    if e.TakeOver? && Busy(s.threads, e.t) && StageAt(s, e.t).Queried? then Usable(StageAt(s, e.t).camera) else {}
  }

  /** An answer that can be believed. */
  function Usable(answer: Option<CameraState>): set<CameraState> {
    if answer.Some? && answer.value != Offline then {answer.value} else {}
  }

  ghost function Taken(s: System, es: seq<Event>): set<CameraState>
    requires Runs(s, es)
    decreases |es|
  {
    if es == [] then {} else TakenBy(s, es[0]) + Taken(Apply(s, es[0]), es[1..])
  }

  /** Belief and file hold modes out of `known`, and intent is persisted. */
  ghost predicate Known(p: Proc, known: set<CameraState>) {
    p.belief.camera in known && p.intent && Load(p.file).Some? && Load(p.file).value.camera in known
  }

  /** Probes and strikes leave belief, intent and file alone. */
  lemma CountingKnown(p: Proc, r: Probe, known: set<CameraState>)
    requires Known(p, known)
    ensures Known(Probed(p, r), known) && Known(StruckAndProbed(p, r), known)
    ensures Known(Cleared(p), known) && Known(Struck(p), known)
  {
    hide Load;
  }

  lemma SavingKnown(p: Proc, save: Save, known: set<CameraState>)
    requires Known(p, known) && p.belief.camera != Offline
    ensures Known(SavedAs(p, save), known)
  {
  }

  lemma BelievedKnown(p: Proc, op: Op, save: Save, known: set<CameraState>)
    requires Known(p, known) && op.Set? && p.belief.camera != Offline
    ensures Known(Believed(p, op, save), known + if op.iface == IF_TRACKING then {CameraOfByte(op.mode)} else {})
  {
    var more := known + if op.iface == IF_TRACKING then {CameraOfByte(op.mode)} else {};
    var q := Cleared(p.(belief := WithMode(p.belief, op.iface, op.mode)));
    assert Known(q, more) && q.belief.camera != Offline;
    SavingKnown(q, save, more);
    hide SavedAs, Load, WithMode, Cleared;
  }

  lemma AdoptedKnown(p: Proc, q: Stage, save: Save, known: set<CameraState>)
    requires Known(p, known) && p.belief.camera != Offline && q.Queried?
    ensures Known(Adopted(p, q, save), known + Usable(q.camera))
  {
    var more := known + Usable(q.camera);
    var r := p.(belief := TakenOver(p.belief, q));
    SavingKnown(r, save, more);
    hide SavedAs, Load;
  }

  lemma BootedKnown(p: Proc, r: Probe, audio: AudioMode, known: set<CameraState>)
    requires Known(p, known)
    ensures Known(Booted(p, r, audio), known)
  {
    hide Load;
  }

  lemma KnownStep(s: System, e: Event, found: Option<StateFile>, known: set<CameraState>)
    requires Inv(s, found) && Enabled(s, e) && Known(s.proc, known)
    ensures Known(Apply(s, e).proc, known + WrittenBy(s, e) + TakenBy(s, e))
  {
    if e.Believe? {
      Acting(s.threads, s.hidMu, e.t);
    }
    ProcIs(s, e);
    var p, more := s.proc, known + WrittenBy(s, e) + TakenBy(s, e);
    WiderKnown(p, known, more);
    hide Core, Proper, ThreadOk, Apply, Known, Load, Cleared, Struck, Probed, StruckAndProbed, SavedAs, Believed,
         Adopted, Booted, Guard, Refused, MotorReports, Stable, BreakerOk;
    match e
    case Believe(t, save) => BelievedKnown(p, OpAt(s, t), save, known);
    case TakeOver(t, save) => AdoptedKnown(p, StageAt(s, t), save, known);
    case Strike(_, r) => CountingKnown(p, r, more);
    case StrikeCommit(_) => CountingKnown(p, Probe(false, false), more);
    case MotorDone(_) => CountingKnown(p, Probe(false, false), more);
    case HolderProbe(_, r) => CountingKnown(p, r, more);
    case CmdProbe(r) => CountingKnown(p, r, more);
    case OtherSave(save) => SavingKnown(p, save, more);
    case Restart(r, audio) => BootedKnown(p, r, audio, more);
    case Arm => ArmedKnown(p, more);
    case Expire => ArmedKnown(p, more);
    case _ =>
  }

  lemma ArmedKnown(p: Proc, known: set<CameraState>)
    requires Known(p, known)
    ensures Known(p.(armed := true), known) && Known(p.(armed := false), known)
  {
  }

  lemma WiderKnown(p: Proc, less: set<CameraState>, more: set<CameraState>)
    ensures Known(p, less) && less <= more ==> Known(p, more)
  {
  }

  /**
    Across every run of writes, probes, unplugs, power cycles, failed saves, crashes
    and restarts, the believed camera mode is the one at the start, the one in the
    file at the start, one that a committed write put there, or one that a sync took
    over; intent stays persisted.
  */
  lemma {:induction false} IntentOnlyFromWrites(s: System, es: seq<Event>, found: Option<StateFile>,
          known: set<CameraState>)
    requires Inv(s, found) && Runs(s, es) && Known(s.proc, known)
    ensures After(s, es).proc.belief.camera in known + Written(s, es) + Taken(s, es) && After(s, es).proc.intent
    decreases |es|
  {
    if es != [] {
      var e := es[0];
      InvStep(s, e, found);
      KnownStep(s, e, found, known);
      hide Apply, Inv, Enabled, WrittenBy, TakenBy;
      IntentOnlyFromWrites(Apply(s, e), es[1..], found, known + WrittenBy(s, e) + TakenBy(s, e));
    }
  }

  // ---------------------------------------------------------------------
  // Who takes over
  // ---------------------------------------------------------------------

  /** Only these threads may have a sync before them. */
  ghost predicate OnlySync(threads: ThreadMap, syncers: set<nat>) {
    forall t <- threads :: t in syncers || NoSyncIn(threads[t])
  }

  /** The threads that the run starts with a sync in their plan. */
  function Syncers(es: seq<Event>): set<nat> {
    if es == [] then {} else SyncerOf(es[0]) + Syncers(es[1..])
  }

  function SyncerOf(e: Event): set<nat> {
    if e.Spawn? && !NoSyncOps(e.plan) then {e.t} else {}
  }

  lemma {:induction false} SyncerSpawned(es: seq<Event>, t: nat)
    requires t in Syncers(es)
    ensures exists j | 0 <= j < |es| :: es[j].Spawn? && es[j].t == t && exists op <- es[j].plan :: op.Sync?
    decreases |es|
  {
    if t in SyncerOf(es[0]) {
      assert es[0].Spawn? && es[0].t == t;
    } else {
      SyncerSpawned(es[1..], t);
      var j :| 0 <= j < |es[1..]| && es[1..][j].Spawn? && es[1..][j].t == t && exists op <- es[1..][j].plan :: op.Sync?;
      assert es[j + 1] == es[1..][j];
    }
  }

  lemma OnlySyncStep(s: System, e: Event, syncers: set<nat>)
    requires Core(s) && Enabled(s, e) && OnlySync(s.threads, syncers) && s.proc.intent
    ensures OnlySync(Apply(s, e).threads, syncers + SyncerOf(e))
  {
    var u := Apply(s, e);
    if HolderEvent(e) {
      Acting(s.threads, s.hidMu, e.t);
      NoSyncActing(s, e);
      forall r | r in u.threads ensures r in syncers || NoSyncIn(u.threads[r]) {
        if r != e.t {
          OtherThreads(s, e, r);
        }
        if r in s.threads {
          assert r in syncers || NoSyncIn(s.threads[r]);
        }
        hide Core, Apply, Enabled, NoSyncOps;
      }
    } else {
      OnlySyncQuiet(s, e, syncers);
    }
    hide Core, Apply, Enabled, NoSyncIn;
  }

  lemma OnlySyncQuiet(s: System, e: Event, syncers: set<nat>)
    requires Core(s) && Enabled(s, e) && OnlySync(s.threads, syncers) && !HolderEvent(e)
    ensures OnlySync(Apply(s, e).threads, syncers + SyncerOf(e))
  {
    var u := Apply(s, e);
    forall r | r in u.threads ensures r in syncers + SyncerOf(e) || NoSyncIn(u.threads[r]) {
      QuietThread(s, e, r);
      if r in s.threads {
        assert r in syncers || NoSyncIn(s.threads[r]);
      }
      hide Core, Apply, Enabled;
    }
  }

  /** With intent persisted a thread without a sync before it never gets one. */
  lemma NoSyncActing(s: System, e: Event)
    requires Core(s) && Enabled(s, e) && HolderEvent(e) && e.t in s.threads && s.threads[e.t].Holding? && s.proc.intent
    ensures NoSyncIn(s.threads[e.t]) && e.t in Apply(s, e).threads ==> NoSyncIn(Apply(s, e).threads[e.t])
  {
    if e.t in Apply(s, e).threads {
      OpsCome(s, e);
    }
    hide Core, Apply, Enabled;
  }

  /** What a thread without a sync takes over holds no camera mode. */
  lemma TakesNoCamera(s: System, e: Event)
    requires Core(s) && Enabled(s, e) && TakenBy(s, e) != {}
    ensures e.t in s.threads && !NoSyncIn(s.threads[e.t])
  {
    Acting(s.threads, s.hidMu, e.t);
    assert OpAt(s, e.t) in s.threads[e.t].ops;
  }

  lemma {:induction false} TakenRuns(s: System, es: seq<Event>, found: Option<StateFile>, known: set<CameraState>,
          syncers: set<nat>, k: nat)
    requires Inv(s, found) && Runs(s, es) && Known(s.proc, known) && OnlySync(s.threads, syncers) && k < |es|
    ensures Runs(s, es[..k])
    ensures TakenBy(After(s, es[..k]), es[k]) != {} ==> es[k].t in syncers + Syncers(es[..k])
    decreases k
  {
    var e := es[0];
    if k == 0 {
      if TakenBy(s, e) != {} {
        TakesNoCamera(s, e);
      }
      hide TakenBy, Apply, Enabled, Inv;
    } else {
      InvStep(s, e, found);
      KnownStep(s, e, found, known);
      OnlySyncStep(s, e, syncers);
      assert es[..k][0] == e && es[..k][1..] == es[1..][..k - 1] && es[1..][k - 1] == es[k];
      hide Apply, Inv, Enabled, TakenBy, WrittenBy, OnlySync, SyncerOf;
      TakenRuns(Apply(s, e), es[1..], found, known + WrittenBy(s, e) + TakenBy(s, e), syncers + SyncerOf(e), k - 1);
    }
  }

  /**
    From a start with persisted intent every mode that is taken over is taken over
    by a thread that was started with a sync in its plan: no reconcile ever adopts
    the hardware's mode.
  */
  lemma TakenAreSyncs(s: System, es: seq<Event>, found: Option<StateFile>, k: nat)
    requires Started(s, found) && s.proc.intent && Runs(s, es) && k < |es|
    ensures Runs(s, es[..k])
    ensures TakenBy(After(s, es[..k]), es[k]) != {} ==>
              exists j | 0 <= j < k ::
                es[j].Spawn? && es[j].t == es[k].t && exists op <- es[j].plan :: op.Sync?
  {
    StartedInv(s, found);
    StartedKnown(s, found);
    TakenRuns(s, es, found, {s.proc.belief.camera}, {}, k);
    if TakenBy(After(s, es[..k]), es[k]) != {} {
      SyncerSpawned(es[..k], es[k].t);
    }
    hide Started, Runs, After, TakenBy, Inv;
  }

  lemma StartedKnown(s: System, found: Option<StateFile>)
    requires Started(s, found) && s.proc.intent
    ensures Known(s.proc, {s.proc.belief.camera}) && OnlySync(s.threads, {})
  {
  }

  // ---------------------------------------------------------------------
  // Modes that commands asked for
  // ---------------------------------------------------------------------

  /** Every camera mode the plan writes is one of `modes`. */
  predicate WritesOnly(ops: seq<Op>, modes: set<CameraState>) {
    forall op <- ops :: op.Set? && op.iface == IF_TRACKING ==> CameraOfByte(op.mode) in modes
  }

  /** A command's plan writes, and a re-assert is for, only these modes. */
  predicate ThreadAsks(th: Thread, modes: set<CameraState>) {
    match th
    case Delayed(m) => m in modes
    case Waiting(again, plan) => if again.Some? then again.value in modes else WritesOnly(plan, modes)
    case Holding(again, ops, _) => if again.Some? then again.value in modes else WritesOnly(ops, modes)
  }

  ghost predicate ThreadsAsk(threads: ThreadMap, modes: set<CameraState>) {
    forall t <- threads :: ThreadAsks(threads[t], modes)
  }

  /** The camera modes that a plan writes. */
  function ModesOf(plan: seq<Op>): set<CameraState> {
    set op <- plan | op.Set? && op.iface == IF_TRACKING :: CameraOfByte(op.mode)
  }

  /** The camera modes that the commands started in the run ask for. */
  function Asked(es: seq<Event>): set<CameraState> {
    if es == [] then {} else (if es[0].Spawn? then ModesOf(es[0].plan) else {}) + Asked(es[1..])
  }

  /** The step believes the idle bounce of a tracking re-assert. */
  predicate IsBounce(s: System, e: Event) {
    e.Believe? && Busy(s.threads, e.t) && s.threads[e.t].again == Some(Tracking) && |s.threads[e.t].ops| == 2
  }

  /** What the bounces of a run leave in belief: idle if there is one. */
  ghost function BouncedTo(s: System, es: seq<Event>): set<CameraState>
    requires Runs(s, es)
    decreases |es|
  {
    if es == [] then {} else (if IsBounce(s, es[0]) then {Idle} else {}) + BouncedTo(Apply(s, es[0]), es[1..])
  }

  lemma WiderThreads(threads: ThreadMap, less: set<CameraState>, more: set<CameraState>)
    requires ThreadsAsk(threads, less) && less <= more
    ensures ThreadsAsk(threads, more)
  {
    forall t | t in threads ensures ThreadAsks(threads[t], more) {
      assert ThreadAsks(threads[t], less);
    }
  }

  /** A believed mode is one that was asked for, or the bounce's idle. */
  lemma WrittenIsAsked(s: System, e: Event, modes: set<CameraState>)
    requires Core(s) && Enabled(s, e) && ThreadsAsk(s.threads, modes)
    ensures WrittenBy(s, e) <= modes + if IsBounce(s, e) then {Idle} else {}
  {
    if e.Believe? {
      Acting(s.threads, s.hidMu, e.t);
      var th := s.threads[e.t];
      assert ThreadAsks(th, modes);
      assert th.ops[0] in th.ops;
    }
  }

  lemma PlanWritesOnly(actual: CameraState, believed: CameraState, speeds: seq<seq<Byte>>, modes: set<CameraState>)
    requires believed in modes && believed != Offline
    ensures WritesOnly(ReconcilePlan(actual, believed, speeds), modes)
  {
  }

  lemma AskActing(s: System, e: Event, modes: set<CameraState>)
    requires Core(s) && Enabled(s, e) && HolderEvent(e) && e.t in s.threads && s.threads[e.t].Holding?
    requires ThreadAsks(s.threads[e.t], modes) && s.proc.belief.camera in modes && s.proc.belief.camera != Offline
    ensures e.t in Apply(s, e).threads ==> ThreadAsks(Apply(s, e).threads[e.t], modes)
  {
    Acting(s.threads, s.hidMu, e.t);
    SameAgain(s, e);
    if e.t in Apply(s, e).threads && s.threads[e.t].again.None? {
      OpsCome(s, e);
      if e.BeginRestore? {
        PlanWritesOnly(s.cam.device.tracking, s.proc.belief.camera, e.speeds, modes);
      }
    }
    hide Core, Apply, Enabled, ReconcilePlan, CameraOfByte;
  }

  lemma AskStep(s: System, e: Event, modes: set<CameraState>)
    requires Core(s) && Enabled(s, e) && ThreadsAsk(s.threads, modes)
    requires s.proc.belief.camera in modes && s.proc.belief.camera != Offline
    requires e.Spawn? ==> ModesOf(e.plan) <= modes
    ensures ThreadsAsk(Apply(s, e).threads, modes)
  {
    var u := Apply(s, e);
    if HolderEvent(e) {
      Acting(s.threads, s.hidMu, e.t);
      assert ThreadAsks(s.threads[e.t], modes);
      AskActing(s, e, modes);
      forall r | r in u.threads && r != e.t ensures ThreadAsks(u.threads[r], modes) {
        OtherThreads(s, e, r);
        if r in s.threads {
          assert ThreadAsks(s.threads[r], modes);
        } else {
          NewAsks(s, e, r, modes);
        }
        hide Core, Apply, Enabled;
      }
    } else {
      AskQuiet(s, e, modes);
    }
    hide Core, Apply, Enabled, ThreadAsks;
  }

  /** A new re-assert is for the mode its command has written. */
  lemma NewAsks(s: System, e: Event, r: nat, modes: set<CameraState>)
    requires Core(s) && Enabled(s, e) && HolderEvent(e) && ThreadsAsk(s.threads, modes)
    requires r !in s.threads && r in Apply(s, e).threads
    ensures ThreadAsks(Apply(s, e).threads[r], modes)
  {
    Acting(s.threads, s.hidMu, e.t);
    ReassertsComeFromWrites(s, e, r);
    var th := s.threads[e.t];
    assert ThreadAsks(th, modes);
    assert th.ops[0] in th.ops;
    hide Core, Apply, Enabled;
  }

  lemma AskQuiet(s: System, e: Event, modes: set<CameraState>)
    requires Core(s) && Enabled(s, e) && !HolderEvent(e) && ThreadsAsk(s.threads, modes)
    requires e.Spawn? ==> ModesOf(e.plan) <= modes
    ensures ThreadsAsk(Apply(s, e).threads, modes)
  {
    var u := Apply(s, e);
    forall r | r in u.threads ensures ThreadAsks(u.threads[r], modes) {
      QuietThread(s, e, r);
      if r in s.threads {
        assert ThreadAsks(s.threads[r], modes);
      }
      hide Core, Apply, Enabled, CameraOfByte, ReassertPlan;
      if e.Spawn? && r == e.t {
        forall op | op in e.plan && op.Set? && op.iface == IF_TRACKING ensures CameraOfByte(op.mode) in modes {
          assert CameraOfByte(op.mode) in ModesOf(e.plan);
        }
      }
    }
  }

  lemma {:induction false} AskedRuns(s: System, es: seq<Event>, found: Option<StateFile>, modes: set<CameraState>)
    requires Inv(s, found) && Runs(s, es) && Known(s.proc, modes) && ThreadsAsk(s.threads, modes)
    ensures After(s, es).proc.belief.camera in modes + Asked(es) + BouncedTo(s, es) + Taken(s, es)
    decreases |es|
  {
    if es != [] {
      var e := es[0];
      var more := modes + (if e.Spawn? then ModesOf(e.plan) else {}) + (if IsBounce(s, e) then {Idle} else {})
                  + TakenBy(s, e);
      WrittenIsAsked(s, e, modes);
      KnownStep(s, e, found, modes);
      WiderKnown(Apply(s, e).proc, modes + WrittenBy(s, e) + TakenBy(s, e), more);
      WiderThreads(s.threads, modes, more);
      AskStep(s, e, more);
      InvStep(s, e, found);
      hide Apply, Inv, Enabled, WrittenBy, TakenBy, ThreadsAsk, ModesOf, IsBounce;
      AskedRuns(Apply(s, e), es[1..], found, more);
    }
  }

  /**
    The same with the sources kept apart: in every run of a daemon started with
    persisted intent, the believed camera mode is that intent, a mode that some
    command asked for, idle from a re-assert's bounce, or one that a sync took over.
  */
  lemma IntentOnlyFromCommands(s: System, es: seq<Event>, found: Option<StateFile>)
    requires Started(s, found) && Runs(s, es) && s.proc.intent
    ensures After(s, es).proc.belief.camera in
              {s.proc.belief.camera} + Asked(es) + BouncedTo(s, es) + Taken(s, es)
  {
    StartedInv(s, found);
    StartedKnown(s, found);
    AskedRuns(s, es, found, {s.proc.belief.camera});
    hide Started, Inv, Runs, After;
  }

  // ---------------------------------------------------------------------
  // Persistence
  // ---------------------------------------------------------------------

  /** In every run the file is the one found at first or a whole saved state, and belief is a mode a user can choose. */
  lemma FileStaysWhole(s: System, es: seq<Event>, found: Option<StateFile>)
    requires Started(s, found) && Runs(s, es)
    ensures var p := After(s, es).proc;
            && p.belief.camera in {Idle, Tracking, Privacy}
            && (p.file == found || (p.file.Some? && Whole(p.file.value)))
            && (p.intent ==> Load(p.file).Some?)
  {
    StartedInv(s, found);
    InvRuns(s, es, found);
    hide Runs, Started;
  }

  /** What is saved is what is loaded; whatever is loaded has a mode a user can choose. */
  lemma SaveLoad(b: Belief, f: StateFile)
    ensures Load(Some(FileOf(b))) == Some(if b.camera == Offline then b.(camera := Privacy) else b)
    ensures Load(Some(f)).Some? ==> Load(Some(f)).value.camera != Offline
    ensures Whole(f) <==> exists c: Belief :: c.camera != Offline && f == FileOf(c)
  {
    if Whole(f) {
      var c := Belief(f.camera.value, f.audio.value, f.gesture);
      assert f == FileOf(c);
    }
  }

  /**
    What a daemon starts from. A file is usable when its audio mode is recognised
    and its other fields are valid: then it is believed and is intent, its camera
    mode where a user can choose it and privacy where not. Without one the daemon
    believes privacy, the default audio mode and no gestures, and has no intent.
    Either way it has what the probe finds, no strikes and no armed trap.
  */
  lemma StartMeans(p: Proc, r: Probe, defaultAudio: AudioMode)
    ensures var q := Booted(p, r, defaultAudio);
            && (q.intent <==> p.file.Some? && p.file.value.audio.Some? && p.file.value.rest)
            && (!q.intent ==> q.belief == Belief(Privacy, defaultAudio, false))
            && (q.intent ==>
                  var f := p.file.value;
                  var camera := match f.camera
                                case Some(Idle) => Idle
                                case Some(Tracking) => Tracking
                                case _ => Privacy;
                  q.belief == Belief(camera, f.audio.value, f.gesture))
            && q == Proc(q.belief, r.hid, r.video, 0, false, q.intent, p.file, p.tmp)
  {
  }

  /**
    A crash keeps exactly what the last completed save wrote: after a completed
    save the restarted daemon has the same belief, and a save that got no further
    than the temporary file is as if it had never been tried.
  */
  lemma CrashKeepsLastSave(s: System, found: Option<StateFile>, r: Probe, audio: AudioMode, save: Save)
    requires Inv(s, found) && !s.panicked
    ensures Core(Apply(s, OtherSave(save)))
    ensures var crashed := Apply(Apply(s, OtherSave(save)), Restart(r, audio));
            if save.Saved? then crashed.proc.belief == s.proc.belief && crashed.proc.intent
            else crashed.proc.belief == Apply(s, Restart(r, audio)).proc.belief
  {
    CoreStep(s, OtherSave(save));
    SaveLoad(s.proc.belief, FileOf(s.proc.belief));
    hide Core;
  }
}
