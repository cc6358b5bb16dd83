/** Reading the camera back: what brings the daemon down, and what a sync in flight does to intent. */
module DaemonSync {
  import opened Base
  import opened PixyWire
  import opened PixyDevice
  import opened Presets
  import opened DaemonSystem
  import opened DaemonSafety
  import opened DaemonSchedules
  import opened DaemonIntent

  // ---------------------------------------------------------------------
  // What brings the daemon down
  // ---------------------------------------------------------------------

  /** The step reads the camera's handle for a query, in a thread that does not recover from a panic. */
  predicate BareQuery(s: System, e: Event) {
    e.BeginRestore? || (e.Query? && Busy(s.threads, e.t) && OpAt(s, e.t) != Sync(true))
  }

  /**
    A step takes the daemon down exactly when a query finds no device handle in a
    thread that does not recover. A sync served over HTTP loses its thread and
    releases the lock, and nothing else changes.
  */
  lemma PanicsExactly(s: System, e: Event)
    requires Core(s) && Enabled(s, e) && !s.panicked
    ensures Apply(s, e).panicked <==> BareQuery(s, e) && !s.proc.hid
    ensures e.Query? && OpAt(s, e.t) == Sync(true) && !s.proc.hid ==>
              Apply(s, e) == s.(threads := s.threads - {e.t}, hidMu := None)
  {
    hide Core, At, Done, AfterBelieve, AfterLook, AfterTimer, AfterProbe, Instead, ReconcilePlan, PlanOk, MotorReports,
         Adopted, SavedAs, Stable, ConfigArrives, CommitArrives, MotorArrives, ConfigOk, CommitOk, MotorOk, Believed,
         Booted, Probed, StruckAndProbed, Answered;
  }

  /** The k-th step of the run is such a query and finds no handle. */
  ghost predicate DownAt(s: System, es: seq<Event>, k: nat)
    requires k < |es|
  {
    Runs(s, es[..k]) && BareQuery(After(s, es[..k]), es[k]) && !After(s, es[..k]).proc.hid
  }

  lemma DownLater(s: System, es: seq<Event>, k: nat)
    requires es != [] && Runs(s, es) && k < |es| - 1
    ensures DownAt(s, es, k + 1) <==> DownAt(Apply(s, es[0]), es[1..], k)
  {
    assert es[..k + 1][0] == es[0] && es[..k + 1][1..] == es[1..][..k] && es[1..][k] == es[k + 1];
    hide Apply, Enabled, Proper, BareQuery;
  }

  lemma DownFirst(s: System, es: seq<Event>)
    requires es != [] && Runs(s, es)
    ensures DownAt(s, es, 0) <==> BareQuery(s, es[0]) && !s.proc.hid
  {
    assert es[..0] == [];
    hide Apply, Enabled, Proper, BareQuery;
  }

  lemma {:induction false} StaysDown(s: System, es: seq<Event>)
    requires Core(s) && Runs(s, es) && s.panicked && forall e <- es :: !e.Restart?
    ensures After(s, es).panicked
    decreases |es|
  {
    if es != [] {
      assert es[0] in es && forall f <- es[1..] :: f in es;
      CoreStep(s, es[0]);
      assert Apply(s, es[0]).panicked by { hide Core; }
      hide Core, Apply, Enabled;
      StaysDown(Apply(s, es[0]), es[1..]);
    }
  }

  /** In every run without a restart the daemon is down at the end exactly if one of its queries found no handle. */
  lemma {:induction false} RunPanicsExactly(s: System, es: seq<Event>)
    requires Core(s) && Runs(s, es) && !s.panicked && forall e <- es :: !e.Restart?
    ensures After(s, es).panicked <==> exists k | 0 <= k < |es| :: DownAt(s, es, k)
    decreases |es|
  {
    if es != [] {
      var e, rest := es[0], es[1..];
      assert e in es && forall f <- rest :: f in es;
      PanicsExactly(s, e);
      CoreStep(s, e);
      DownFirst(s, es);
      hide Core, Apply, Enabled, BareQuery, DownAt;
      if Apply(s, e).panicked {
        StaysDown(Apply(s, e), rest);
      } else {
        RunPanicsExactly(Apply(s, e), rest);
        if k: nat :| k < |rest| && DownAt(Apply(s, e), rest, k) {
          DownLater(s, es, k);
        }
        forall k | 0 < k < |es| && DownAt(s, es, k) ensures exists j | 0 <= j < |rest| :: DownAt(Apply(s, e), rest, j) {
          DownLater(s, es, k - 1);
        }
      }
    }
  }

  /** The node goes away before a query: whatever checks came before, the daemon goes down. */
  function Unplugged(e: Event): seq<Event> {
    [CmdProbe(Probe(false, false))] + [e]
  }

  /** No earlier check helps: a probe between it and any of the queries takes the handle away. */
  lemma UnplugPanics(s: System, e: Event)
    requires Core(s) && !s.panicked && Enabled(s, e) && BareQuery(s, e)
    ensures Runs(s, Unplugged(e)) && After(s, Unplugged(e)).panicked
  {
    var p := CmdProbe(Probe(false, false));
    CoreStep(s, p);
    var u := Apply(s, p);
    assert Enabled(u, e) && BareQuery(u, e) && !u.proc.hid && !u.panicked by { hide Core; }
    PanicsExactly(u, e);
    hide Core, Apply, Enabled, Runs, After;
    RunsOne(s, p);
    RunsOne(u, e);
    RunsConcat(s, [p], [e]);
  }

  // ---------------------------------------------------------------------
  // The steps of a sync
  // ---------------------------------------------------------------------

  /** The thread holds hidMu and is inside a sync, or about to start it. */
  predicate Syncing(s: System, t: nat) {
    s.hidMu == Some(t) && Busy(s.threads, t) && OpAt(s, t).Sync?
  }

  /** How many of its five steps before the take-over a sync has made. */
  function Progress(stage: Stage): nat {
    match stage
    case Guarded => 1
    case Querying(done, _, _) => 2 + done
    case Queried(_, _, _) => 5
    case _ => 0
  }

  /** The camera has been asked for its mode. */
  predicate HasAsked(stage: Stage) {
    Progress(stage) > 2
  }

  /** What it answered. */
  function Heard(stage: Stage): Option<CameraState> {
    match stage
    case Querying(_, c, _) => c
    case Queried(c, _, _) => c
    case _ => None
  }

  /** A sync with everything answered. */
  function Steps(t: nat): seq<Event> {
    [BeginSync(t), SeeVideo(t), Query(t, true), Query(t, true), Query(t, true), TakeOver(t, Saved)]
  }

  lemma SyncStage(s: System, t: nat)
    requires Core(s) && Syncing(s, t)
    ensures Progress(StageAt(s, t)) <= 5
    ensures match StageAt(s, t) case Ready => true case Guarded => true case Querying(done, _, _) => done <= 2
                                case Queried(_, _, _) => true case _ => false
  {
    Acting(s.threads, s.hidMu, t);
  }

  /** With a handle, a closed breaker and a video node the next step is possible and only moves the thread on. */
  lemma NextStep(s: System, t: nat)
    requires Core(s) && Syncing(s, t) && !s.panicked && Guard(s.proc) && s.proc.video
    ensures var p, e := Progress(StageAt(s, t)), Steps(t)[Progress(StageAt(s, t))];
            && Enabled(s, e)
            && (p < 5 ==>
                  var u := Apply(s, e);
                  && Core(u) && Syncing(u, t) && u == s.(threads := At(s.threads, t, StageAt(u, t)))
                  && Progress(StageAt(u, t)) == p + 1
                  && (p == 2 ==> Heard(StageAt(u, t)) == Some(s.cam.device.tracking))
                  && (p > 2 ==> Heard(StageAt(u, t)) == Heard(StageAt(s, t))))
  {
    SyncStage(s, t);
    var e := Steps(t)[Progress(StageAt(s, t))];
    if Progress(StageAt(s, t)) < 5 {
      assert Enabled(s, e) by { hide Core; }
      CoreStep(s, e);
    }
    hide Core;
  }

  // ---------------------------------------------------------------------
  // Runs inside a sync
  // ---------------------------------------------------------------------

  predicate Ends(e: Event, t: nat) {
    e == Refuse(t) || (e.TakeOver? && e.t == t)
  }

  /** Neither a restart nor anything after the sync: only the last step may end it. */
  ghost predicate During(s: System, es: seq<Event>, t: nat)
    requires Runs(s, es)
    decreases |es|
  {
    es == []
    || (!es[0].Restart?
        && (|es| > 1 ==> !Ends(es[0], t) && Syncing(Apply(s, es[0]), t) && During(Apply(s, es[0]), es[1..], t)))
  }

  ghost predicate Within(s: System, es: seq<Event>, t: nat) {
    Runs(s, es) && During(s, es, t)
  }

  /** The sync puts a question to the camera. */
  predicate Asks(s: System, e: Event, t: nat) {
    e.Query? && e.t == t && s.proc.hid
  }

  /** The camera mode the sync is told in this run, or had been told before: None if it cannot be used. */
  ghost function Hears(s: System, es: seq<Event>, t: nat): Option<CameraState>
    requires Runs(s, es)
    decreases |es|
  {
    if !Busy(s.threads, t) then None
    else if HasAsked(StageAt(s, t)) then Heard(StageAt(s, t))
    else if es == [] then None
    else if Asks(s, es[0], t) then if es[0].answered then Some(s.cam.device.tracking) else None
    else Hears(Apply(s, es[0]), es[1..], t)
  }

  /** One step inside a sync, whoever makes it. */
  lemma DuringStep(s: System, e: Event, t: nat)
    requires Core(s) && Syncing(s, t) && Enabled(s, e) && !e.Restart?
    ensures var u, stage := Apply(s, e), StageAt(s, t);
            && (!(e.TakeOver? && e.t == t) ==> u.proc.belief.camera == s.proc.belief.camera)
            && (e.TakeOver? && e.t == t ==>
                  HasAsked(stage)
                  && u.proc.belief.camera
                     == if Usable(Heard(stage)) == {} then s.proc.belief.camera else Heard(stage).value)
            && (!e.PowerCycle? ==> u.cam == s.cam)
            && (!Ends(e, t) && Syncing(u, t) ==>
                  if HasAsked(stage) then HasAsked(StageAt(u, t)) && Heard(StageAt(u, t)) == Heard(stage)
                  else if Asks(s, e, t) then
                    && HasAsked(StageAt(u, t))
                    && Heard(StageAt(u, t)) == if e.answered then Some(s.cam.device.tracking) else None
                  else !HasAsked(StageAt(u, t)))
  {
    SyncStage(s, t);
    if HolderEvent(e) {
      Acting(s.threads, s.hidMu, e.t);
      DuringHolder(s, e, t);
    } else {
      HolderStays(s, e);
      QuietProc(s, e);
    }
    hide Core, Apply;
  }

  lemma DuringHolder(s: System, e: Event, t: nat)
    requires Core(s) && Syncing(s, t) && Enabled(s, e) && HolderEvent(e) && e.t == t
    ensures e.Refuse? || e.BeginSync? || e.SeeVideo? || e.Query? || e.TakeOver?
    ensures var u, stage := Apply(s, e), StageAt(s, t);
            && u.cam == s.cam
            && (e.TakeOver? ==> HasAsked(stage))
            && u.proc.belief.camera == (if !e.TakeOver? || Usable(Heard(stage)) == {} then s.proc.belief.camera
                                        else Heard(stage).value)
            && (!Ends(e, t) && Syncing(u, t) ==>
                  if HasAsked(stage) then HasAsked(StageAt(u, t)) && Heard(StageAt(u, t)) == Heard(stage)
                  else if Asks(s, e, t) then
                    && HasAsked(StageAt(u, t))
                    && Heard(StageAt(u, t)) == if e.answered then Some(s.cam.device.tracking) else None
                  else !HasAsked(StageAt(u, t)))
  {
    SyncStage(s, t);
    hide Core, Done, AfterBelieve, AfterLook, AfterProbe, Reconciles, Decides, Restores, ConfigArrives, CommitArrives,
         MotorArrives, Guard, MotorReports;
  }

  /** What the sync is told does not change on the way. */
  lemma HearsOn(s: System, es: seq<Event>, t: nat)
    requires Core(s) && Syncing(s, t) && Within(s, es, t) && |es| > 1
    ensures Syncing(Apply(s, es[0]), t) && Within(Apply(s, es[0]), es[1..], t) && !es[0].Restart? && !Ends(es[0], t)
    ensures Hears(s, es, t) == Hears(Apply(s, es[0]), es[1..], t)
  {
    DuringStep(s, es[0], t);
    hide Core, Apply, Enabled, Heard, Progress, Ends;
  }

  /** A sync's last step. */
  lemma LastOutcome(s: System, t: nat, e: Event)
    requires Core(s) && Syncing(s, t) && Enabled(s, e) && !e.Restart?
    ensures Runs(s, [e]) && After(s, [e]) == Apply(s, e)
    ensures var told := Hears(s, [e], t);
            Apply(s, e).proc.belief.camera
            == if e.TakeOver? && e.t == t && Usable(told) != {} then told.value else s.proc.belief.camera
  {
    DuringStep(s, e, t);
    RunsOne(s, e);
    hide Core, Apply, Enabled, Heard, Progress, Ends;
  }

  lemma {:induction false} OutcomeOfSync(s: System, t: nat, es: seq<Event>)
    requires Core(s) && Syncing(s, t) && Within(s, es, t)
    ensures var told := Hears(s, es, t);
            After(s, es).proc.belief.camera
            == if es != [] && es[|es| - 1].TakeOver? && es[|es| - 1].t == t && Usable(told) != {} then told.value
               else s.proc.belief.camera
    decreases |es|
  {
    if |es| == 1 {
      assert es == [es[0]] && es[1..] == [];
      LastOutcome(s, t, es[0]);
    } else if |es| > 1 {
      var e, u := es[0], Apply(s, es[0]);
      HearsOn(s, es, t);
      DuringStep(s, e, t);
      CoreStep(s, e);
      assert After(s, es) == After(u, es[1..]) && u.proc.belief.camera == s.proc.belief.camera;
      hide *;
      OutcomeOfSync(u, t, es[1..]);
    }
  }

  /**
    What a sync leaves of the believed mode, in every run that stays within it,
    whatever else happens: the mode the camera answered when it was asked, if the
    sync takes over and that answer can be used, and otherwise what was believed.
    The believed mode stays exactly if the sync is refused, breaks off or has not
    come to its end, or the answer cannot be used or is that mode.
  */
  lemma SyncOutcome(s: System, t: nat, es: seq<Event>)
    requires Core(s) && Syncing(s, t) && Within(s, es, t)
    ensures var told := Hears(s, es, t);
            After(s, es).proc.belief.camera
            == if es != [] && es[|es| - 1].TakeOver? && es[|es| - 1].t == t && Usable(told) != {} then told.value
               else s.proc.belief.camera
    ensures After(s, es).proc.belief.camera == s.proc.belief.camera
            <==> es == [] || !(es[|es| - 1].TakeOver? && es[|es| - 1].t == t)
                 || Usable(Hears(s, es, t)) <= {s.proc.belief.camera}
  {
    OutcomeOfSync(s, t, es);
    hide Core, Within, During, Runs, After, Hears, Syncing;
  }

  /** Nothing else moves the camera: without a power cycle the mode it answers is the one it has. */
  lemma {:induction false} HearsTheCamera(s: System, t: nat, es: seq<Event>)
    requires Core(s) && Syncing(s, t) && Within(s, es, t) && !HasAsked(StageAt(s, t))
    requires forall e <- es :: !e.PowerCycle?
    ensures Hears(s, es, t) == None || Hears(s, es, t) == Some(s.cam.device.tracking)
    decreases |es|
  {
    if es != [] {
      var e := es[0];
      assert e in es;
      DuringStep(s, e, t);
      CoreStep(s, e);
      if |es| > 1 && !Asks(s, e, t) {
        hide Core, Apply, Enabled, Syncing, HasAsked;
        HearsTheCamera(Apply(s, e), t, es[1..]);
      } else {
        assert |es| == 1 ==> es[1..] == [];
        hide Core, Apply, Enabled, Heard, Progress;
      }
    }
  }

  // ---------------------------------------------------------------------
  // Which syncs keep the believed mode
  // ---------------------------------------------------------------------

  /** One step more in front. */
  lemma WithinStep(s: System, e: Event, t: nat, es: seq<Event>)
    requires Core(s) && Enabled(s, e) && Syncing(s, t) && !Ends(e, t) && !e.Restart? && Syncing(Apply(s, e), t)
    requires Within(Apply(s, e), es, t) && es != []
    ensures Within(s, [e] + es, t) && Hears(s, [e] + es, t) == Hears(Apply(s, e), es, t)
    ensures ([e] + es)[|[e] + es| - 1] == es[|es| - 1]
  {
    assert ([e] + es)[0] == e && ([e] + es)[1..] == es;
    hide Apply, Core, Enabled, Syncing, Ends, Hears;
    HearsOn(s, [e] + es, t);
  }

  lemma SyncIsBusy(s: System, t: nat)
    requires Syncing(s, t)
    ensures Busy(s.threads, t)
  {
  }

  /** The steps from the p-th on. */
  lemma StepsFrom(t: nat, p: nat)
    requires p <= 5
    ensures var es := Steps(t)[p..];
            && es != [] && es[0] == Steps(t)[p] && es[|es| - 1] == TakeOver(t, Saved)
            && (forall e <- es :: !e.PowerCycle? && !e.Restart?)
            && (if p == 5 then es == [TakeOver(t, Saved)]
                else |es| > 1 && es[1..] == Steps(t)[p + 1..] && !Ends(es[0], t))
            && (p == 2 ==> es[0] == Query(t, true)) && (p < 2 ==> !es[0].Query?)
  {
  }

  /** What is left of a sync can be done with everything answered. */
  lemma {:induction false} Finishes(s: System, t: nat)
    requires Core(s) && Syncing(s, t) && !s.panicked && Guard(s.proc) && s.proc.video
    ensures var p := Progress(StageAt(s, t));
            && p <= 5
            && var es := Steps(t)[p..];
            && Within(s, es, t) && es != [] && es[|es| - 1] == TakeOver(t, Saved)
            && (forall e <- es :: !e.PowerCycle?)
            && Hears(s, es, t) == if p > 2 then Heard(StageAt(s, t)) else Some(s.cam.device.tracking)
    decreases 5 - Progress(StageAt(s, t))
  {
    SyncStage(s, t);
    NextStep(s, t);
    var p := Progress(StageAt(s, t));
    var es, e := Steps(t)[p..], Steps(t)[p];
    StepsFrom(t, p);
    assert s.proc.hid;
    hide Core, Apply, Enabled, Syncing, Guard, Heard, Progress, Steps, Ends;
    if p == 5 {
      RunsOne(s, e);
    } else {
      var u := Apply(s, e);
      assert Busy(s.threads, t) by { SyncIsBusy(s, t); }
      hide During, Hears, Within;
      Finishes(u, t);
      WithinStep(s, e, t, es[1..]);
    }
  }

  /** A probe that finds both nodes, and the rest of the sync. */
  function Finish(s: System, t: nat): seq<Event>
    requires Syncing(s, t) && Progress(StageAt(s, t)) <= 5
  {
    [CmdProbe(Probe(true, true))] + Steps(t)[Progress(StageAt(s, t))..]
  }

  lemma ProbeReady(s: System, t: nat)
    requires Core(s) && Syncing(s, t) && !s.panicked
    ensures var e := CmdProbe(Probe(true, true));
            && Enabled(s, e) && !Ends(e, t)
            && var u := Apply(s, e);
            && Core(u) && Syncing(u, t) && StageAt(u, t) == StageAt(s, t) && u.cam == s.cam
            && Guard(u.proc) && u.proc.video && !u.panicked
  {
    CoreStep(s, CmdProbe(Probe(true, true)));
    hide Core;
  }

  lemma FinishWithin(s: System, t: nat)
    requires Core(s) && Syncing(s, t) && !s.panicked
    ensures Progress(StageAt(s, t)) <= 5
    ensures var es := Finish(s, t);
            && Within(s, es, t) && es != [] && es[|es| - 1] == TakeOver(t, Saved)
            && (forall e <- es :: !e.PowerCycle?)
            && Hears(s, es, t)
               == if HasAsked(StageAt(s, t)) then Heard(StageAt(s, t)) else Some(s.cam.device.tracking)
  {
    SyncStage(s, t);
    ProbeReady(s, t);
    var e := CmdProbe(Probe(true, true));
    var u := Apply(s, e);
    hide Core, Apply, Enabled, Syncing, Guard, Heard, Progress, Steps, Ends, Within, Hears;
    Finishes(u, t);
    var es := Steps(t)[Progress(StageAt(s, t))..];
    WithinStep(s, e, t, es);
    assert forall f <- [e] + es :: f == e || f in es;
  }

  lemma FinishRuns(s: System, t: nat)
    requires Core(s) && Syncing(s, t) && !s.panicked
    ensures Progress(StageAt(s, t)) <= 5
    ensures var es := Finish(s, t);
            var told := if HasAsked(StageAt(s, t)) then Heard(StageAt(s, t)) else Some(s.cam.device.tracking);
            && Within(s, es, t) && es != [] && (forall e <- es :: !e.PowerCycle?)
            && Hears(s, es, t) == told
            && After(s, es).proc.belief.camera == if Usable(told) != {} then told.value else s.proc.belief.camera
  {
    FinishWithin(s, t);
    SyncOutcome(s, t, Finish(s, t));
    assert Runs(s, Finish(s, t));
    hide Core, Syncing, Heard, Progress, Within, Hears, Finish, Runs, After;
  }

  /** Another mode that a camera can come up in. */
  function OtherMode(mode: CameraState): CameraState {
    if mode == Idle then Tracking else Idle
  }

  /** The camera is power-cycled into another mode before it is asked. */
  function CycledRun(s: System, t: nat): seq<Event>
    requires Syncing(s, t) && Progress(StageAt(s, t)) <= 5
  {
    [PowerCycle(s.cam.device.(tracking := OtherMode(s.proc.belief.camera), pending := map[]))] + Finish(s, t)
  }

  lemma CycledOverrides(s: System, t: nat)
    requires Core(s) && Syncing(s, t) && !s.panicked && !HasAsked(StageAt(s, t))
    ensures Progress(StageAt(s, t)) <= 5 && Within(s, CycledRun(s, t), t)
    ensures After(s, CycledRun(s, t)).proc.belief.camera == OtherMode(s.proc.belief.camera)
  {
    SyncStage(s, t);
    var e := PowerCycle(s.cam.device.(tracking := OtherMode(s.proc.belief.camera), pending := map[]));
    CoreStep(s, e);
    var u := Apply(s, e);
    assert Syncing(u, t) && StageAt(u, t) == StageAt(s, t) && u.proc == s.proc && !u.panicked;
    assert u.cam.device.tracking == OtherMode(s.proc.belief.camera) && Finish(u, t) == Finish(s, t);
    hide Core, Apply, Enabled, Syncing, Heard, Progress, Finish;
    FinishRuns(u, t);
    WithinStep(s, e, t, Finish(s, t));
    SyncOutcome(s, t, [e] + Finish(s, t));
  }

  /**
    Exactly which syncs in flight keep the believed mode, intent on disk or not, at
    every stage. In every run: those that have had the camera's answer, if it cannot
    be used or is the believed mode. In every run without a power cycle also those
    that have not asked yet, if the camera is in the believed mode.
  */
  lemma SyncKeepsBelief(s: System, t: nat)
    requires Core(s) && Syncing(s, t) && !s.panicked
    ensures var stage, b := StageAt(s, t), s.proc.belief.camera;
            && ((forall es: seq<Event> :: Within(s, es, t) ==> After(s, es).proc.belief.camera == b)
                <==> HasAsked(stage) && Usable(Heard(stage)) <= {b})
            && ((forall es: seq<Event> :: Within(s, es, t) && (forall e: Event <- es :: !e.PowerCycle?) ==>
                   After(s, es).proc.belief.camera == b)
                <==> if HasAsked(stage) then Usable(Heard(stage)) <= {b} else s.cam.device.tracking == b)
  {
    var stage, b := StageAt(s, t), s.proc.belief.camera;
    FinishRuns(s, t);
    NeverOffline(s);
    if HasAsked(stage) {
      if Usable(Heard(stage)) <= {b} {
        forall es: seq<Event> | Within(s, es, t) ensures After(s, es).proc.belief.camera == b {
          SyncOutcome(s, t, es);
          hide Core, Within, After;
        }
      }
    } else {
      CycledOverrides(s, t);
      if s.cam.device.tracking == b {
        forall es: seq<Event> | Within(s, es, t) && (forall e: Event <- es :: !e.PowerCycle?)
          ensures After(s, es).proc.belief.camera == b
        {
          SyncOutcome(s, t, es);
          HearsTheCamera(s, t, es);
          hide Core, Within, After;
        }
      }
    }
    hide Core, Within, After, Syncing, HasAsked, Heard, Finish, CycledRun;
  }

  // ---------------------------------------------------------------------
  // From the start
  // ---------------------------------------------------------------------

  /** The startup reconcile of a daemon with a video node, up to where it knows whether intent is persisted. */
  function SetUp(): seq<Event> {
    [Spawn(0, [Reconcile])] + [Lock(0)] + [BeginReconcile(0)] + [CheckIntent(0)]
  }

  lemma SetsUp(s: System, found: Option<StateFile>) returns (u: System)
    requires Started(s, found) && s.proc.video
    ensures Runs(s, SetUp()) && u == After(s, SetUp()) && Core(u)
    ensures u == s.(threads := map[0 := Holding(None, [if s.proc.intent then Restore else Sync(false)], Ready)],
                    hidMu := Some(0))
  {
    StartsIdle(s, found);
    hide *;
    ReconcileStarts();
    var a := [Spawn(0, [Reconcile])] + [Lock(0)];
    var s1 := Arrives(s, 0, [Reconcile]);
    var th := Holding(None, [Intended], Ready);
    var last := Holding(None, [if s.proc.intent then Restore else Sync(false)], Ready);
    ReconcileSteps(s1);
    var s2 := HeldStep(s, a, s1, BeginReconcile(0), th);
    ReconcileSteps(s2);
    u := HeldStep(s, a + [BeginReconcile(0)], s2, CheckIntent(0), last);
    Overwritten(s.threads, Holding(None, [Reconcile], Ready), th, last);
    SetUpIs();
  }

  lemma Overwritten(threads: ThreadMap, a: Thread, b: Thread, c: Thread)
    requires threads == map[]
    ensures threads[0 := a][0 := b][0 := c] == map[0 := c]
  {
  }

  lemma SetUpIs()
    ensures SetUp() == [Spawn(0, [Reconcile])] + [Lock(0)] + [BeginReconcile(0)] + [CheckIntent(0)]
  {
  }

  /** One more step of a run by its only thread. */
  lemma HeldStep(s: System, es: seq<Event>, u: System, e: Event, th: Thread) returns (v: System)
    requires Core(u) && Runs(s, es) && u == After(s, es) && Enabled(u, e)
    requires Apply(u, e) == u.(threads := u.threads[0 := th])
    ensures Runs(s, es + [e]) && v == After(s, es + [e]) && Core(v) && v == u.(threads := u.threads[0 := th])
  {
    CoreStep(u, e);
    hide Apply, Enabled, Core;
    RunsOne(u, e);
    RunsConcat(s, es, [e]);
    v := Apply(u, e);
  }

  lemma StartsIdle(s: System, found: Option<StateFile>)
    requires Started(s, found)
    ensures Core(s) && s.threads == map[] && s.hidMu == None && !s.panicked
  {
    StartedInv(s, found);
  }

  lemma ReconcileStarts()
    ensures Startable([Reconcile])
  {
  }

  lemma ReconcileSteps(u: System)
    requires Core(u) && !u.panicked && u.proc.video && 0 in u.threads && u.threads[0].Holding?
    requires u.threads[0].again == None && u.threads[0].stage == Ready
    ensures u.threads[0].ops == [Reconcile] ==>
              && Enabled(u, BeginReconcile(0))
              && Apply(u, BeginReconcile(0)) == u.(threads := u.threads[0 := Holding(None, [Intended], Ready)])
    ensures u.threads[0].ops == [Intended] ==>
              var left := if u.proc.intent then Restore else Sync(false);
              && Enabled(u, CheckIntent(0))
              && Apply(u, CheckIntent(0)) == u.(threads := u.threads[0 := Holding(None, [left], Ready)])
  {
    var ops := u.threads[0].ops;
    assert |ops| == 1 ==> ops[1..] == [];
    assert [Intended] + [] == [Intended] && [Restore] + [] == [Restore] && [Sync(false)] + [] == [Sync(false)];
    hide Core;
  }

  lemma RestoreIsNext(u: System)
    requires 0 in u.threads && u.threads[0] == Holding(None, [Restore], Ready) && !u.panicked
    ensures Enabled(u, BeginRestore(0, true, [])) && BareQuery(u, BeginRestore(0, true, []))
  {
  }

  /**
    Without a handle the startup reconcile of a daemon with persisted intent ends
    it, and unplugging it in time does too.
  */
  lemma PanicIsReachable(s: System, found: Option<StateFile>)
    requires Started(s, found) && s.proc.video && s.proc.intent
    ensures var e := BeginRestore(0, true, []);
            && (!s.proc.hid ==> Runs(s, SetUp() + [e]) && After(s, SetUp() + [e]).panicked)
            && Runs(s, SetUp() + Unplugged(e)) && After(s, SetUp() + Unplugged(e)).panicked
  {
    StartsIdle(s, found);
    hide *;
    var u := SetsUp(s, found);
    var e := BeginRestore(0, true, []);
    RestoreIsNext(u);
    UnplugPanics(u, e);
    RunsConcat(s, SetUp(), Unplugged(e));
    if !s.proc.hid {
      PanicsExactly(u, e);
      RunsOne(u, e);
      RunsConcat(s, SetUp(), [e]);
    }
  }

  /** The first steps of a sync. */
  lemma {:induction false} SomeSteps(u: System, t: nat, k: nat) returns (v: System)
    requires Core(u) && Syncing(u, t) && StageAt(u, t) == Ready && !u.panicked && Guard(u.proc) && u.proc.video
             && k <= 5
    ensures Runs(u, Steps(t)[..k]) && v == After(u, Steps(t)[..k]) && Core(v)
    ensures Syncing(v, t) && Progress(StageAt(v, t)) == k && OpAt(v, t) == OpAt(u, t)
    ensures v.proc == u.proc && v.cam == u.cam && !v.panicked
    ensures k > 2 ==> Heard(StageAt(v, t)) == Some(u.cam.device.tracking)
    decreases k
  {
    if k == 0 {
      v := u;
      assert Steps(t)[..0] == [];
    } else {
      var w := SomeSteps(u, t, k - 1);
      NextStep(w, t);
      var e := Steps(t)[k - 1];
      v := Apply(w, e);
      assert OpAt(v, t) == OpAt(w, t) by { hide Apply, Core, Enabled; }
      hide Core, Apply, Enabled, Runs, After, Syncing, Guard, Heard, Progress;
      RunsOne(w, e);
      RunsConcat(u, Steps(t)[..k - 1], [e]);
      assert Steps(t)[..k] == Steps(t)[..k - 1] + [e];
    }
  }

  /** A fresh install's sync, `k` steps far. */
  function FreshSync(k: nat): seq<Event>
    requires k <= 5
  {
    SetUp() + Steps(0)[..k]
  }

  lemma FreshSyncRuns(s: System, found: Option<StateFile>, k: nat) returns (v: System)
    requires Started(s, found) && Guard(s.proc) && s.proc.video && !s.proc.intent && k <= 5
    ensures Runs(s, FreshSync(k)) && v == After(s, FreshSync(k)) && Core(v) && !v.panicked
    ensures Syncing(v, 0) && Progress(StageAt(v, 0)) == k && OpAt(v, 0) == Sync(false)
    ensures v.proc == s.proc && v.cam == s.cam && (k > 2 ==> Heard(StageAt(v, 0)) == Some(s.cam.device.tracking))
  {
    StartsIdle(s, found);
    var u := SetsUp(s, found);
    hide Core, Apply, Enabled, Runs, After, Started, SetUp, Guard, Heard, Progress;
    v := SomeSteps(u, 0, k);
    RunsConcat(s, SetUp(), Steps(0)[..k]);
  }

  /** Each of its three questions is one more place where an unplugged camera ends the daemon. */
  lemma UnplugIsReachable(s: System, found: Option<StateFile>, k: nat)
    requires Started(s, found) && Guard(s.proc) && s.proc.video && !s.proc.intent && 2 <= k <= 4
    ensures var es := FreshSync(k) + Unplugged(Query(0, true));
            Runs(s, es) && After(s, es).panicked
  {
    var v := FreshSyncRuns(s, found, k);
    var e := Query(0, true);
    assert Enabled(v, e) && BareQuery(v, e) by {
      SyncStage(v, 0);
      hide Core, Started, Runs, After;
    }
    hide Core, Apply, Enabled, Runs, After, Started, FreshSync;
    UnplugPanics(v, e);
    RunsConcat(s, FreshSync(k), Unplugged(e));
  }

  /**
    A started daemon without a file loses intent at every stage of its first sync:
    after `k` of its steps a command saves, the believed mode is on disk as intent,
    and the rest of the sync is still possible and replaces it by the camera's mode.
  */
  lemma SyncOverrideIsReachable(s: System, found: Option<StateFile>, k: nat)
    requires Started(s, found) && Guard(s.proc) && s.proc.video && !s.proc.intent && k <= 5
    ensures var a := FreshSync(k) + [OtherSave(Saved)];
            && Runs(s, a)
            && var v := After(s, a);
            && v.proc.intent && Load(v.proc.file) == Some(s.proc.belief)
            && Syncing(v, 0) && Progress(StageAt(v, 0)) == k
            && Runs(s, a + Finish(v, 0))
            && After(s, a + Finish(v, 0)).proc.belief.camera == s.cam.device.tracking
  {
    StartedInv(s, found);
    NeverOffline(s);
    hide Core, Apply, Enabled, Runs, After, Started, FreshSync, Syncing, Guard, Heard, Progress, Finish;
    var u := FreshSyncRuns(s, found, k);
    var e := OtherSave(Saved);
    SavedIntent(u, 0);
    CoreStep(u, e);
    var v := Apply(u, e);
    RunsOne(u, e);
    RunsConcat(s, FreshSync(k), [e]);
    FinishRuns(v, 0);
    RunsConcat(s, FreshSync(k) + [e], Finish(v, 0));
  }

  lemma SavedIntent(s: System, t: nat)
    requires Syncing(s, t) && Proper(s.threads, s.hidMu) && !s.panicked && s.proc.belief.camera != Offline
    ensures Enabled(s, OtherSave(Saved))
    ensures var v := Apply(s, OtherSave(Saved));
            && v.proc.intent && Load(v.proc.file) == Some(s.proc.belief)
            && Syncing(v, t) && StageAt(v, t) == StageAt(s, t) && v.cam == s.cam && !v.panicked
  {
    hide Proper;
  }
}
