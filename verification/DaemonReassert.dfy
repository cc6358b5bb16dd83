/** Privacy-trap re-asserts: where they come from, what they check, what they leave. */
module DaemonReassert {
  import opened Base
  import opened PixyWire
  import opened PixyDevice
  import opened Presets
  import opened DaemonSystem
  import opened DaemonSafety
  import opened DaemonTheorems
  import opened DaemonSchedules

  // ---------------------------------------------------------------------
  // Re-asserts
  // ---------------------------------------------------------------------

  /**
    A re-assert is scheduled exactly when a thread that is not itself a re-assert
    has written tracking or idle and finds the trap armed, and it is for that mode.
  */
  lemma ReassertsComeFromWrites(s: System, e: Event, r: nat)
    requires Core(s) && Enabled(s, e) && r !in s.threads && !e.Spawn?
    ensures e.TrapLook? ==> s.threads[e.t].again.None? && OpAt(s, e.t).Set? && OpAt(s, e.t).iface == IF_TRACKING
    ensures r in Apply(s, e).threads
            <==> e.TrapLook? && e.r == r && s.proc.armed && CameraOfByte(OpAt(s, e.t).mode) != Privacy
    ensures r in Apply(s, e).threads ==>
              Apply(s, e).threads[r] == Delayed(CameraOfByte(OpAt(s, e.t).mode))
              && (Apply(s, e).threads[r].mode == Idle || Apply(s, e).threads[r].mode == Tracking)
  {
    if e.TrapLook? {
      Acting(s.threads, s.hidMu, e.t);
      hide Proper, PlanOk, CamOk, HolderOk, Rest, Done;
    } else {
      OnlyLooksStart(s, e, r);
      hide Apply, Enabled, Core;
    }
  }

  lemma OnlyLooksStart(s: System, e: Event, r: nat)
    requires Core(s) && Enabled(s, e) && r !in s.threads && !e.Spawn? && !e.TrapLook?
    ensures r !in Apply(s, e).threads
  {
    hide Core, Proper, Rest, MotorReports, ReconcilePlan, ReassertPlan, ConfigArrives, CommitArrives, MotorArrives,
         ConfigOk, CommitOk, MotorOk, Believed, Adopted, Booted, Probed, StruckAndProbed, Stable, AfterLook, Guard,
         Refused, Answered, SavedAs;
  }

  // ---------------------------------------------------------------------
  // The check
  // ---------------------------------------------------------------------

  /** The j-th event is the thread's timer, and it found belief equal to the thread's mode. */
  ghost predicate ChecksAt(s: System, es: seq<Event>, j: nat, t: nat, mode: CameraState)
    requires j < |es|
  {
    && es[j] == TimerFires(t) && Runs(s, es[..j])
    && var u := After(s, es[..j]);
    && t in u.threads && u.threads[t] == Delayed(mode) && u.proc.belief.camera == mode
  }

  /** Somewhere in the run the thread's timer fired and found belief equal to its mode. */
  ghost predicate Checked(s: System, es: seq<Event>, t: nat, mode: CameraState) {
    exists j | 0 <= j < |es| :: ChecksAt(s, es, j, t, mode)
  }

  /** The thread is past its timer: it waits for hidMu or holds it. */
  predicate Past(threads: ThreadMap, t: nat, mode: CameraState) {
    t in threads && !threads[t].Delayed? && threads[t].again == Some(mode)
  }

  lemma CheckedLater(s: System, es: seq<Event>, e: Event, t: nat, mode: CameraState)
    requires Checked(s, es, t, mode)
    ensures Checked(s, es + [e], t, mode)
  {
    var j :| 0 <= j < |es| && ChecksAt(s, es, j, t, mode);
    assert (es + [e])[..j] == es[..j];
    assert ChecksAt(s, es + [e], j, t, mode);
  }

  /** The only step that brings a re-assert past its timer is a timer that finds its mode believed. */
  lemma PastStep(s: System, e: Event, t: nat, mode: CameraState)
    requires Core(s) && Enabled(s, e) && Past(Apply(s, e).threads, t, mode)
    ensures Past(s.threads, t, mode)
            || (e == TimerFires(t) && t in s.threads && s.threads[t] == Delayed(mode) && s.proc.belief.camera == mode)
  {
    if HolderEvent(e) {
      Acting(s.threads, s.hidMu, e.t);
      if t == e.t {
        SameAgain(s, e);
      } else {
        OtherThreads(s, e, t);
      }
    } else {
      PastQuiet(s, e, t, mode);
    }
    hide Core, Apply, Enabled;
  }

  lemma PastQuiet(s: System, e: Event, t: nat, mode: CameraState)
    requires Core(s) && Enabled(s, e) && Past(Apply(s, e).threads, t, mode) && !HolderEvent(e)
    ensures Past(s.threads, t, mode)
            || (e == TimerFires(t) && t in s.threads && s.threads[t] == Delayed(mode) && s.proc.belief.camera == mode)
  {
    QuietThread(s, e, t);
    hide Core, Apply, Enabled, ReassertPlan;
  }

  lemma CheckedNow(s: System, es: seq<Event>, t: nat, mode: CameraState)
    requires es != [] && ChecksAt(s, es, |es| - 1, t, mode)
    ensures Checked(s, es, t, mode)
  {
    hide ChecksAt;
  }

  lemma {:induction false} PastIsChecked(s: System, es: seq<Event>, t: nat, mode: CameraState)
    requires Core(s) && s.threads == map[] && Runs(s, es) && Past(After(s, es).threads, t, mode)
    ensures Checked(s, es, t, mode)
    decreases |es|
  {
    if es != [] {
      var k := |es| - 1;
      var pre, e := es[..k], es[k];
      RunsAt(s, es, k);
      assert es[..k + 1] == es && pre + [e] == es;
      var u := After(s, pre);
      hide Core, Apply, Enabled, Runs, After, Past, Checked;
      PastStep(u, e, t, mode);
      if Past(u.threads, t, mode) {
        PastIsChecked(s, pre, t, mode);
        CheckedLater(s, pre, e, t, mode);
      } else {
        CheckedNow(s, es, t, mode);
      }
    }
  }

  /** The n-th applied mode is committed by the k-th event. */
  ghost predicate CommitsAt(s: System, es: seq<Event>, k: nat, n: nat)
    requires k < |es|
  {
    && es[k].SendCommit? && Runs(s, es[..k]) && Runs(s, es[..k + 1])
    && var before, after := After(s, es[..k]), After(s, es[..k + 1]);
    && es[k].t in before.threads && before.threads[es[k].t].Holding?
    && |before.cam.applied| == n && |after.cam.applied| == n + 1
  }

  lemma AppliedStep(s: System, e: Event)
    requires Core(s) && Enabled(s, e)
    ensures var u := Apply(s, e);
            || u.cam.applied == s.cam.applied
            || (e.SendCommit? && e.t in s.threads && s.threads[e.t].Holding? && |u.cam.applied| == |s.cam.applied| + 1
                && u.cam.applied[..|s.cam.applied|] == s.cam.applied)
  {
    hide Core, Receive, Sent, At, Done, AfterBelieve, AfterLook, AfterTimer, AfterProbe, Instead, ReconcilePlan, PlanOk,
         MotorReports, Believed, Adopted, Booted, Probed, StruckAndProbed, SavedAs, Stable, ConfigOk, CommitOk, MotorOk;
  }

  lemma {:induction false} EntryHasCommit(s: System, es: seq<Event>, n: nat) returns (k: nat)
    requires Core(s) && Runs(s, es) && |s.cam.applied| <= n < |After(s, es).cam.applied|
    ensures k < |es| && CommitsAt(s, es, k, n)
    decreases |es|
  {
    if es == [] {
      assert false;
    } else {
      k := |es| - 1;
      var pre := es[..k];
      RunsAt(s, es, k);
      assert es[..k + 1] == es;
      var u := After(s, pre);
      AppliedStep(u, es[k]);
      hide Core, Apply, Enabled, Runs, After;
      if n < |u.cam.applied| {
        k := EntryHasCommit(s, pre, n);
        assert pre[..k] == es[..k] && pre[..k + 1] == es[..k + 1];
      }
    }
  }

  /**
    In every run of a started daemon each applied mode has the step that committed
    it, and if that step is a re-assert's, the re-assert's timer had fired earlier
    and found the re-assert's mode believed: one whose mode is no longer believed at
    its check never applies anything.
  */
  lemma ReassertEntriesWereChecked(s: System, es: seq<Event>, found: Option<StateFile>, n: nat) returns (k: nat)
    requires Started(s, found) && Runs(s, es) && n < |After(s, es).cam.applied|
    ensures k < |es| && CommitsAt(s, es, k, n)
    ensures var th := After(s, es[..k]).threads[es[k].t];
            th.again.Some? ==> Checked(s, es[..k], es[k].t, th.again.value)
  {
    StartedInv(s, found);
    hide Started;
    k := EntryHasCommit(s, es, n);
    var t, u := es[k].t, After(s, es[..k]);
    if u.threads[t].again.Some? {
      hide Core, Runs, After;
      PastIsChecked(s, es[..k], t, u.threads[t].again.value);
    }
  }

  const IDLE_BYTE: Byte := 0
  const TRACKING_BYTE: Byte := 1

  /** The last entry of the log is that mode of the camera. */
  predicate LastIs(applied: seq<Entry>, back: nat, mode: Byte) {
    |applied| > back && applied[|applied| - 1 - back].iface == IF_TRACKING && applied[|applied| - 1 - back].mode == mode
  }

  /** Where a tracking re-assert stands in the log of applied modes. */
  ghost predicate BounceLogged(applied: seq<Entry>, th: Thread) {
    th.Holding? && th.again == Some(Tracking) && th.ops != [] ==>
      if |th.ops| == 2 then th.stage.Committed? ==> LastIs(applied, 0, IDLE_BYTE)
      else if th.stage.Committed? then LastIs(applied, 0, TRACKING_BYTE) && LastIs(applied, 1, IDLE_BYTE)
      else th.stage == Ready || th.stage.Configured? ==> LastIs(applied, 0, IDLE_BYTE)
  }

  ghost predicate Bouncing(s: System) {
    forall t <- s.threads :: BounceLogged(s.cam.applied, s.threads[t])
  }

  lemma TrackingOps(th: Thread)
    requires ThreadOk(th, true) && th.Holding? && th.again == Some(Tracking) && th.ops != []
    ensures th.ops == ReassertPlan(Tracking) || th.ops == [Set(IF_TRACKING, TRACKING_BYTE, GoOn)]
    ensures th.ops[0].Set? && th.ops[0].iface == IF_TRACKING
    ensures |th.ops| == 2 ==>
              th.ops[0] == Set(IF_TRACKING, IDLE_BYTE, GiveUp) && th.ops[1..] == [Set(IF_TRACKING, TRACKING_BYTE, GoOn)]
    ensures |th.ops| == 1 ==> th.ops[0].mode == TRACKING_BYTE && th.ops[1..] == []
  {
  }

  /** The acting thread is the only one whose place in the log can change. */
  lemma OthersBounce(s: System, t: nat, applied: seq<Entry>, u: nat)
    requires Proper(s.threads, s.hidMu) && s.hidMu == Some(t) && u in s.threads && u != t
    ensures BounceLogged(applied, s.threads[u])
  {
    assert ThreadOk(s.threads[u], false);
  }

  lemma BounceStep(s: System, e: Event)
    requires Core(s) && Enabled(s, e) && Bouncing(s)
    ensures Bouncing(Apply(s, e))
  {
    var u := Apply(s, e);
    if HolderEvent(e) {
      Acting(s.threads, s.hidMu, e.t);
      forall r | r in u.threads ensures BounceLogged(u.cam.applied, u.threads[r]) {
        if r == e.t {
          BounceActing(s, e);
        } else {
          if r in s.threads {
            OthersBounce(s, e.t, u.cam.applied, r);
          }
          OtherThreads(s, e, r);
        }
      }
    } else {
      QuietBounce(s, e);
    }
    hide *;
  }

  lemma QuietBounce(s: System, e: Event)
    requires Core(s) && Enabled(s, e) && Bouncing(s) && !HolderEvent(e)
    ensures Bouncing(Apply(s, e))
  {
    var u := Apply(s, e);
    SameLog(s, e);
    forall r | r in u.threads ensures BounceLogged(u.cam.applied, u.threads[r]) {
      if u.threads[r].Holding? {
        HolderBefore(s, e, r);
        assert BounceLogged(s.cam.applied, s.threads[r]);
        assert ThreadOk(s.threads[r], s.hidMu == Some(r));
      }
      hide Apply, Enabled, Core, PlanOk;
    }
  }

  lemma SameLog(s: System, e: Event)
    requires Core(s) && Enabled(s, e) && !HolderEvent(e)
    ensures Apply(s, e).cam.applied == s.cam.applied
  {
    hide Core, AfterTimer, Booted, Probed, SavedAs, Stable, Startable;
  }

  lemma BounceActing(s: System, e: Event)
    requires Core(s) && Enabled(s, e) && Bouncing(s) && HolderEvent(e) && s.hidMu == Some(e.t) && e.t in s.threads
    ensures e.t in Apply(s, e).threads ==> BounceLogged(Apply(s, e).cam.applied, Apply(s, e).threads[e.t])
  {
    var t := e.t;
    var th := s.threads[t];
    Acting(s.threads, s.hidMu, t);
    assert BounceLogged(s.cam.applied, th);
    if th.again == Some(Tracking) && th.ops != [] {
      TrackingOps(th);
      BounceWrite(s, e);
    } else {
      SameAgain(s, e);
    }
  }

  /** A tracking re-assert inside one of its writes, where the log has it. */
  ghost predicate InBounce(s: System, t: nat) {
    && s.hidMu == Some(t) && t in s.threads
    && var th := s.threads[t];
    && th.Holding? && th.again == Some(Tracking) && th.ops != [] && BounceLogged(s.cam.applied, th)
    && th.ops[0].Set? && th.ops[0].iface == IF_TRACKING
    && (|th.ops| == 2 ==> th.ops[0] == Set(IF_TRACKING, IDLE_BYTE, GiveUp)
                          && th.ops[1..] == [Set(IF_TRACKING, TRACKING_BYTE, GoOn)])
    && (|th.ops| == 1 ==> th.ops[0].mode == TRACKING_BYTE && th.ops[1..] == [])
    && |th.ops| <= 2
  }

  lemma BounceWrite(s: System, e: Event)
    requires Core(s) && Enabled(s, e) && HolderEvent(e) && InBounce(s, e.t)
    ensures e.t in Apply(s, e).threads
    ensures BounceLogged(Apply(s, e).cam.applied, Apply(s, e).threads[e.t])
  {
    Acting(s.threads, s.hidMu, e.t);
    if e.SendConfig? || e.SendCommit? {
      BounceSend(s, e);
    } else {
      hide Core, Proper, PlanOk, MotorReports, ReconcilePlan, MotorArrives, MotorOk, Believed, Adopted, Probed,
           StruckAndProbed, Struck, Cleared, AfterLook, AfterProbe, Guard, Queries, Reconciles, Decides, Restores;
    }
    hide Apply, Enabled, InBounce;
  }

  lemma BounceSend(s: System, e: Event)
    requires Core(s) && Enabled(s, e) && (e.SendConfig? || e.SendCommit?) && InBounce(s, e.t)
    ensures e.t in Apply(s, e).threads
    ensures BounceLogged(Apply(s, e).cam.applied, Apply(s, e).threads[e.t])
  {
    var op, stage := OpAt(s, e.t), StageAt(s, e.t);
    Acting(s.threads, s.hidMu, e.t);
    if e.SendConfig? {
      ConfigOf(s.cam, op, e.link);
    } else {
      assert StageOk(s.cam, 0, op, stage);
      CommitOf(s.cam, op, stage.call, e.link);
    }
    hide Proper, PlanOk, CamOk, HolderOk, StageOk, ThreadOk, ConfigArrives, CommitArrives, ConfigOk, CommitOk, Stable,
         ModeByte, Guard;
  }

  lemma {:induction false} BounceRuns(s: System, es: seq<Event>)
    requires Core(s) && Bouncing(s) && Runs(s, es)
    ensures Core(After(s, es)) && Bouncing(After(s, es))
    decreases |es|
  {
    if es != [] {
      CoreStep(s, es[0]);
      BounceStep(s, es[0]);
      hide Apply, Core, Enabled, Bouncing;
      BounceRuns(Apply(s, es[0]), es[1..]);
    }
  }

  /**
    In every run, when a tracking re-assert gets through, the last two modes the
    camera applied are idle and then tracking with nothing in between, belief is
    tracking, and so is the camera unless it was power-cycled since.
  */
  lemma ReassertBounces(s: System, es: seq<Event>, found: Option<StateFile>, t: nat, save: Save)
    requires Started(s, found) && Runs(s, es) && Enabled(After(s, es), Believe(t, save))
    requires After(s, es).threads[t].again == Some(Tracking) && |After(s, es).threads[t].ops| == 1
    ensures var v := After(s, es);
            && Core(v)
            && LastIs(v.cam.applied, 1, IDLE_BYTE) && LastIs(v.cam.applied, 0, TRACKING_BYTE)
            && var w := Apply(v, Believe(t, save));
            && w.proc.belief.camera == Tracking
            && (v.threads[t].stage.epoch == v.cam.epoch ==> w.cam.device.tracking == Tracking)
            && w.threads[t] == Holding(Some(Tracking), [], Ready)
  {
    StartedInv(s, found);
    BounceRuns(s, es);
    InvRuns(s, es, found);
    var v := After(s, es);
    hide Runs, Started, After;
    Acting(v.threads, v.hidMu, t);
    TrackingOps(v.threads[t]);
    assert BounceLogged(v.cam.applied, v.threads[t]);
    BeliefMoves(v, Believe(t, save), found);
    hide Proper, CamOk, HolderOk, ReassertPlan, PlanOk, ThreadOk;
  }

  // ---------------------------------------------------------------------
  // What a re-assert leaves, in every run
  // ---------------------------------------------------------------------

  /** The camera modes the thread's writes have put into belief, in order. */
  ghost function Wrote(s: System, es: seq<Event>, t: nat): seq<CameraState>
    requires Runs(s, es)
    decreases |es|
  {
    if es == [] then [] else WroteBy(s, es[0], t) + Wrote(Apply(s, es[0]), es[1..], t)
  }

  function WroteBy(s: System, e: Event, t: nat): seq<CameraState> {
    if e.Believe? && e.t == t && Busy(s.threads, t) && OpAt(s, t).Set? && OpAt(s, t).iface == IF_TRACKING
    then [CameraOfByte(OpAt(s, t).mode)] else []
  }

  /** How far a re-assert with `left` operations to go can have got, and what belief is then. */
  predicate Outcome(mode: CameraState, was: CameraState, wrote: seq<CameraState>, left: nat, now: CameraState) {
    && (mode == Idle || mode == Tracking)
    && now == (if wrote == [] then was else wrote[|wrote| - 1])
    && match left
       case 0 => wrote == [] || wrote == [Idle] || (mode == Tracking && wrote == [Idle, Tracking])
       case 1 => wrote == if mode == Tracking then [Idle] else []
       case 2 => mode == Tracking && wrote == []
       case _ => false
  }

  /** The re-assert holds hidMu. */
  predicate Reasserting(s: System, t: nat, mode: CameraState) {
    s.hidMu == Some(t) && t in s.threads && s.threads[t].Holding? && s.threads[t].again == Some(mode)
  }

  /** The re-assert's next operation, in both of its shapes. */
  lemma AgainShape(th: Thread, mode: CameraState)
    requires ThreadOk(th, true) && th.again == Some(mode)
    ensures mode == Idle || mode == Tracking
    ensures th.ops != [] ==>
              var rest := th.ops[1..];
              && th.ops[0].Set? && th.ops[0].iface == IF_TRACKING && |th.ops| <= 2 && |rest| == |th.ops| - 1
              && th.ops[0].mode == (if |th.ops| == 2 || mode == Idle then IDLE_BYTE else TRACKING_BYTE)
              && (|th.ops| == 2 ==> mode == Tracking)
              && Rest(RuleOf(th.ops[0]), rest) == []
  {
  }

  lemma OutcomeStep(s: System, e: Event, t: nat, mode: CameraState, was: CameraState, wrote: seq<CameraState>)
    requires Core(s) && Enabled(s, e) && Reasserting(s, t, mode) && e != Unlock(t) && !e.Restart?
    requires Outcome(mode, was, wrote, |s.threads[t].ops|, s.proc.belief.camera)
    ensures var u := Apply(s, e);
            Reasserting(u, t, mode)
            && Outcome(mode, was, wrote + WroteBy(s, e, t), |u.threads[t].ops|, u.proc.belief.camera)
  {
    if HolderEvent(e) {
      Acting(s.threads, s.hidMu, e.t);
      AgainShape(s.threads[t], mode);
      OutcomeHolder(s, e, t, mode, was, wrote);
    } else {
      OutcomeQuiet(s, e, t, mode);
      assert wrote + [] == wrote;
    }
    hide *;
  }

  lemma OutcomeQuiet(s: System, e: Event, t: nat, mode: CameraState)
    requires Core(s) && Enabled(s, e) && Reasserting(s, t, mode) && e != Unlock(t) && !e.Restart? && !HolderEvent(e)
    ensures var u := Apply(s, e);
            && Reasserting(u, t, mode) && u.threads[t] == s.threads[t]
            && u.proc.belief == s.proc.belief && WroteBy(s, e, t) == []
  {
    if e.Unlock? {
      Acting(s.threads, s.hidMu, e.t);
    }
    HolderStays(s, e);
    QuietProc(s, e);
    hide Core, Proper, PlanOk, Apply, Stable, MotorReports;
  }

  lemma OutcomeHolder(s: System, e: Event, t: nat, mode: CameraState, was: CameraState, wrote: seq<CameraState>)
    requires Core(s) && Enabled(s, e) && Reasserting(s, t, mode) && HolderEvent(e) && e.t == t
    requires Outcome(mode, was, wrote, |s.threads[t].ops|, s.proc.belief.camera)
    requires var th := s.threads[t];
             th.ops != [] ==>
               && th.ops[0].Set? && th.ops[0].iface == IF_TRACKING && |th.ops| <= 2 && |th.ops[1..]| == |th.ops| - 1
               && th.ops[0].mode == (if |th.ops| == 2 || mode == Idle then IDLE_BYTE else TRACKING_BYTE)
               && (|th.ops| == 2 ==> mode == Tracking)
               && Rest(RuleOf(th.ops[0]), th.ops[1..]) == []
    ensures var u := Apply(s, e);
            Reasserting(u, t, mode)
            && Outcome(mode, was, wrote + WroteBy(s, e, t), |u.threads[t].ops|, u.proc.belief.camera)
  {
    Acting(s.threads, s.hidMu, t);
    assert wrote + [] == wrote;
    hide Proper, PlanOk, CamOk, HolderOk, ThreadOk, Rest, MotorReports, ReconcilePlan, ConfigArrives, CommitArrives,
         MotorArrives, ConfigOk, CommitOk, MotorOk, Adopted, Probed, Stable;
  }

  /** Neither the thread's release nor a restart. */
  ghost predicate Stays(es: seq<Event>, t: nat) {
    forall e <- es :: e != Unlock(t) && !e.Restart?
  }

  lemma StaysThrough(t: nat, a: seq<Event>, b: seq<Event>)
    requires Stays(a, t) && Stays(b, t)
    ensures Stays(a + b, t)
  {
  }

  lemma StaysRest(es: seq<Event>, t: nat)
    requires es != [] && Stays(es, t)
    ensures es[0] != Unlock(t) && !es[0].Restart? && Stays(es[1..], t)
  {
    assert es[0] in es && forall e <- es[1..] :: e in es;
  }

  lemma StepsStay(t: nat)
    ensures Stays([Lock(t)] + [CmdProbe(Probe(true, true))], t) && Stays(Write(t), t)
    ensures Stays([SendConfig(t, Lost)] + [Strike(t, Probe(false, false))], t)
  {
  }

  lemma WroteLater(s: System, e: Event, rest: seq<Event>, t: nat, wrote: seq<CameraState>)
    requires Runs(s, [e] + rest)
    ensures Runs(Apply(s, e), rest)
    ensures wrote + Wrote(s, [e] + rest, t) == wrote + WroteBy(s, e, t) + Wrote(Apply(s, e), rest, t)
  {
    hide Apply, Enabled, Proper, WroteBy;
    assert ([e] + rest)[1..] == rest;
  }

  lemma {:induction false} OutcomeRuns(s: System, es: seq<Event>, t: nat, mode: CameraState, was: CameraState,
          wrote: seq<CameraState>)
    requires Core(s) && Runs(s, es) && Reasserting(s, t, mode) && Stays(es, t)
    requires Outcome(mode, was, wrote, |s.threads[t].ops|, s.proc.belief.camera)
    ensures var v := After(s, es);
            Reasserting(v, t, mode)
            && Outcome(mode, was, wrote + Wrote(s, es, t), |v.threads[t].ops|, v.proc.belief.camera)
    decreases |es|
  {
    if es == [] {
      assert wrote + [] == wrote;
    } else {
      var e, rest := es[0], es[1..];
      StaysRest(es, t);
      hide Core, Apply, Enabled, Outcome, Reasserting, WroteBy, Stays;
      CoreStep(s, e);
      OutcomeStep(s, e, t, mode, was, wrote);
      var u := Apply(s, e);
      OutcomeRuns(u, rest, t, mode, was, wrote + WroteBy(s, e, t));
      WroteLater(s, e, rest, t, wrote);
      assert es == [e] + rest;
    }
  }

  /** A run in which the waiting re-assert takes the lock and is done with its plan, the lock still in its hands. */
  ghost predicate Through(s: System, t: nat, mode: CameraState, es: seq<Event>) {
    && es != [] && es[0] == Lock(t) && Runs(s, es)
    && Stays(es, t)
    && Reasserting(After(s, es), t, mode) && After(s, es).threads[t].ops == []
  }

  /**
    Every run of a re-assert from the moment it takes the lock, whatever its writes
    meet and whatever else happens. If its first write never completes, belief is
    what it was; if only the idle bounce completes, belief is idle; if the write of
    the mode completes, belief is the mode.
  */
  lemma ReassertOutcome(s: System, t: nat, mode: CameraState, es: seq<Event>)
    requires Core(s) && t in s.threads && s.threads[t] == Waiting(Some(mode), ReassertPlan(mode))
             && Through(s, t, mode, es)
    ensures var w, now := Wrote(s, es, t), After(s, es).proc.belief.camera;
            || (w == [] && now == s.proc.belief.camera)
            || (w == [Idle] && now == Idle)
            || (mode == Tracking && w == [Idle, Tracking] && now == Tracking)
  {
    CoreStep(s, es[0]);
    var s1 := Apply(s, es[0]);
    assert ThreadOk(s.threads[t], s.hidMu == Some(t));
    assert s1.threads[t] == Holding(Some(mode), ReassertPlan(mode), Ready) && s1.proc == s.proc;
    assert Outcome(mode, s.proc.belief.camera, [], |ReassertPlan(mode)|, s.proc.belief.camera);
    assert forall e <- es[1..] :: e in es;
    hide Core, Apply, Enabled;
    OutcomeRuns(s1, es[1..], t, mode, s.proc.belief.camera, []);
    assert Wrote(s, es, t) == Wrote(s1, es[1..], t);
  }

  // ---------------------------------------------------------------------
  // The gap between the check and the lock
  // ---------------------------------------------------------------------

  /** The steps of a re-assert that gets the lock and a live device. */
  function ReassertRun(t: nat, mode: CameraState): seq<Event> {
    [Lock(t)] + [CmdProbe(Probe(true, true))] + (if mode == Tracking then Write(t) else []) + Write(t)
  }

  /** The same with the write after the bounce lost. */
  function BounceOnly(t: nat): seq<Event> {
    [Lock(t)] + [CmdProbe(Probe(true, true))] + Write(t) + [SendConfig(t, Lost)] + [Strike(t, Probe(false, false))]
  }

  /** The lock is taken and a probe has found both nodes. */
  lemma TakesLock(s: System, t: nat, mode: CameraState) returns (u: System)
    requires Core(s) && !s.panicked && s.hidMu == None
    requires t in s.threads && s.threads[t] == Waiting(Some(mode), ReassertPlan(mode))
    ensures var es := [Lock(t)] + [CmdProbe(Probe(true, true))];
            Runs(s, es) && u == After(s, es)
    ensures Core(u) && !u.panicked && Guard(u.proc) && u.proc.belief == s.proc.belief
    ensures u.hidMu == Some(t) && u.threads == s.threads[t := Holding(Some(mode), ReassertPlan(mode), Ready)]
    ensures mode == Idle || mode == Tracking
  {
    assert ThreadOk(s.threads[t], s.hidMu == Some(t));
    var e1, e2 := Lock(t), CmdProbe(Probe(true, true));
    CoreStep(s, e1);
    var s1 := Apply(s, e1);
    CoreStep(s1, e2);
    u := Apply(s1, e2);
    RunsOne(s, e1);
    RunsOne(s1, e2);
    RunsConcat(s, [e1], [e2]);
    hide Core, Runs, After;
  }

  /** With nothing lost the re-assert ends with camera and belief in its mode, whatever belief had become. */
  lemma ReassertOverrides(s: System, t: nat, mode: CameraState)
    requires Core(s) && !s.panicked && s.hidMu == None
    requires t in s.threads && s.threads[t] == Waiting(Some(mode), ReassertPlan(mode))
    ensures var es := ReassertRun(t, mode);
            && Through(s, t, mode, es)
            && After(s, es).proc.belief.camera == mode && After(s, es).cam.device.tracking == mode
  {
    var a := [Lock(t)] + [CmdProbe(Probe(true, true))];
    var u := TakesLock(s, t, mode);
    StepsStay(t);
    assert Stays([], t);
    hide Core, Runs, After, Apply, Enabled, Write, Stays, Reasserting;
    PlanRuns(u, t, mode);
    var first := if mode == Tracking then Write(t) else [];
    RunsConcat(s, a, first + Write(t));
    StaysThrough(t, first, Write(t));
    StaysThrough(t, a, first + Write(t));
    assert ReassertRun(t, mode) == a + (first + Write(t));
  }

  lemma PlanRuns(u: System, t: nat, mode: CameraState)
    requires Core(u) && !u.panicked && Guard(u.proc) && u.hidMu == Some(t) && (mode == Idle || mode == Tracking)
    requires t in u.threads && u.threads[t] == Holding(Some(mode), ReassertPlan(mode), Ready)
    ensures var b := (if mode == Tracking then Write(t) else []) + Write(t);
            && Runs(u, b)
            && var v := After(u, b);
            && Reasserting(v, t, mode) && v.threads[t].ops == []
            && v.proc.belief.camera == mode && v.cam.device.tracking == mode
  {
    hide Core, Runs, After, Apply, Enabled, Write;
    WriteRuns(u, t);
    if mode == Tracking {
      var v := After(u, Write(t));
      assert v.threads[t] == Holding(Some(mode), [Set(IF_TRACKING, TRACKING_BYTE, GoOn)], Ready);
      WriteRuns(v, t);
      RunsConcat(u, Write(t), Write(t));
    } else {
      assert [] + Write(t) == Write(t);
    }
  }

  /** The bounce completes, the write of the mode is lost: camera and belief end idle. */
  lemma BounceOnlyRuns(s: System, t: nat)
    requires Core(s) && !s.panicked && s.hidMu == None
    requires t in s.threads && s.threads[t] == Waiting(Some(Tracking), ReassertPlan(Tracking))
    ensures var es := BounceOnly(t);
            && Through(s, t, Tracking, es)
            && After(s, es).proc.belief.camera == Idle && After(s, es).cam.device.tracking == Idle
            && After(s, es).proc.file == Some(FileOf(After(s, es).proc.belief))
  {
    var a := [Lock(t)] + [CmdProbe(Probe(true, true))];
    var u := TakesLock(s, t, Tracking);
    StepsStay(t);
    hide Core, Runs, After, Apply, Enabled, Write, Stays, Reasserting;
    BounceCompletes(u, t);
    var v := After(u, Write(t));
    LostWrite(v, t);
    var c := [SendConfig(t, Lost)] + [Strike(t, Probe(false, false))];
    RunsConcat(s, a, Write(t));
    RunsConcat(s, a + Write(t), c);
    StaysThrough(t, a, Write(t));
    StaysThrough(t, a + Write(t), c);
    assert BounceOnly(t) == a + Write(t) + c;
  }

  lemma BounceCompletes(u: System, t: nat)
    requires Core(u) && !u.panicked && Guard(u.proc) && u.hidMu == Some(t)
    requires t in u.threads && u.threads[t] == Holding(Some(Tracking), ReassertPlan(Tracking), Ready)
    ensures Runs(u, Write(t))
    ensures var v := After(u, Write(t));
            && Core(v) && !v.panicked && Guard(v.proc) && v.hidMu == Some(t)
            && t in v.threads && v.threads[t] == Holding(Some(Tracking), [Set(IF_TRACKING, TRACKING_BYTE, GoOn)], Ready)
            && v.proc.belief.camera == Idle && v.cam.device.tracking == Idle
            && v.proc.file == Some(FileOf(v.proc.belief))
  {
    hide Core, Runs, After, Write;
    WriteRuns(u, t);
    WriteIsSaved(u, t);
  }

  lemma LostWrite(v: System, t: nat)
    requires Core(v) && !v.panicked && Guard(v.proc) && v.hidMu == Some(t)
    requires t in v.threads && v.threads[t] == Holding(Some(Tracking), [Set(IF_TRACKING, TRACKING_BYTE, GoOn)], Ready)
    ensures var c := [SendConfig(t, Lost)] + [Strike(t, Probe(false, false))];
            && Runs(v, c)
            && var x := After(v, c);
            && Reasserting(x, t, Tracking) && x.threads[t].ops == [] && x.proc.belief == v.proc.belief
            && x.proc.file == v.proc.file && x.cam.device == v.cam.device
  {
    var e1, e2 := SendConfig(t, Lost), Strike(t, Probe(false, false));
    CoreStep(v, e1);
    var v1 := Apply(v, e1);
    CoreStep(v1, e2);
    RunsOne(v, e1);
    RunsOne(v1, e2);
    RunsConcat(v, [e1], [e2]);
    hide Core, Runs, After, Receive, Sent;
  }

  /**
    A command committed between a re-assert's check and its lock keeps its effect in
    every run of the re-assert if and only if the re-assert is for idle and the
    command asked for idle too. In every other case some run ends otherwise: the
    re-assert's own mode, or idle when only the bounce of a tracking re-assert gets
    through, even if the command asked for tracking.
  */
  lemma GapCommandKept(s: System, t: nat, mode: CameraState)
    requires Core(s) && !s.panicked && s.hidMu == None
    requires t in s.threads && s.threads[t] == Waiting(Some(mode), ReassertPlan(mode))
    ensures (forall es :: Through(s, t, mode, es) ==> After(s, es).proc.belief.camera == s.proc.belief.camera)
            <==> mode == Idle && s.proc.belief.camera == Idle
  {
    if mode == Idle && s.proc.belief.camera == Idle {
      forall es | Through(s, t, mode, es) ensures After(s, es).proc.belief.camera == s.proc.belief.camera {
        ReassertOutcome(s, t, mode, es);
      }
    } else {
      ReassertOverrides(s, t, mode);
      if mode == Tracking {
        BounceOnlyRuns(s, t);
      }
    }
    hide Core, Runs, After, ReassertPlan;
  }

  /** Tracking commanded while armed, the timer, privacy commanded, and the re-assert. */
  function OverrideRun(): seq<Event> {
    [Arm] + CommandSteps(0, 1, Tracking) + [TimerFires(1)] + CommandSteps(2, 3, Privacy) + ReassertRun(1, Tracking)
  }

  /**
    The gap is real: a started daemon with its camera there reaches it in a run of
    commands with nothing lost. The last command asked for privacy and was
    committed; the run ends with camera and belief tracking.
  */
  lemma OverrideIsReachable(s: System, found: Option<StateFile>)
    requires Started(s, found) && Guard(s.proc)
    ensures Runs(s, OverrideRun())
    ensures var v := After(s, OverrideRun());
            v.proc.belief.camera == Tracking && v.cam.device.tracking == Tracking
  {
    StartedInv(s, found);
    var s1 := Apply(s, Arm);
    CoreStep(s, Arm);
    RunsOne(s, Arm);
    assert s1 == s.(proc := s.proc.(armed := true)) && s.threads == map[] && s.hidMu == None && !s.panicked;
    assert Guard(s1.proc);
    var a := [Arm] + CommandSteps(0, 1, Tracking) + [TimerFires(1)];
    var c, r := CommandSteps(2, 3, Privacy), ReassertRun(1, Tracking);
    assert OverrideRun() == a + c + r;
    hide *;
    var s3 := OverrideSetUp(s, s1);
    CommandRuns(s3, 2, 3, Privacy);
    var s4 := After(s3, c);
    RunsConcat(s, a, c);
    ReassertOverrides(s4, 1, Tracking);
    RunsConcat(s, a + c, r);
  }

  /** Tracking is commanded while the trap is armed, and the re-assert's timer finds it believed. */
  lemma OverrideSetUp(s: System, s1: System) returns (u: System)
    requires Core(s) && Runs(s, [Arm]) && s1 == After(s, [Arm]) && Core(s1)
    requires s1.threads == map[] && s1.hidMu == None && !s1.panicked && Guard(s1.proc) && s1.proc.armed
    ensures var a := [Arm] + CommandSteps(0, 1, Tracking) + [TimerFires(1)];
            Runs(s, a) && u == After(s, a)
    ensures Core(u) && u.hidMu == None && !u.panicked && Guard(u.proc)
    ensures u.threads == map[1 := Waiting(Some(Tracking), ReassertPlan(Tracking))]
  {
    hide Core, Runs, After, CommandSteps;
    var c := CommandSteps(0, 1, Tracking);
    CommandRuns(s1, 0, 1, Tracking);
    var s2 := After(s1, c);
    assert s2.threads == map[1 := Delayed(Tracking)];
    RunsConcat(s, [Arm], c);
    TimerPasses(s2, 1);
    u := Apply(s2, TimerFires(1));
    RunsConcat(s, [Arm] + c, [TimerFires(1)]);
  }

  lemma TimerPasses(s: System, t: nat)
    requires Core(s) && !s.panicked && s.threads == map[t := Delayed(Tracking)] && s.proc.belief.camera == Tracking
    ensures Enabled(s, TimerFires(t))
    ensures var u := Apply(s, TimerFires(t));
            && u == s.(threads := map[t := Waiting(Some(Tracking), ReassertPlan(Tracking))])
            && Core(u) && Runs(s, [TimerFires(t)]) && After(s, [TimerFires(t)]) == u
  {
    CoreStep(s, TimerFires(t));
    RunsOne(s, TimerFires(t));
    hide Core, Runs, After;
  }
}
