/**
  The auto-manage debounce machine (auto.go): two clamped counters decide when
  a call starts and ends. The specification is over the whole history of
  observed polls: `Counter`, `InCall` and `Flips` never mention the counters.
*/
module AutoManage {
  import opened Base

  datatype AutoMode = Off | Full | TrackingOnly | PrivacyOnly {
    predicate ActivatesTracking() { Full? || TrackingOnly? }
    predicate ActivatesAudio() { Full? }
    predicate ActivatesPrivacy() { !Off? }
    predicate SwitchesSource() { Full? }
  }

  datatype Camera = Idle | Tracking | Privacy

  /** Calls into the dependencies, in order. */
  datatype Action = SetTracking(mode: Camera) | SetAudioNC | FindSource | SetSource | Notify

  datatype CallEvent = CallStart | CallEnd

  /** Which dependency calls of this poll succeed. */
  datatype Results = Results(tracking: bool, audio: bool, source: bool, privacy: bool)

  // ---------------------------------------------------------------------
  // The meaning of a poll history
  // ---------------------------------------------------------------------

  /** Length of the run of `v` that ends the history. */
  function TrailingRun(polls: seq<bool>, v: bool): (n: nat)
    ensures n <= |polls|
  {
    if polls == [] || polls[|polls| - 1] != v then 0 else 1 + TrailingRun(polls[..|polls| - 1], v)
  }

  /** After `k` polls the last `count` polls, or more, all showed `v`. */
  predicate Settled(polls: seq<bool>, k: nat, v: bool, count: nat) {
    k <= |polls| && TrailingRun(polls[..k], v) >= count
  }

  /** The latest run of at least `count` equal polls showed the camera in use. */
  ghost predicate InCall(polls: seq<bool>, count: nat) {
    exists k | 0 <= k <= |polls| ::
      Settled(polls, k, true, count) && forall j | k < j <= |polls| :: !Settled(polls, j, false, count)
  }

  /** Call starts and ends of a history: the changes of `InCall` between prefixes. */
  ghost function Flips(polls: seq<bool>, count: nat): seq<CallEvent> {
    if polls == [] then []
    else
      var before := polls[..|polls| - 1];
      Flips(before, count)
      + if InCall(polls, count) == InCall(before, count) then []
        else if InCall(polls, count) then [CallStart] else [CallEnd]
  }

  function Min(a: nat, b: nat): nat { if a < b then a else b }

  // ---------------------------------------------------------------------
  // The machine
  // ---------------------------------------------------------------------

  class AutoManager {
    const debounceCount: nat
    var debounceInUse: nat
    var debounceIdle: nat
    var inCall: bool
    var autoMode: AutoMode
    var camera: Camera
    var online: bool
    var autoErrors: nat
    var actions: seq<Action>
    var calls: seq<CallEvent>
    ghost var polls: seq<bool>

    ghost predicate Valid()
      reads this
    {
      && debounceCount > 0
      && debounceInUse == Min(debounceCount, TrailingRun(polls, true))
      && debounceIdle == Min(debounceCount, TrailingRun(polls, false))
      && inCall == InCall(polls, debounceCount)
      && calls == Flips(polls, debounceCount)
    }

    constructor (debounceCount: nat, autoMode: AutoMode, camera: Camera, online: bool)
      requires debounceCount > 0
      ensures Valid() && polls == [] && this.debounceCount == debounceCount && this.autoMode == autoMode
    {
      this.debounceCount := debounceCount;
      debounceInUse, debounceIdle, inCall := 0, 0, false;
      this.autoMode, this.camera, this.online := autoMode, camera, online;
      autoErrors, actions, calls, polls := 0, [], [], [];
      new;
      assert !Settled([], 0, true, debounceCount);
    }

    method HandleCallStart(seen: Camera, mode: AutoMode, ok: Results)
      modifies this`inCall, this`camera, this`autoErrors, this`actions, this`calls
      ensures inCall && calls == old(calls) + [CallStart]
      ensures actions == old(actions) + StartActions(seen, mode, ok)
      ensures camera == if mode.ActivatesTracking() && seen != Tracking && ok.tracking then Tracking else old(camera)
      ensures autoErrors == StartErrors(seen, mode, ok)
    {
      inCall := true;
      calls := calls + [CallStart];
      var errs, todo := 0, [];
      if mode.ActivatesTracking() && (seen == Privacy || seen == Idle) {
        todo := [SetTracking(Tracking)];
        if ok.tracking { camera := Tracking; } else { errs := errs + 1; }
      }
      if mode.ActivatesAudio() {
        todo := todo + [SetAudioNC];
        if !ok.audio { errs := errs + 1; }
      }
      if mode.SwitchesSource() {
        todo := todo + [FindSource];
        if ok.source { todo := todo + [SetSource]; } else { errs := errs + 1; }
      }
      autoErrors := errs;
      todo := todo + [Notify];
      assert todo == StartActions(seen, mode, ok);
      actions := actions + todo;
    }

    method HandleCallEnd(mode: AutoMode, ok: Results)
      modifies this`inCall, this`camera, this`autoErrors, this`actions, this`calls
      ensures !inCall && calls == old(calls) + [CallEnd]
      ensures actions == old(actions) + EndActions(mode)
      ensures camera == if mode.ActivatesPrivacy() && ok.privacy then Privacy else old(camera)
      ensures autoErrors == EndErrors(mode, ok)
    {
      inCall := false;
      calls := calls + [CallEnd];
      var errs := 0;
      if mode.ActivatesPrivacy() {
        actions := actions + [SetTracking(Privacy)];
        if ok.privacy { camera := Privacy; } else { errs := 1; }
      }
      actions := actions + [Notify];
      autoErrors := errs;
    }

    /** Counts one observed poll. */
    method Count(inUse: bool)
      requires Valid()
      modifies this`debounceInUse, this`debounceIdle, this`polls
      ensures polls == old(polls) + [inUse]
      ensures debounceInUse == Min(debounceCount, TrailingRun(polls, true))
      ensures debounceIdle == Min(debounceCount, TrailingRun(polls, false))
      ensures InCall(polls, debounceCount)
              == if (if inUse then debounceInUse else debounceIdle) >= debounceCount then inUse else inCall
      ensures Flips(polls, debounceCount)
              == calls + if InCall(polls, debounceCount) == inCall then []
                         else if inUse then [CallStart] else [CallEnd]
    {
      PollStep(polls, inUse, debounceCount);
      hide InCall, TrailingRun;
      polls := polls + [inUse];
      if inUse {
        debounceIdle := 0;
        debounceInUse := debounceInUse + 1;
        if debounceInUse > debounceCount {
          debounceInUse := debounceCount;
        }
      } else {
        debounceInUse := 0;
        debounceIdle := debounceIdle + 1;
        if debounceIdle > debounceCount {
          debounceIdle := debounceCount;
        }
      }
    }

    /** Acts on the counters: a settled change of use starts or ends a call. */
    method Decide(inUse: bool, modeNow: AutoMode, ok: Results)
      requires debounceCount > 0
      requires InCall(polls, debounceCount)
               == if (if inUse then debounceInUse else debounceIdle) >= debounceCount then inUse else inCall
      modifies this`inCall, this`camera, this`autoErrors, this`actions, this`calls
      ensures inCall == InCall(polls, debounceCount)
      ensures calls == old(calls) + if inCall == old(inCall) then [] else if inUse then [CallStart] else [CallEnd]
      ensures if inCall == old(inCall) then actions == old(actions) && camera == old(camera)
              else if inUse then actions == old(actions) + StartActions(old(camera), modeNow, ok)
              else actions == old(actions) + EndActions(modeNow)
      ensures autoErrors == if inCall == old(inCall) then 0
                            else if inUse then StartErrors(old(camera), modeNow, ok) else EndErrors(modeNow, ok)
      ensures inCall != old(inCall) ==> camera == CallCamera(old(camera), modeNow, ok, inUse)
    {
      hide StartErrors, StartActions, InCall, TrailingRun;
      if inUse && !inCall && debounceInUse >= debounceCount {
        HandleCallStart(camera, modeNow, ok);
      } else if !inUse && inCall && debounceIdle >= debounceCount {
        HandleCallEnd(modeNow, ok);
      } else {
        autoErrors := 0;
      }
    }

    /** What the ticks so far have come to. */
    ghost function Watching(): Watch
      reads this
    {
      Watch(polls, camera, online, actions, autoErrors)
    }

    /**
      One tick. `reprobe` is what a re-probe finds when the video node was missing,
      `reconciled` the camera mode that the reconcile after a successful one leaves,
      `inUse` the observation, `modeNow` the mode when it is read again together
      with the counters.
    */
    method Tick(reprobe: bool, reconciled: Camera, inUse: bool, modeNow: AutoMode, ok: Results)
      requires Valid()
      modifies this
      ensures Valid() && autoMode == old(autoMode)
      ensures Watching()
              == Ticked(old(Watching()), Poll(autoMode, reprobe, reconciled, inUse, modeNow, ok), debounceCount)
    {
      hide StartErrors, StartActions, EndActions, InCall, Flips, TrailingRun, EndErrors, CallCamera;
      if !online {
        online := reprobe;
        if !online {
          return;
        }
        camera := reconciled;
      }
      if autoMode.Off? {
        return;
      }
      Count(inUse);
      Decide(inUse, modeNow, ok);
    }
  }

  /** What one tick meets: the mode it starts in, the parameters of `Tick`. */
  datatype Poll = Poll(mode: AutoMode, reprobe: bool, reconciled: Camera, inUse: bool, modeNow: AutoMode, ok: Results)

  /** The observed polls, the camera, whether the video node is there, the calls made, the errors of the last tick. */
  datatype Watch = Watch(polls: seq<bool>, camera: Camera, online: bool, actions: seq<Action>, errors: nat)

  /** One tick in terms of the history alone. */
  ghost function Ticked(w: Watch, t: Poll, count: nat): Watch {
    if !w.online && !t.reprobe then w
    else
      var seen := if w.online then w.camera else t.reconciled;
      var polls := w.polls + [t.inUse];
      if t.mode.Off? then w.(online := true, camera := seen)
      else if InCall(polls, count) == InCall(w.polls, count) then Watch(polls, seen, true, w.actions, 0)
      else if t.inUse then
        Watch(polls, CallCamera(seen, t.modeNow, t.ok, true), true, w.actions + StartActions(seen, t.modeNow, t.ok),
              StartErrors(seen, t.modeNow, t.ok))
      else
        Watch(polls, CallCamera(seen, t.modeNow, t.ok, false), true, w.actions + EndActions(t.modeNow),
              EndErrors(t.modeNow, t.ok))
  }

  ghost function Watched(w: Watch, ts: seq<Poll>, count: nat): Watch
    decreases |ts|
  {
    if ts == [] then w else Watched(Ticked(w, ts[0], count), ts[1..], count)
  }

  function StartActions(seen: Camera, mode: AutoMode, ok: Results): seq<Action> {
    (if mode.ActivatesTracking() && seen != Tracking then [SetTracking(Tracking)] else [])
    + (if mode.ActivatesAudio() then [SetAudioNC] else [])
    + (if !mode.SwitchesSource() then [] else if ok.source then [FindSource, SetSource] else [FindSource])
    + [Notify]
  }

  function EndActions(mode: AutoMode): seq<Action> {
    (if mode.ActivatesPrivacy() then [SetTracking(Privacy)] else []) + [Notify]
  }

  /** The camera after a call start or end. */
  function CallCamera(seen: Camera, mode: AutoMode, ok: Results, start: bool): Camera {
    if start then if mode.ActivatesTracking() && ok.tracking then Tracking else seen
    else if mode.ActivatesPrivacy() && ok.privacy then Privacy else seen
  }

  function EndErrors(mode: AutoMode, ok: Results): nat {
    if mode.ActivatesPrivacy() && !ok.privacy then 1 else 0
  }

  function StartErrors(seen: Camera, mode: AutoMode, ok: Results): nat {
    (if mode.ActivatesTracking() && seen != Tracking && !ok.tracking then 1 else 0)
    + (if mode.ActivatesAudio() && !ok.audio then 1 else 0)
    + (if mode.SwitchesSource() && !ok.source then 1 else 0)
  }

  // ---------------------------------------------------------------------
  // How one poll changes the meaning
  // ---------------------------------------------------------------------

  lemma TrailingRunStep(polls: seq<bool>, v: bool)
    ensures TrailingRun(polls + [v], v) == TrailingRun(polls, v) + 1
    ensures TrailingRun(polls + [v], !v) == 0
  {
    assert (polls + [v])[..|polls|] == polls;
  }

  lemma SettledPrefix(polls: seq<bool>, more: seq<bool>, k: nat, v: bool, count: nat)
    requires k <= |polls|
    ensures Settled(polls + more, k, v, count) == Settled(polls, k, v, count)
  {
    assert (polls + more)[..k] == polls[..k];
  }

  /** A poll starts a call when its run settles, ends it likewise, and otherwise changes nothing. */
  lemma PollStep(polls: seq<bool>, v: bool, count: nat)
    requires count > 0
    ensures TrailingRun(polls + [v], v) == TrailingRun(polls, v) + 1 && TrailingRun(polls + [v], !v) == 0
    ensures InCall(polls + [v], count)
            == if TrailingRun(polls, v) + 1 >= count then v else InCall(polls, count)
    ensures (polls + [v])[..|polls|] == polls
  {
    var after, n := polls + [v], |polls| + 1;
    TrailingRunStep(polls, v);
    assert after[..n] == after;
    forall k: nat, w | k <= |polls| ensures Settled(after, k, w, count) == Settled(polls, k, w, count) {
      SettledPrefix(polls, [v], k, w, count);
    }
    if TrailingRun(polls, v) + 1 >= count {
      assert Settled(after, n, v, count);
    } else {
      assert forall w :: !Settled(after, n, w, count);
      if InCall(polls, count) {
        var k: nat :| k <= |polls| && Settled(polls, k, true, count)
          && forall j | k < j <= |polls| :: !Settled(polls, j, false, count);
        assert Settled(after, k, true, count);
      }
    }
  }

  /** A run of `n` equal polls is exactly the last `n` polls showing that value. */
  lemma {:induction false} TrailingRunMeans(polls: seq<bool>, v: bool, n: nat)
    ensures TrailingRun(polls, v) >= n
            <==> n <= |polls| && forall k | |polls| - n <= k < |polls| :: polls[k] == v
    decreases |polls|
  {
    if n > 0 && polls != [] && polls[|polls| - 1] == v {
      TrailingRunMeans(polls[..|polls| - 1], v, n - 1);
    }
  }

  /** After `k` polls a call starts (or ends) with the `k`-th poll. */
  ghost predicate FlipAt(polls: seq<bool>, k: nat, count: nat) {
    0 < k <= |polls| && InCall(polls[..k], count) != InCall(polls[..k - 1], count)
  }

  lemma FlipMeans(polls: seq<bool>, k: nat, count: nat)
    requires count > 0 && FlipAt(polls, k, count)
    ensures count <= k && InCall(polls[..k], count) == polls[k - 1]
    ensures forall i | k - count <= i < k :: polls[i] == polls[k - 1]
  {
    var v := polls[k - 1];
    assert polls[..k] == polls[..k - 1] + [v];
    PollStep(polls[..k - 1], v, count);
    TrailingRunMeans(polls[..k], v, count);
  }

  /** Between a flip and the next opposite flip lie at least `count` polls. */
  lemma FlipsApart(polls: seq<bool>, i: nat, j: nat, count: nat)
    requires count > 0 && i < j && FlipAt(polls, i, count) && FlipAt(polls, j, count)
    requires InCall(polls[..i], count) != InCall(polls[..j], count)
    ensures j - i >= count
  {
    FlipMeans(polls, i, count);
    FlipMeans(polls, j, count);
  }

  /** Between two flips the same way there is one the other way. */
  lemma {:induction false} FlipBetween(polls: seq<bool>, i: nat, j: nat, count: nat)
    requires i < j <= |polls| && InCall(polls[..i], count) != InCall(polls[..j], count)
    ensures exists k | i < k <= j :: FlipAt(polls, k, count)
    decreases j - i
  {
    if InCall(polls[..i], count) == InCall(polls[..i + 1], count) {
      FlipBetween(polls, i + 1, j, count);
    } else {
      assert FlipAt(polls, i + 1, count);
    }
  }

  /** Any two flips are at least `count` polls apart. */
  lemma {:induction false} FlipsSpaced(polls: seq<bool>, i: nat, j: nat, count: nat)
    requires count > 0 && i < j && FlipAt(polls, i, count) && FlipAt(polls, j, count)
    ensures j - i >= count
    decreases j
  {
    hide InCall;
    if InCall(polls[..i], count) != InCall(polls[..j], count) {
      FlipsApart(polls, i, j, count);
    } else {
      FlipBetween(polls, i, j - 1, count);
      var k :| i < k <= j - 1 && FlipAt(polls, k, count);
      FlipsSpaced(polls, i, k, count);
    }
  }

  /** Call starts and call ends strictly alternate, beginning with a start. */
  lemma {:induction false} FlipsAlternate(polls: seq<bool>, count: nat)
    requires count > 0
    ensures forall k | 0 <= k < |Flips(polls, count)| ::
              Flips(polls, count)[k] == if k % 2 == 0 then CallStart else CallEnd
    ensures InCall(polls, count) <==> |Flips(polls, count)| % 2 == 1
    decreases |polls|
  {
    if polls == [] {
      assert !Settled(polls, 0, true, count);
    } else {
      FlipsAlternate(polls[..|polls| - 1], count);
    }
  }

  // ---------------------------------------------------------------------
  // What calls do, by mode
  // ---------------------------------------------------------------------

  /** The dependency call does not succeed. */
  predicate Fails(a: Action, ok: Results) {
    match a
    case SetTracking(mode) => if mode == Privacy then !ok.privacy else !ok.tracking
    case SetAudioNC => !ok.audio
    case FindSource => !ok.source
    case SetSource => false
    case Notify => false
  }

  /** How many of the calls made fail. */
  function Failures(actions: seq<Action>, ok: Results): nat {
    if actions == [] then 0 else (if Fails(actions[0], ok) then 1 else 0) + Failures(actions[1..], ok)
  }

  /** Where the calls made leave the camera: at the last mode whose command succeeded. */
  function Commanded(camera: Camera, actions: seq<Action>, ok: Results): Camera
    decreases |actions|
  {
    if actions == [] then camera
    else
      Commanded(if actions[0].SetTracking? && !Fails(actions[0], ok) then actions[0].mode else camera, actions[1..], ok)
  }

  /** A call start: the calls made in each mode, in order. */
  lemma CallStartByMode(seen: Camera, mode: AutoMode, ok: Results)
    ensures StartActions(seen, mode, ok)
            == match mode
               case Off => [Notify]
               case PrivacyOnly => [Notify]
               case TrackingOnly => if seen == Tracking then [Notify] else [SetTracking(Tracking), Notify]
               case Full =>
                 (if seen == Tracking then [SetAudioNC] else [SetTracking(Tracking), SetAudioNC])
                 + (if ok.source then [FindSource, SetSource, Notify] else [FindSource, Notify])
  {
  }

  /** Its errors are the calls that fail, and its camera is where they leave it: tracking in two of the modes. */
  lemma CallStartOutcome(seen: Camera, mode: AutoMode, ok: Results)
    ensures StartErrors(seen, mode, ok) == Failures(StartActions(seen, mode, ok), ok)
    ensures CallCamera(seen, mode, ok, true) == Commanded(seen, StartActions(seen, mode, ok), ok)
    ensures ok.tracking ==>
              CallCamera(seen, mode, ok, true) == if mode == Full || mode == TrackingOnly then Tracking else seen
  {
    var a: seq<Action> := if mode.ActivatesTracking() && seen != Tracking then [SetTracking(Tracking)] else [];
    var b: seq<Action> := if mode.ActivatesAudio() then [SetAudioNC] else [];
    var c: seq<Action> := if mode.SwitchesSource() then [FindSource] else [];
    var d: seq<Action> := if mode.SwitchesSource() && ok.source then [SetSource] else [];
    assert StartActions(seen, mode, ok) == a + b + (c + d) + [Notify];
    hide StartActions, Failures, Commanded;
    FoldsAdd(a, b, ok);
    FoldsAdd(c, d, ok);
    FoldsAdd(a + b, c + d, ok);
    FoldsAdd(a + b + (c + d), [Notify], ok);
    FoldsOne(SetTracking(Tracking), ok);
    FoldsOne(SetAudioNC, ok);
    FoldsOne(FindSource, ok);
    FoldsOne(SetSource, ok);
    FoldsOne(Notify, ok);
  }

  lemma FoldsOne(a: Action, ok: Results)
    ensures Failures([a], ok) == if Fails(a, ok) then 1 else 0
    ensures forall c :: Commanded(c, [a], ok) == if a.SetTracking? && !Fails(a, ok) then a.mode else c
    ensures Failures([], ok) == 0 && forall c :: Commanded(c, [], ok) == c
    ensures Notifications([a]) == (if a == Notify then 1 else 0) && Notifications([]) == 0
  {
  }

  /** Both folds go through the calls from left to right. */
  lemma {:induction false} FoldsAdd(a: seq<Action>, b: seq<Action>, ok: Results)
    ensures Failures(a + b, ok) == Failures(a, ok) + Failures(b, ok)
    ensures forall c :: Commanded(c, a + b, ok) == Commanded(Commanded(c, a, ok), b, ok)
    decreases |a|
  {
    if a == [] {
      assert a + b == b;
    } else {
      assert (a + b)[1..] == a[1..] + b;
      FoldsAdd(a[1..], b, ok);
    }
  }

  /** A call end: privacy in every mode but off. */
  lemma CallEndByMode(seen: Camera, mode: AutoMode, ok: Results)
    ensures EndActions(mode)
            == match mode
               case Off => [Notify]
               case Full => [SetTracking(Privacy), Notify]
               case TrackingOnly => [SetTracking(Privacy), Notify]
               case PrivacyOnly => [SetTracking(Privacy), Notify]
    ensures EndErrors(mode, ok) == Failures(EndActions(mode), ok)
    ensures CallCamera(seen, mode, ok, false) == Commanded(seen, EndActions(mode), ok)
    ensures ok.privacy && mode != Off ==> CallCamera(seen, mode, ok, false) == Privacy
  {
    FoldsAdd(if mode.ActivatesPrivacy() then [SetTracking(Privacy)] else [], [Notify], ok);
    FoldsOne(SetTracking(Privacy), ok);
    FoldsOne(Notify, ok);
    hide Failures, Commanded;
  }

  /** The tick finds the video node there, in a mode that manages privacy, and its writes succeed. */
  predicate Managed(t: Poll) {
    t.mode in {Full, TrackingOnly, PrivacyOnly} && t.modeNow in {Full, TrackingOnly, PrivacyOnly}
    && t.ok.tracking && t.ok.privacy
  }

  /**
    What the whole machine is for, over every run of managed ticks with the camera
    there: between calls the lens is off, and where every tick is also in a mode
    that manages tracking, it tracks during calls.
  */
  lemma {:induction false} CameraFollowsCalls(w: Watch, ts: seq<Poll>, count: nat)
    requires w.online && (!InCall(w.polls, count) ==> w.camera == Privacy) && forall t <- ts :: Managed(t)
    ensures var u := Watched(w, ts, count);
            && u.online && |u.polls| == |w.polls| + |ts|
            && (!InCall(u.polls, count) ==> u.camera == Privacy)
            && ((InCall(w.polls, count) ==> w.camera == Tracking)
                && (forall t <- ts :: t.modeNow == Full || t.modeNow == TrackingOnly) ==>
                  InCall(u.polls, count) ==> u.camera == Tracking)
    decreases |ts|
  {
    if ts != [] {
      assert ts[0] in ts && forall t <- ts[1..] :: t in ts;
      CallStartOutcome(w.camera, ts[0].modeNow, ts[0].ok);
      CallEndByMode(w.camera, ts[0].modeNow, ts[0].ok);
      FlipIsUse(w.polls, ts[0].inUse, count);
      hide InCall, CallCamera, StartActions, EndActions, StartErrors, EndErrors, Failures, Commanded;
      CameraFollowsCalls(Ticked(w, ts[0], count), ts[1..], count);
    }
  }

  lemma FlipIsUse(polls: seq<bool>, v: bool, count: nat)
    ensures InCall(polls + [v], count) != InCall(polls, count) ==> count > 0 && InCall(polls + [v], count) == v
  {
    if count == 0 {
      assert Settled(polls, |polls|, true, 0) && Settled(polls + [v], |polls| + 1, true, 0);
    } else {
      PollStep(polls, v, count);
    }
  }

  /** How many notifications are among the calls made. */
  function Notifications(actions: seq<Action>): nat {
    if actions == [] then 0 else (if actions[0] == Notify then 1 else 0) + Notifications(actions[1..])
  }

  lemma {:induction false} NotificationsAdd(a: seq<Action>, b: seq<Action>)
    ensures Notifications(a + b) == Notifications(a) + Notifications(b)
  {
    if a == [] {
      assert a + b == b;
    } else {
      NotificationsAdd(a[1..], b);
      assert (a + b)[1..] == a[1..] + b;
    }
  }

  /** Every call start and call end, and nothing else, is notified, once. */
  lemma {:induction false} OneNotificationPerFlip(w: Watch, ts: seq<Poll>, count: nat)
    ensures var u := Watched(w, ts, count);
            Notifications(u.actions) + |Flips(w.polls, count)| == Notifications(w.actions) + |Flips(u.polls, count)|
    decreases |ts|
  {
    if ts != [] {
      var t := ts[0];
      var seen, u := if w.online then w.camera else t.reconciled, Ticked(w, t, count);
      OneNotification(seen, t);
      NotificationsAdd(w.actions, StartActions(seen, t.modeNow, t.ok));
      NotificationsAdd(w.actions, EndActions(t.modeNow));
      assert (w.polls + [t.inUse])[..|w.polls|] == w.polls;
      hide InCall, CallCamera, StartActions, EndActions, StartErrors, EndErrors, Notifications;
      OneNotificationPerFlip(u, ts[1..], count);
    }
  }

  lemma OneNotification(seen: Camera, t: Poll)
    ensures Notifications(StartActions(seen, t.modeNow, t.ok)) == 1 && Notifications(EndActions(t.modeNow)) == 1
  {
    var mode := t.modeNow;
    var a: seq<Action> := if mode.ActivatesTracking() && seen != Tracking then [SetTracking(Tracking)] else [];
    var b: seq<Action> := if mode.ActivatesAudio() then [SetAudioNC] else [];
    var c: seq<Action> := if mode.SwitchesSource() then [FindSource] else [];
    var d: seq<Action> := if mode.SwitchesSource() && t.ok.source then [SetSource] else [];
    var e: seq<Action> := if mode.ActivatesPrivacy() then [SetTracking(Privacy)] else [];
    assert StartActions(seen, mode, t.ok) == a + b + (c + d) + [Notify] && EndActions(mode) == e + [Notify];
    NotificationsAdd(a, b);
    NotificationsAdd(c, d);
    NotificationsAdd(a + b, c + d);
    NotificationsAdd(a + b + (c + d), [Notify]);
    NotificationsAdd(e, [Notify]);
    FoldsOne(SetTracking(Tracking), t.ok);
    FoldsOne(SetTracking(Privacy), t.ok);
    FoldsOne(SetAudioNC, t.ok);
    FoldsOne(FindSource, t.ok);
    FoldsOne(SetSource, t.ok);
    FoldsOne(Notify, t.ok);
    hide StartActions, EndActions, Notifications;
  }
}
