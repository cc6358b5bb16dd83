/**
  The daemon's own threads as lock code: every path that takes a lock, with the
  paths it calls under it.
*/
module LockPaths {
  import opened LockOrder

  // ---------------------------------------------------------------------
  // The lowest lock a path takes
  // ---------------------------------------------------------------------

  const NO_LOCK: nat := 4

  /** The lowest rank among the locks that are taken first. */
  function Lowest(c: Code): nat {
    match c
    case Skip => NO_LOCK
    case Seq(a, b) => Min(Lowest(a), Lowest(b))
    case Choice(a, b) => Min(Lowest(a), Lowest(b))
    case Loop(b) => Lowest(b)
    case With(l, _, _) => Rank(l)
    case Join => NO_LOCK
  }

  function Min(a: nat, b: nat): nat {
    if a < b then a else b
  }

  /** Under every lock only higher ones are taken, and nothing joins. */
  predicate Upward(c: Code) {
    match c
    case Skip => true
    case Seq(a, b) => Upward(a) && Upward(b)
    case Choice(a, b) => Upward(a) && Upward(b)
    case Loop(b) => Upward(b)
    case With(l, _, b) => Upward(b) && Rank(l) < Lowest(b)
    case Join => false
  }

  /** Such code is ranked from any floor below its lowest lock. */
  lemma {:induction false} UpwardIsRanked(c: Code, floor: int, joins: bool)
    requires Upward(c) && floor < Lowest(c)
    ensures Ranked(c, floor, joins)
    decreases c
  {
    match c
    case Seq(a, b) =>
      UpwardIsRanked(a, floor, joins);
      UpwardIsRanked(b, floor, joins);
    case Choice(a, b) =>
      UpwardIsRanked(a, floor, joins);
      UpwardIsRanked(b, floor, joins);
    case Loop(b) => UpwardIsRanked(b, floor, joins);
    case With(l, _, b) => UpwardIsRanked(b, Rank(l), joins);
    case Skip =>
  }

  // ---------------------------------------------------------------------
  // Building blocks
  // ---------------------------------------------------------------------

  const HUB := Leaf(0)
  const PTZ_CACHE := Leaf(1)
  const POWER_CACHE := Leaf(2)
  const LAST_FRAME := Leaf(3)
  const UPDATES := Leaf(4)
  const WARN_LIMITER := Leaf(5)

  function Then(a: Code, b: Code): (c: Code)
    ensures Lowest(c) == Min(Lowest(a), Lowest(b)) && (Upward(c) <==> Upward(a) && Upward(b))
  {
    Seq(a, b)
  }

  function Either(a: Code, b: Code): (c: Code)
    ensures Lowest(c) == Min(Lowest(a), Lowest(b)) && (Upward(c) <==> Upward(a) && Upward(b))
  {
    Choice(a, b)
  }

  function Maybe(a: Code): (c: Code)
    ensures Lowest(c) == Min(NO_LOCK, Lowest(a)) && (Upward(c) <==> Upward(a))
  {
    Choice(Skip, a)
  }

  function Many(a: Code): (c: Code)
    ensures Lowest(c) == Lowest(a) && (Upward(c) <==> Upward(a))
  {
    Loop(a)
  }

  function Under(l: Lock, m: Mode, b: Code): (c: Code)
    ensures Lowest(c) == Rank(l) && (Upward(c) <==> Upward(b) && Rank(l) < Lowest(b))
  {
    With(l, m, b)
  }

  function Read(l: Lock): (c: Code)
    ensures Lowest(c) == Rank(l) && Upward(c)
  {
    With(l, Shared, Skip)
  }

  function Write(l: Lock): (c: Code)
    ensures Lowest(c) == Rank(l) && Upward(c)
  {
    With(l, Exclusive, Skip)
  }

  // ---------------------------------------------------------------------
  // Device calls
  // ---------------------------------------------------------------------

  /** The fan-out snapshots the subscribers under the hub's lock. */
  function Broadcast(): (c: Code)
    ensures Upward(c) && Lowest(c) == 3
  {
    Read(HUB)
  }

  /** Probing warns through the limiter; a change of connectivity clears the caches. Runs under mu. */
  function Probing(): (c: Code)
    ensures Upward(c) && Lowest(c) == 3
  {
    Then(Many(Write(WARN_LIMITER)), Maybe(Then(Write(PTZ_CACHE), Then(Write(POWER_CACHE), Maybe(Write(LAST_FRAME))))))
  }

  function ProbeStep(): (c: Code)
    ensures Upward(c) && Lowest(c) == 2
  {
    Then(Under(Mu, Exclusive, Probing()), Broadcast())
  }

  /** The guard, then nothing, a failed send with its re-probe, a cancelled call, or accounting and belief. */
  function SetDeviceState(): (c: Code)
    ensures Upward(c) && Lowest(c) == 2
  {
    Then(Read(Mu), Maybe(Either(ProbeStep(), Maybe(Then(Write(Mu), Broadcast())))))
  }

  function SetTracking(): (c: Code)
    ensures Upward(c) && Lowest(c) == 2
  {
    Then(SetDeviceState(), Maybe(Read(Mu)))
  }

  function SendV2Set(): (c: Code)
    ensures Upward(c) && Lowest(c) == 2
  {
    Then(Read(Mu), Maybe(Either(ProbeStep(), Write(Mu))))
  }

  function ReassertSpeedsLocked(): (c: Code)
    ensures Upward(c) && Lowest(c) == 2
  {
    Then(Read(Mu), Many(SendV2Set()))
  }

  /** Takes hidMu itself: for callers that hold at most v4l2Mu. */
  function ReassertSpeeds(): (c: Code)
    ensures Upward(c) && Lowest(c) == 1
  {
    Then(Read(Mu), Maybe(Under(Hid, Exclusive, ReassertSpeedsLocked())))
  }

  function SyncLocked(): (c: Code)
    ensures Upward(c) && Lowest(c) == 2
  {
    Then(Many(Read(Mu)), Maybe(Then(Write(Mu), Maybe(Broadcast()))))
  }

  function ReconcilePersisted(): (c: Code)
    ensures Upward(c) && Lowest(c) == 2
  {
    Then(Read(Mu),
         Maybe(Then(Maybe(SetTracking()),
                    Then(ReassertSpeedsLocked(), Then(Many(Read(Mu)), Then(Write(Mu), Broadcast()))))))
  }

  function ReconcileOnAppear(): (c: Code)
    ensures Upward(c) && Lowest(c) == 2
  {
    Then(Read(Mu), Maybe(Then(Read(Mu), Either(SyncLocked(), ReconcilePersisted()))))
  }

  function V2Read(): (c: Code)
    ensures Upward(c) && Lowest(c) == 1
  {
    Under(Hid, Exclusive, Read(Mu))
  }

  // ---------------------------------------------------------------------
  // Commands
  // ---------------------------------------------------------------------

  /** track, idle, privacy, toggles, audio, gesture, speed, tracking variant: all under hidMu. */
  function HidCommand(): (c: Code)
    ensures Upward(c)
  {
    Under(Hid, Exclusive,
          Then(Maybe(Read(Mu)),
               Then(Either(SetTracking(), Either(SetDeviceState(), SendV2Set())), Maybe(Then(Write(Mu), Broadcast())))))
  }

  /** pan, tilt, zoom, center, preset load: under v4l2Mu, reaching for hidMu to re-assert speeds and then for mu. */
  function MoveCommand(): (c: Code)
    ensures Upward(c)
  {
    Under(V4l2, Exclusive,
          Then(Many(Read(Mu)),
               Then(Maybe(Then(ReassertSpeeds(), Many(Read(Mu)))),
                    Then(Maybe(Write(Mu)),
                         Then(Maybe(Read(PTZ_CACHE)), Then(Maybe(Write(PTZ_CACHE)), Maybe(Broadcast())))))))
  }

  function PresetSave(): (c: Code)
    ensures Upward(c)
  {
    Under(V4l2, Exclusive, Then(Maybe(Read(Mu)), Then(Maybe(Write(Mu)), Maybe(Broadcast()))))
  }

  /** The one broadcast made under mu. */
  function PresetDelete(): (c: Code)
    ensures Upward(c)
  {
    Under(Mu, Exclusive, Maybe(Broadcast()))
  }

  function PresetPush(): (c: Code)
    ensures Upward(c)
  {
    Then(Many(Read(Mu)), Maybe(Under(Hid, Exclusive, Then(ReassertSpeedsLocked(), Many(SendV2Set())))))
  }

  function PresetPull(): (c: Code)
    ensures Upward(c)
  {
    Under(Hid, Exclusive, Then(Many(Then(Read(Mu), Maybe(Write(Mu)))), Maybe(Then(Write(Mu), Broadcast()))))
  }

  function AutoCommand(): (c: Code)
    ensures Upward(c)
  {
    Then(Maybe(Read(Mu)), Maybe(Then(Write(Mu), Broadcast())))
  }

  function SyncCommand(): (c: Code)
    ensures Upward(c)
  {
    Under(Hid, Exclusive, SyncLocked())
  }

  /**
    status, waybar, device, battery and the web panel: a snapshot, then reads that
    each take hidMu with nothing held.
  */
  function StatusCommand(): (c: Code)
    ensures Upward(c)
  {
    Then(Under(Mu, Shared, Maybe(Read(UPDATES))),
         Then(Maybe(Read(POWER_CACHE)),
              Then(Many(V2Read()),
                   Then(Maybe(Write(POWER_CACHE)), Then(Maybe(Read(PTZ_CACHE)), Maybe(Write(PTZ_CACHE)))))))
  }

  function ListCommand(): (c: Code)
    ensures Upward(c)
  {
    Read(Mu)
  }

  // ---------------------------------------------------------------------
  // Other threads
  // ---------------------------------------------------------------------

  /** A re-assert: the belief check comes before hidMu. */
  function Reassert(): (c: Code)
    ensures Upward(c)
  {
    Then(Read(Mu), Maybe(Under(Hid, Exclusive, Then(Maybe(SetDeviceState()), Maybe(SetDeviceState())))))
  }

  function StartupReconcile(): (c: Code)
    ensures Upward(c)
  {
    Under(Hid, Exclusive, ReconcileOnAppear())
  }

  function Readback(): (c: Code)
    ensures Upward(c)
  {
    Then(Write(PTZ_CACHE), Then(Maybe(Write(Mu)), Broadcast()))
  }

  /** Renders once, then subscribes, renders on every event, unsubscribes. */
  function SseClient(): (c: Code)
    ensures Upward(c)
  {
    Then(StatusCommand(), Maybe(Then(Write(HUB), Then(Many(StatusCommand()), Write(HUB)))))
  }

  /** Streaming keeps and serves the last frame. */
  function StreamClient(): (c: Code)
    ensures Upward(c)
  {
    Then(Maybe(Read(LAST_FRAME)), Many(Write(LAST_FRAME)))
  }

  function UpdateCheck(): (c: Code)
    ensures Upward(c)
  {
    Many(Then(Write(UPDATES), Maybe(Broadcast())))
  }

  /** A call start or end: the flag, the writes, the outcome. */
  function CallChange(): (c: Code)
    ensures Upward(c) && Lowest(c) == 2
  {
    Then(Write(Mu), Then(Maybe(SetTracking()), Then(Maybe(SetDeviceState()), Then(Write(Mu), Broadcast()))))
  }

  /** One poll: all of it under hidMu. */
  function AutoPoll(): (c: Code)
    ensures Upward(c)
  {
    Under(Hid, Exclusive,
          Then(Read(Mu),
               Then(Maybe(Then(ProbeStep(), Maybe(ReconcileOnAppear()))),
                    Maybe(Then(Write(Mu),
                               Then(Maybe(CallChange()), Then(Maybe(CallChange()), Then(Write(Mu), Read(Mu)))))))))
  }

  /** The nested site: v4l2Mu, hidMu, mu. */
  function Uevent(): (c: Code)
    ensures Upward(c)
  {
    Under(V4l2, Exclusive,
          Under(Hid, Exclusive, Then(ProbeStep(), Maybe(Then(Many(Write(WARN_LIMITER)), ReconcileOnAppear())))))
  }

  /** Polls, hotplug events and saves, then the shutdown: wait for the re-asserts with no lock held, then save. */
  function EventLoop(): Code {
    Seq(Loop(Choice(Write(Mu), Choice(Uevent(), AutoPoll()))), Seq(Join, Write(Mu)))
  }

  lemma EventLoopRanked()
    ensures Ranked(EventLoop(), -1, true)
  {
    hide AutoPoll, Uevent, Write, Upward, Lowest;
    UpwardIsRanked(AutoPoll(), -1, true);
    UpwardIsRanked(Uevent(), -1, true);
    UpwardIsRanked(Write(Mu), -1, true);
  }

  // ---------------------------------------------------------------------
  // The daemon
  // ---------------------------------------------------------------------

  /** Paths one after the other, no lock held between: a web request runs a command and then renders. */
  function Session(cs: seq<Code>): Code {
    if cs == [] then Skip else Seq(cs[0], Session(cs[1..]))
  }

  /** Made of the daemon's paths. */
  ghost predicate IsSession(c: Code) {
    exists cs: seq<Code> :: (forall d <- cs :: d in Others()) && c == Session(cs)
  }

  /**
    A thread of the daemon as it starts: a re-assert, the event loop, or any
    sequence of commands, clients and requests.
  */
  ghost predicate DaemonThread(th: Thread) {
    || (th.awaited && th.stack == [Run(Reassert())])
    || (!th.awaited && th.stack == [Run(EventLoop())])
    || (!th.awaited && |th.stack| == 1 && th.stack[0].Run? && IsSession(th.stack[0].code))
  }

  function Others(): seq<Code> {
    [HidCommand(), MoveCommand(), PresetSave(), PresetDelete(), PresetPush(), PresetPull(), AutoCommand(),
     SyncCommand(), StatusCommand(), ListCommand(), ProbeStep(), StartupReconcile(), Readback(), SseClient(),
     StreamClient(), UpdateCheck()]
  }

  lemma OthersUpward(c: Code)
    requires c in Others()
    ensures Upward(c)
  {
    hide HidCommand, MoveCommand, PresetSave, PresetDelete, PresetPush, PresetPull, AutoCommand, SyncCommand,
         StatusCommand, ListCommand, ProbeStep, StartupReconcile, Readback, SseClient, StreamClient, UpdateCheck,
         Upward;
  }

  lemma {:induction false} SessionUpward(cs: seq<Code>)
    requires forall c <- cs :: c in Others()
    ensures Upward(Session(cs))
  {
    if cs != [] {
      OthersUpward(cs[0]);
      hide Others;
      SessionUpward(cs[1..]);
    }
  }

  lemma DaemonThreadStarts(th: Thread)
    requires DaemonThread(th)
    ensures Starts(th)
  {
    if th.awaited {
      UpwardIsRanked(Reassert(), -1, false);
      hide Reassert;
    } else if th.stack == [Run(EventLoop())] {
      EventLoopRanked();
      hide EventLoop;
    } else {
      var cs :| (forall d <- cs :: d in Others()) && th.stack[0].code == Session(cs);
      SessionUpward(cs);
      hide Others, Upward, Lowest, Session;
      UpwardIsRanked(Session(cs), -1, true);
      assert th.stack == [Run(Session(cs))];
    }
  }

  /** Threads of the daemon arrive and are scheduled in any order. */
  ghost predicate DaemonRuns(s: System, es: seq<Event>)
    decreases |es|
  {
    es == []
    || (Enabled(s, es[0]) && (es[0].Arrive? ==> DaemonThread(es[0].th)) && DaemonRuns(Apply(s, es[0]), es[1..]))
  }

  lemma {:induction false} DaemonRunsAreRuns(s: System, es: seq<Event>)
    requires DaemonRuns(s, es)
    ensures Runs(s, es)
    decreases |es|
  {
    if es != [] {
      hide DaemonThread, Enabled, Apply;
      DaemonRunsAreRuns(Apply(s, es[0]), es[1..]);
    }
  }

  /** A thread of the daemon may start at any time. */
  lemma DaemonThreadsArrive(s: System, th: Thread)
    requires DaemonThread(th)
    ensures Enabled(s, Arrive(th)) && DaemonRuns(s, [Arrive(th)])
  {
    DaemonThreadStarts(th);
    hide DaemonThread, Starts;
    assert [Arrive(th)][1..] == [];
  }

  /**
    No run of any number of the daemon's threads deadlocks: exclusive locks
    exclude, and while any of them is not done some thread can step, shutdown's wait
    for the re-asserts included.
  */
  lemma DaemonNeverDeadlocks(es: seq<Event>)
    requires DaemonRuns([], es)
    ensures Runs([], es) && Exclusion(After([], es))
    ensures (exists i | 0 <= i < |After([], es)| :: After([], es)[i].stack != [])
            ==> exists k: nat :: CanStep(After([], es), k)
  {
    DaemonRunsAreRuns([], es);
    NoDeadlock(es);
    hide *;
  }
}
