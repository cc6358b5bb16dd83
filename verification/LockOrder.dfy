/**
  Threads that take locks in nested scopes. Whatever their number and schedule,
  threads that only ever take a lock of a higher rank than those they hold, and
  wait for others only with nothing held, never all get stuck.
*/
module LockOrder {
  /** The daemon's locks; leaves are those under which no other lock is taken. */
  datatype Lock = V4l2 | Hid | Mu | Leaf(id: nat)

  datatype Mode = Shared | Exclusive

  function Rank(l: Lock): nat {
    match l
    case V4l2 => 0
    case Hid => 1
    case Mu => 2
    case Leaf(_) => 3
  }

  /** What a thread does as far as locks go. `Join` waits for the awaited threads to end. */
  datatype Code =
    | Skip
    | Seq(first: Code, then_: Code)
    | Choice(left: Code, right: Code)
    | Loop(body: Code)
    | With(lock: Lock, mode: Mode, body: Code)
    | Join

  /** An exclusive acquisition is announced first: a pending writer keeps new readers out. */
  datatype Item = Run(code: Code) | Want(lock: Lock, body: Code) | Release(lock: Lock, mode: Mode)

  type Stack = seq<Item>

  datatype Thread = Thread(stack: Stack, awaited: bool)

  // ---------------------------------------------------------------------
  // Ranked code
  // ---------------------------------------------------------------------

  /**
    With locks up to `floor` held (-1: none) the code only goes up; it joins only
    with none held, and only if it may.
  */
  predicate Ranked(c: Code, floor: int, joins: bool) {
    match c
    case Skip => true
    case Seq(a, b) => Ranked(a, floor, joins) && Ranked(b, floor, joins)
    case Choice(a, b) => Ranked(a, floor, joins) && Ranked(b, floor, joins)
    case Loop(b) => Ranked(b, floor, joins)
    case With(l, _, b) => Rank(l) > floor && Ranked(b, Rank(l), joins)
    case Join => joins && floor == -1
  }

  /** The highest rank held. */
  function Floor(stack: Stack): int {
    if stack == [] then -1
    else if stack[0].Release? then Rank(stack[0].lock)
    else Floor(stack[1..])
  }

  predicate RankedItem(item: Item, floor: int, joins: bool) {
    match item
    case Run(c) => Ranked(c, floor, joins)
    case Want(l, b) => Rank(l) > floor && Ranked(b, Rank(l), joins)
    case Release(l, _) => Rank(l) > floor
  }

  predicate RankedStack(stack: Stack, joins: bool) {
    stack == [] || (RankedStack(stack[1..], joins) && RankedItem(stack[0], Floor(stack[1..]), joins))
  }

  /** Everything held is at most the floor. */
  lemma {:induction false} HeldBelowFloor(stack: Stack, joins: bool, l: Lock, m: Mode)
    requires RankedStack(stack, joins) && Release(l, m) in stack
    ensures Rank(l) <= Floor(stack)
  {
    if stack[0] != Release(l, m) {
      assert Release(l, m) in stack[1..];
      HeldBelowFloor(stack[1..], joins, l, m);
    }
  }

  // ---------------------------------------------------------------------
  // Steps
  // ---------------------------------------------------------------------

  type System = seq<Thread>

  ghost predicate HeldBy(s: System, l: Lock, m: Mode) {
    exists j | 0 <= j < |s| :: Release(l, m) in s[j].stack
  }

  predicate WantsToWrite(th: Thread, l: Lock) {
    th.stack != [] && th.stack[0].Want? && th.stack[0].lock == l
  }

  ghost predicate CanStep(s: System, i: nat) {
    i < |s| && s[i].stack != [] &&
    match s[i].stack[0]
    case Run(With(l, Shared, _)) => !HeldBy(s, l, Exclusive) && (forall j | 0 <= j < |s| :: !WantsToWrite(s[j], l))
    case Run(Join) => forall j | 0 <= j < |s| :: s[j].awaited ==> s[j].stack == []
    case Want(l, _) => !HeldBy(s, l, Exclusive) && !HeldBy(s, l, Shared)
    case _ => true
  }

  /** One step of a thread; `turn` resolves its choices. */
  function Advance(stack: Stack, turn: bool): Stack
    requires stack != []
  {
    var rest := stack[1..];
    match stack[0]
    case Run(Skip) => rest
    case Run(Seq(a, b)) => [Run(a), Run(b)] + rest
    case Run(Choice(a, b)) => [Run(if turn then a else b)] + rest
    case Run(Loop(b)) => if turn then [Run(b)] + stack else rest
    case Run(With(l, m, b)) => if m == Shared then [Run(b), Release(l, m)] + rest else [Want(l, b)] + rest
    case Run(Join) => rest
    case Want(l, b) => [Run(b), Release(l, Exclusive)] + rest
    case Release(_, _) => rest
  }

  datatype Event = Go(i: nat, turn: bool) | Arrive(th: Thread)

  /** A thread as it starts: one piece of ranked code; awaited threads never join. */
  ghost predicate Starts(th: Thread) {
    exists c :: th.stack == [Run(c)] && Ranked(c, -1, !th.awaited)
  }

  ghost predicate Enabled(s: System, e: Event) {
    match e
    case Go(i, _) => CanStep(s, i)
    case Arrive(th) => Starts(th)
  }

  ghost function Apply(s: System, e: Event): System
    requires Enabled(s, e)
  {
    match e
    case Go(i, turn) => s[i := s[i].(stack := Advance(s[i].stack, turn))]
    case Arrive(th) => s + [th]
  }

  // ---------------------------------------------------------------------
  // Ranks are kept
  // ---------------------------------------------------------------------

  ghost predicate AllRanked(s: System) {
    forall i | 0 <= i < |s| :: RankedStack(s[i].stack, !s[i].awaited)
  }

  lemma Push(item: Item, stack: Stack, joins: bool)
    requires RankedStack(stack, joins) && RankedItem(item, Floor(stack), joins)
    ensures RankedStack([item] + stack, joins)
    ensures Floor([item] + stack) == if item.Release? then Rank(item.lock) else Floor(stack)
  {
    assert ([item] + stack)[1..] == stack;
  }

  lemma AdvanceRanked(stack: Stack, turn: bool, joins: bool)
    requires stack != [] && RankedStack(stack, joins)
    ensures RankedStack(Advance(stack, turn), joins)
  {
    var rest := stack[1..];
    match stack[0]
    case Run(Seq(a, b)) =>
      Push(Run(b), rest, joins);
      Push(Run(a), [Run(b)] + rest, joins);
      assert [Run(a)] + ([Run(b)] + rest) == [Run(a), Run(b)] + rest;
    case Run(Choice(a, b)) => Push(Run(if turn then a else b), rest, joins);
    case Run(Loop(b)) => if turn { Push(Run(b), stack, joins); }
    case Run(With(l, m, b)) =>
      if m == Shared {
        Push(Release(l, m), rest, joins);
        Push(Run(b), [Release(l, m)] + rest, joins);
        assert [Run(b)] + ([Release(l, m)] + rest) == [Run(b), Release(l, m)] + rest;
      } else {
        Push(Want(l, b), rest, joins);
      }
    case Want(l, b) =>
      Push(Release(l, Exclusive), rest, joins);
      Push(Run(b), [Release(l, Exclusive)] + rest, joins);
      assert [Run(b)] + ([Release(l, Exclusive)] + rest) == [Run(b), Release(l, Exclusive)] + rest;
    case _ =>
  }

  lemma RankedStep(s: System, e: Event)
    requires AllRanked(s) && Enabled(s, e)
    ensures AllRanked(Apply(s, e))
  {
    match e
    case Go(i, turn) =>
      AdvanceRanked(s[i].stack, turn, !s[i].awaited);
      hide RankedStack, Advance;
    case Arrive(th) =>
      var c :| th.stack == [Run(c)] && Ranked(c, -1, !th.awaited);
      Push(Run(c), [], !th.awaited);
      assert [Run(c)] + [] == th.stack;
      hide RankedStack;
  }

  // ---------------------------------------------------------------------
  // Exclusion
  // ---------------------------------------------------------------------

  /** A lock held exclusively is held by nobody else. */
  ghost predicate Exclusion(s: System) {
    forall i, j, l, m | 0 <= i < |s| && 0 <= j < |s| && i != j && Release(l, Exclusive) in s[i].stack ::
      Release(l, m) !in s[j].stack
  }

  /** A step acquires at most the lock at the top, in the mode it is free for. */
  lemma Acquires(s: System, i: nat, turn: bool, l: Lock, m: Mode)
    requires CanStep(s, i) && Release(l, m) in Advance(s[i].stack, turn)
    ensures Release(l, m) in s[i].stack || (!HeldBy(s, l, Exclusive) && (m == Exclusive ==> !HeldBy(s, l, Shared)))
  {
  }

  lemma ExclusionStep(s: System, e: Event)
    requires Exclusion(s) && Enabled(s, e)
    ensures Exclusion(Apply(s, e))
  {
    var u := Apply(s, e);
    forall i, j, l, m | 0 <= i < |u| && 0 <= j < |u| && i != j && Release(l, Exclusive) in u[i].stack
      ensures Release(l, m) !in u[j].stack
    {
      if e.Go? {
        if i == e.i {
          Acquires(s, i, e.turn, l, Exclusive);
        } else if j == e.i && Release(l, m) in u[j].stack {
          Acquires(s, j, e.turn, l, m);
        }
        hide Advance;
        assert m == Shared || m == Exclusive;
      }
    }
  }

  // ---------------------------------------------------------------------
  // Progress
  // ---------------------------------------------------------------------

  /** How far up a stuck thread is: joining, reading, announced as a writer, by rank. */
  function Height(th: Thread): nat
    requires th.stack != []
  {
    match th.stack[0]
    case Run(With(l, _, _)) => 1 + 2 * Rank(l)
    case Want(l, _) => 2 + 2 * Rank(l)
    case _ => 0
  }

  /** Whoever holds a lock either can step or is stuck higher up. */
  lemma HolderIsHigher(s: System, h: nat, l: Lock, m: Mode)
    requires AllRanked(s) && h < |s| && Release(l, m) in s[h].stack
    ensures CanStep(s, h) || Height(s[h]) > 2 + 2 * Rank(l)
  {
    var stack, joins := s[h].stack, !s[h].awaited;
    assert RankedStack(stack, joins);
    if stack[0] != Release(l, m) {
      assert Release(l, m) in stack[1..];
      HeldBelowFloor(stack[1..], joins, l, m);
    }
  }

  /** From any thread that is not done one gets to a thread that can step. */
  lemma {:induction false} SomeoneCanStep(s: System, i: nat) returns (k: nat)
    requires AllRanked(s) && i < |s| && s[i].stack != []
    ensures CanStep(s, k)
    decreases 10 - Height(s[i])
  {
    if CanStep(s, i) { return i; }
    match s[i].stack[0] {
      case Run(With(l, Shared, _)) =>
        if HeldBy(s, l, Exclusive) {
          var h :| 0 <= h < |s| && Release(l, Exclusive) in s[h].stack;
          HolderIsHigher(s, h, l, Exclusive);
          if CanStep(s, h) { return h; }
          k := SomeoneCanStep(s, h);
        } else {
          var w :| 0 <= w < |s| && WantsToWrite(s[w], l);
          k := SomeoneCanStep(s, w);
        }
      case Run(Join) =>
        var a :| 0 <= a < |s| && s[a].awaited && s[a].stack != [];
        assert RankedStack(s[a].stack, false);
        if CanStep(s, a) { return a; }
        k := SomeoneCanStep(s, a);
      case Want(l, _) =>
        var m := if HeldBy(s, l, Exclusive) then Exclusive else Shared;
        var h :| 0 <= h < |s| && Release(l, m) in s[h].stack;
        HolderIsHigher(s, h, l, m);
        if CanStep(s, h) { return h; }
        k := SomeoneCanStep(s, h);
      case _ =>
    }
  }

  // ---------------------------------------------------------------------
  // Runs
  // ---------------------------------------------------------------------

  ghost predicate Runs(s: System, es: seq<Event>)
    decreases |es|
  {
    es == [] || (Enabled(s, es[0]) && Runs(Apply(s, es[0]), es[1..]))
  }

  ghost function After(s: System, es: seq<Event>): System
    requires Runs(s, es)
    decreases |es|
  {
    if es == [] then s else After(Apply(s, es[0]), es[1..])
  }

  lemma {:induction false} KeptByRuns(s: System, es: seq<Event>)
    requires AllRanked(s) && Exclusion(s) && Runs(s, es)
    ensures AllRanked(After(s, es)) && Exclusion(After(s, es))
    decreases |es|
  {
    if es != [] {
      RankedStep(s, es[0]);
      ExclusionStep(s, es[0]);
      hide AllRanked, Exclusion, Enabled, Apply;
      KeptByRuns(Apply(s, es[0]), es[1..]);
    }
  }

  /**
    Any number of threads with ranked code, starting at any time and scheduled in
    any way: exclusive locks exclude, and as long as some thread is not done some
    thread can step.
  */
  lemma NoDeadlock(es: seq<Event>)
    requires Runs([], es)
    ensures Exclusion(After([], es))
    ensures (exists i | 0 <= i < |After([], es)| :: After([], es)[i].stack != [])
            ==> exists k: nat :: CanStep(After([], es), k)
  {
    KeptByRuns([], es);
    var s := After([], es);
    hide Runs, After, AllRanked, CanStep;
    if i :| 0 <= i < |s| && s[i].stack != [] {
      var k := SomeoneCanStep(s, i);
    }
  }
}
