/**
  The SSE broadcaster (sse.go) and its clients (handlers.go). Sends never block:
  an event for a full buffer is dropped. The machine below interleaves state
  changes, broadcasts (a snapshot, then one send per snapshotted channel),
  subscriptions and client loops in any order.
*/
module Broadcast {
  import opened Base

  const BUFFER: nat := 8

  type Channel = nat

  /** Buffered events after one non-blocking send. */
  function Delivered(queued: nat): nat { if queued < BUFFER then queued + 1 else queued }

  // ---------------------------------------------------------------------
  // The hub itself
  // ---------------------------------------------------------------------

  class Broadcaster {
    var subscribers: map<Channel, nat>
    var closed: set<Channel>
    var next: Channel

    ghost predicate Valid()
      reads this
    {
      && (forall ch :: ch in subscribers ==> ch < next && ch !in closed && subscribers[ch] <= BUFFER)
      && (forall ch :: ch in closed ==> ch < next)
    }

    constructor ()
      ensures Valid() && subscribers == map[] && closed == {}
    {
      subscribers, closed, next := map[], {}, 0;
    }

    method Subscribe() returns (ch: Channel)
      requires Valid()
      modifies this
      ensures Valid() && ch !in old(subscribers) && ch !in closed && closed == old(closed)
      ensures subscribers == old(subscribers)[ch := 0]
    {
      ch := next;
      next := next + 1;
      subscribers := subscribers[ch := 0];
    }

    method Unsubscribe(ch: Channel)
      requires Valid()
      modifies this
      ensures Valid() && subscribers == old(subscribers) - {ch}
      ensures closed == if ch in old(subscribers) then old(closed) + {ch} else old(closed)
    {
      if ch in subscribers {
        subscribers := subscribers - {ch};
        closed := closed + {ch};
      }
    }

    /** One broadcast that nothing interrupts reaches every subscriber exactly once. */
    method Broadcast()
      requires Valid()
      modifies this
      ensures Valid() && closed == old(closed)
      ensures subscribers == map ch | ch in old(subscribers) :: Delivered(old(subscribers)[ch])
    {
      var snapshot := subscribers.Keys;
      ghost var was := subscribers;
      while snapshot != {}
        invariant Valid() && closed == old(closed) && snapshot <= subscribers.Keys == was.Keys
        invariant forall ch :: ch in was ==>
          subscribers[ch] == if ch in snapshot then was[ch] else Delivered(was[ch])
        decreases |snapshot|
      {
        var ch :| ch in snapshot;
        subscribers := subscribers[ch := Delivered(subscribers[ch])];
        snapshot := snapshot - {ch};
      }
    }
  }

  // ---------------------------------------------------------------------
  // All interleavings
  // ---------------------------------------------------------------------

  /** A client either waits on its channel or has taken an event and not rendered yet. */
  datatype Client = Client(queued: nat, rendering: bool, rendered: nat, born: nat)

  /** A broadcast: the state it announces, its snapshot, and the sends still to do. */
  datatype Sending = Sending(version: nat, snapshot: set<Channel>, left: set<Channel>)

  /** `broadcasts` holds every broadcast so far, oldest first. */
  datatype System = System(
    version: nat,
    clients: map<Channel, Client>,
    closed: set<Channel>,
    broadcasts: seq<Sending>,
    panicked: bool)

  datatype Event =
    | Change
    | Begin
    | Send(b: nat, ch: Channel)
    | Subscribe(ch: Channel, rendered: nat)
    | Unsubscribe(ch: Channel)
    | Receive(ch: Channel)
    | Render(ch: Channel)

  const INITIAL := System(0, map[], {}, [], false)

  predicate Enabled(s: System, e: Event) {
    !s.panicked &&
    match e
    case Change => true
    case Begin => true
    case Send(b, ch) => b < |s.broadcasts| && ch in s.broadcasts[b].left
    case Subscribe(ch, rendered) => ch !in s.clients && ch !in s.closed && rendered <= s.version
    case Unsubscribe(ch) => ch in s.clients
    case Receive(ch) => ch in s.clients && !s.clients[ch].rendering && s.clients[ch].queued > 0
    case Render(ch) => ch in s.clients && s.clients[ch].rendering
  }

  function Apply(s: System, e: Event): System
    requires Enabled(s, e)
  {
    match e
    case Change => s.(version := s.version + 1)
    case Begin =>
      s.(broadcasts := s.broadcasts + [Sending(s.version, s.clients.Keys, s.clients.Keys)])
    case Send(b, ch) =>
      var sent := s.broadcasts[b].(left := s.broadcasts[b].left - {ch});
      var s' := s.(broadcasts := s.broadcasts[b := sent]);
      if ch in s.clients then
        s'.(clients := s.clients[ch := s.clients[ch].(queued := Delivered(s.clients[ch].queued))])
      else s'.(panicked := true)
    case Subscribe(ch, rendered) =>
      s.(clients := s.clients[ch := Client(0, false, rendered, |s.broadcasts|)])
    case Unsubscribe(ch) => s.(clients := s.clients - {ch}, closed := s.closed + {ch})
    case Receive(ch) =>
      s.(clients := s.clients[ch := s.clients[ch].(queued := s.clients[ch].queued - 1, rendering := true)])
    case Render(ch) =>
      s.(clients := s.clients[ch := s.clients[ch].(rendering := false, rendered := s.version)])
  }

  predicate Runs(s: System, es: seq<Event>)
    decreases |es|
  {
    es == [] || (Enabled(s, es[0]) && Runs(Apply(s, es[0]), es[1..]))
  }

  function After(s: System, es: seq<Event>): System
    requires Runs(s, es)
    decreases |es|
  {
    if es == [] then s else After(Apply(s, es[0]), es[1..])
  }

  /** `ch` has been offered broadcast `b` and owes nothing for it. */
  ghost predicate UpToDate(s: System, ch: Channel, b: nat)
    requires ch in s.clients && b < |s.broadcasts|
  {
    var c := s.clients[ch];
    c.queued > 0 || c.rendering || c.rendered >= s.broadcasts[b].version
  }

  ghost predicate Inv(s: System) {
    && (forall b :: 0 <= b < |s.broadcasts| ==>
          s.broadcasts[b].version <= s.version && s.broadcasts[b].left <= s.broadcasts[b].snapshot)
    && (forall ch :: ch in s.clients ==> ch !in s.closed && s.clients[ch].queued <= BUFFER)
    && (forall b, ch :: 0 <= b < |s.broadcasts| && ch in s.broadcasts[b].snapshot ==> ch in s.clients || ch in s.closed)
    && (forall ch, b :: ch in s.clients && s.clients[ch].born <= b < |s.broadcasts| ==>
          ch in s.broadcasts[b].snapshot)
    && (forall ch, b ::
          ch in s.clients && s.clients[ch].born <= b < |s.broadcasts| && ch !in s.broadcasts[b].left
          ==> UpToDate(s, ch, b))
  }

  lemma InvStep(s: System, e: Event)
    requires Inv(s) && Enabled(s, e)
    ensures Inv(Apply(s, e))
  {
    var t := Apply(s, e);
    forall ch, b | ch in t.clients && t.clients[ch].born <= b < |t.broadcasts| && ch !in t.broadcasts[b].left
      ensures UpToDate(t, ch, b)
    {
      if ch in s.clients && b < |s.broadcasts| && ch !in s.broadcasts[b].left {
        assert UpToDate(s, ch, b);
      }
    }
  }

  lemma {:induction false} InvRuns(s: System, es: seq<Event>)
    requires Inv(s) && Runs(s, es)
    ensures Inv(After(s, es))
    decreases |es|
  {
    if es != [] {
      InvStep(s, es[0]);
      InvRuns(Apply(s, es[0]), es[1..]);
    }
  }

  /**
    No stale idle client: in every reachable state a subscribed client that waits
    on an empty buffer has rendered a state at least as new as every broadcast
    begun after its subscription that has completed (or at least done its send to
    this client), although full buffers drop events.
  */
  lemma NoStaleIdleClient(es: seq<Event>, ch: Channel, b: nat)
    requires Runs(INITIAL, es)
    requires var s := After(INITIAL, es);
             && ch in s.clients && !s.clients[ch].rendering && s.clients[ch].queued == 0
             && s.clients[ch].born <= b < |s.broadcasts| && ch !in s.broadcasts[b].left
    ensures After(INITIAL, es).clients[ch].rendered >= After(INITIAL, es).broadcasts[b].version
  {
    InvRuns(INITIAL, es);
    assert UpToDate(After(INITIAL, es), ch, b);
  }

  // ---------------------------------------------------------------------
  // Closing a channel that a broadcast still holds
  // ---------------------------------------------------------------------

  /** Some broadcast in flight still has to send to a channel that was closed. */
  ghost predicate Doomed(s: System) {
    exists b, ch | 0 <= b < |s.broadcasts| && ch in s.broadcasts[b].left :: ch in s.closed
  }

  /** A channel may be closed safely when no broadcast in flight still has it to do. */
  predicate SafeToClose(s: System, ch: Channel) {
    forall b | 0 <= b < |s.broadcasts| :: ch !in s.broadcasts[b].left
  }

  /** Whether every unsubscribe of the run closed a channel that was safe to close. */
  predicate ClosesSafely(s: System, es: seq<Event>)
    requires Runs(s, es)
    decreases |es|
  {
    es == [] || ((es[0].Unsubscribe? ==> SafeToClose(s, es[0].ch)) && ClosesSafely(Apply(s, es[0]), es[1..]))
  }

  /** Exactly the unsafe closes make a send to a closed channel possible. */
  lemma CloseDooms(s: System, e: Event)
    requires Inv(s) && Enabled(s, e) && !Doomed(s)
    ensures !Apply(s, e).panicked
    ensures Doomed(Apply(s, e)) <==> e.Unsubscribe? && !SafeToClose(s, e.ch)
  {
    var t := Apply(s, e);
    if e.Send? {
      assert s.broadcasts[e.b].left <= s.broadcasts[e.b].snapshot;
    }
    if e.Unsubscribe? && !SafeToClose(s, e.ch) {
      var b :| 0 <= b < |s.broadcasts| && e.ch in s.broadcasts[b].left;
      assert e.ch in t.broadcasts[b].left && e.ch in t.closed;
    }
  }

  /** A doomed state has a send that panics: Go panics on a send to a closed channel. */
  lemma DoomedPanics(s: System) returns (e: Event)
    requires Inv(s) && Doomed(s) && !s.panicked
    ensures Enabled(s, e) && e.Send? && Apply(s, e).panicked
  {
    var b, ch :| 0 <= b < |s.broadcasts| && ch in s.broadcasts[b].left && ch in s.closed;
    e := Send(b, ch);
  }

  /** Runs that close channels only when safe never panic, however long. */
  lemma {:induction false} SafeRunsNeverPanic(s: System, es: seq<Event>)
    requires Inv(s) && Runs(s, es) && !s.panicked && !Doomed(s) && ClosesSafely(s, es)
    ensures !After(s, es).panicked && !Doomed(After(s, es))
    decreases |es|
  {
    if es != [] {
      InvStep(s, es[0]);
      CloseDooms(s, es[0]);
      SafeRunsNeverPanic(Apply(s, es[0]), es[1..]);
    }
  }

  /** The shortest such run: a client leaves between the snapshot and its send. */
  lemma PanicIsReachable()
    ensures var es := [Subscribe(0, 0), Begin, Unsubscribe(0), Send(0, 0)];
            Runs(INITIAL, es) && After(INITIAL, es).panicked
  {
    var s1 := Apply(INITIAL, Subscribe(0, 0));
    var s2 := Apply(s1, Begin);
    var s3 := Apply(s2, Unsubscribe(0));
    var s4 := Apply(s3, Send(0, 0));
    var es := [Subscribe(0, 0), Begin, Unsubscribe(0), Send(0, 0)];
    assert es[1..] == [Begin, Unsubscribe(0), Send(0, 0)];
    assert es[1..][1..] == [Unsubscribe(0), Send(0, 0)];
    assert es[1..][1..][1..] == [Send(0, 0)];
    assert es[1..][1..][1..][1..] == [];
    assert Runs(s4, []) && Runs(s3, [Send(0, 0)]) && After(s3, [Send(0, 0)]) == s4;
    assert Runs(s2, [Unsubscribe(0), Send(0, 0)]) && After(s2, [Unsubscribe(0), Send(0, 0)]) == s4;
    assert Runs(s1, es[1..]) && After(s1, es[1..]) == s4;
  }

  // ---------------------------------------------------------------------
  // What a client gets
  // ---------------------------------------------------------------------

  /** How many events of the run are sends to the channel. */
  function Sends(es: seq<Event>, ch: Channel): nat {
    if es == [] then 0 else (if es[0].Send? && es[0].ch == ch then 1 else 0) + Sends(es[1..], ch)
  }

  /** How many are the given event. */
  function Times(es: seq<Event>, e: Event): nat {
    if es == [] then 0 else (if es[0] == e then 1 else 0) + Times(es[1..], e)
  }

  /** How many of the sends found eight events waiting. */
  function Dropped(s: System, es: seq<Event>, ch: Channel): nat
    requires Runs(s, es)
    decreases |es|
  {
    if es == [] then 0
    else
      var full := es[0].Send? && es[0].ch == ch && ch in s.clients && s.clients[ch].queued == 8;
      (if full then 1 else 0) + Dropped(Apply(s, es[0]), es[1..], ch)
  }

  /** The run leaves the client subscribed. */
  predicate Stays(es: seq<Event>, ch: Channel) {
    forall e <- es :: e != Unsubscribe(ch)
  }

  lemma ClientStep(s: System, e: Event, ch: Channel)
    requires Enabled(s, e) && ch in s.clients && e != Unsubscribe(ch) && s.clients[ch].queued <= 8
    ensures var u := Apply(s, e);
            && ch in u.clients && u.clients[ch].queued <= 8
            && u.clients[ch].queued
               == s.clients[ch].queued
                  + (if e.Send? && e.ch == ch && s.clients[ch].queued < 8 then 1 else 0)
                  - (if e == Receive(ch) then 1 else 0)
            && u.clients[ch].rendering
               == (if e == Receive(ch) then true else if e == Render(ch) then false else s.clients[ch].rendering)
            && (e == Receive(ch) ==> !s.clients[ch].rendering) && (e == Render(ch) ==> s.clients[ch].rendering)
  {
  }

  /**
    Conservation for a subscribed client, over every run: what was waiting and what
    was sent to it is waiting, has been taken, or was dropped at a send that found
    the buffer full; and it renders once for every event it takes.
  */
  lemma {:induction false} EventsAccounted(s: System, es: seq<Event>, ch: Channel)
    requires Runs(s, es) && ch in s.clients && s.clients[ch].queued <= 8 && Stays(es, ch)
    ensures var u := After(s, es);
            && ch in u.clients && u.clients[ch].queued <= 8
            && u.clients[ch].queued + Times(es, Receive(ch)) + Dropped(s, es, ch)
               == s.clients[ch].queued + Sends(es, ch)
            && (if u.clients[ch].rendering then 1 else 0) + Times(es, Render(ch))
               == (if s.clients[ch].rendering then 1 else 0) + Times(es, Receive(ch))
    decreases |es|
  {
    if es != [] {
      assert es[0] in es && forall e <- es[1..] :: e in es;
      ClientStep(s, es[0], ch);
      hide Apply, Enabled;
      EventsAccounted(Apply(s, es[0]), es[1..], ch);
    }
  }

  lemma {:induction false} LeftShrinks(s: System, es: seq<Event>, b: nat)
    requires Runs(s, es) && b < |s.broadcasts|
    ensures b < |After(s, es).broadcasts| && After(s, es).broadcasts[b].left <= s.broadcasts[b].left
    decreases |es|
  {
    if es != [] {
      LeftShrinks(Apply(s, es[0]), es[1..], b);
    }
  }

  /** No broadcast sends twice to the same channel. */
  lemma {:induction false} SentOnce(s: System, es: seq<Event>, i: nat, j: nat)
    requires Runs(s, es) && i < j < |es| && es[i].Send?
    ensures es[j] != es[i]
    decreases i
  {
    if i > 0 {
      SentOnce(Apply(s, es[0]), es[1..], i - 1, j - 1);
    } else {
      var u := Apply(s, es[0]);
      RunsUpTo(u, es[1..], j - 1);
      LeftShrinks(u, es[1..][..j - 1], es[0].b);
    }
  }

  lemma {:induction false} RunsUpTo(s: System, es: seq<Event>, k: nat)
    requires Runs(s, es) && k < |es|
    ensures Runs(s, es[..k]) && Enabled(After(s, es[..k]), es[k])
    decreases k
  {
    if k > 0 {
      RunsUpTo(Apply(s, es[0]), es[1..], k - 1);
      assert es[..k][1..] == es[1..][..k - 1];
    }
  }

  /** A client's own steps that empty its buffer. */
  function CatchUp(ch: Channel, queued: nat, rendering: bool): seq<Event> {
    if rendering then [Render(ch)] + CatchUp(ch, queued, false)
    else if queued == 0 then []
    else [Receive(ch)] + [Render(ch)] + CatchUp(ch, queued - 1, false)
  }

  /** Left alone it can always take them, and has then rendered the newest state if anything was waiting. */
  lemma {:induction false} CatchesUp(s: System, ch: Channel)
    requires !s.panicked && ch in s.clients
    ensures var c := s.clients[ch];
            var es := CatchUp(ch, c.queued, c.rendering);
            && Runs(s, es)
            && After(s, es).clients.Keys == s.clients.Keys
            && After(s, es).clients[ch]
               == c.(queued := 0, rendering := false,
                     rendered := if c.queued > 0 || c.rendering then s.version else c.rendered)
            && After(s, es).version == s.version
    decreases s.clients[ch].queued, s.clients[ch].rendering
  {
    var c := s.clients[ch];
    var es := CatchUp(ch, c.queued, c.rendering);
    if c.rendering {
      CatchesUp(Apply(s, Render(ch)), ch);
      assert es[1..] == CatchUp(ch, c.queued, false);
    } else if c.queued > 0 {
      var s1 := Apply(s, Receive(ch));
      CatchesUp(Apply(s1, Render(ch)), ch);
      assert es[1..] == [Render(ch)] + CatchUp(ch, c.queued - 1, false);
      assert es[1..][1..] == CatchUp(ch, c.queued - 1, false);
      assert Runs(s1, es[1..]);
    }
  }

  /** A change, broadcast to a waiting client, arrives: the shortest run in which something does. */
  lemma UpdateArrives()
    ensures var es := [Subscribe(0, 0), Change, Begin, Send(0, 0), Receive(0), Render(0)];
            Runs(INITIAL, es) && After(INITIAL, es).clients == map[0 := Client(0, false, 1, 0)]
            && After(INITIAL, es).version == 1
  {
    var es := [Subscribe(0, 0), Change, Begin, Send(0, 0), Receive(0), Render(0)];
    var s1 := Apply(INITIAL, es[0]);
    var s2 := Apply(s1, es[1]);
    var s3 := Apply(s2, es[2]);
    var s4 := Apply(s3, es[3]);
    var s5 := Apply(s4, es[4]);
    var s6 := Apply(s5, es[5]);
    assert s6.clients == map[0 := Client(0, false, 1, 0)];
    assert es[6..] == [] && Runs(s6, es[6..]);
    FromHere(s5, es, 5);
    FromHere(s4, es, 4);
    FromHere(s3, es, 3);
    FromHere(s2, es, 2);
    FromHere(s1, es, 1);
    FromHere(INITIAL, es, 0);
  }

  lemma FromHere(s: System, es: seq<Event>, k: nat)
    requires k < |es| && Enabled(s, es[k]) && Runs(Apply(s, es[k]), es[k + 1..])
    ensures Runs(s, es[k..]) && After(s, es[k..]) == After(Apply(s, es[k]), es[k + 1..])
    ensures k == 0 ==> es[0..] == es
  {
    assert es[k..][1..] == es[k + 1..];
  }
}
