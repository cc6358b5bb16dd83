/**
  Named presets, their hardware slots, and pushing one into its slot over the
  motor commands.
*/
module Presets {
  import opened Base
  import opened Float32
  import opened PixyWire
  import opened PixyDevice

  const MAX_PRESETS: nat := 16
  const MAX_NAME_LENGTH: nat := 32
  const MAX_SLOTS: nat := 8

  type PresetMap = map<string, Ptz>

  // ---------------------------------------------------------------------
  // Names
  // ---------------------------------------------------------------------

  predicate IsSpace(c: char) {
    var x := c as int;
    || 9 <= x <= 13 || x == 32 || x == 0x85 || x == 0xA0 || x == 0x1680 || 0x2000 <= x <= 0x200A
    || x == 0x2028 || x == 0x2029 || x == 0x202F || x == 0x205F || x == 0x3000
  }

  predicate IsControl(c: char) {
    c as int < 0x20 || 0x7F <= c as int < 0xA0
  }

  function Trimmed(s: string): string
    decreases |s|
  {
    if s != [] && IsSpace(s[0]) then Trimmed(s[1..])
    else if s != [] && IsSpace(s[|s| - 1]) then Trimmed(s[..|s| - 1])
    else s
  }

  predicate ValidName(name: string) {
    var t := Trimmed(name);
    0 < |t| <= MAX_NAME_LENGTH && forall c <- t :: c != '/' && c != '\\' && !IsControl(c)
  }

  /** The white space of Unicode: the blanks of Latin-1, and those beyond it. */
  lemma SpacesAre(c: char)
    ensures IsSpace(c)
            <==> || c in {'\t', '\n', '\U{0B}', '\U{0C}', '\r', ' ', '\U{85}', '\U{A0}'}
                 || c in {'\U{1680}', '\U{2000}', '\U{2001}', '\U{2002}', '\U{2003}', '\U{2004}', '\U{2005}',
                          '\U{2006}', '\U{2007}', '\U{2008}', '\U{2009}', '\U{200A}', '\U{2028}', '\U{2029}',
                          '\U{202F}', '\U{205F}', '\U{3000}'}
  {
  }

  /** A name has one to 32 characters between its white space, none a path separator or a control character. */
  lemma NameRules(name: string)
    ensures var t := Trimmed(name);
            ValidName(name)
            <==> && 1 <= |t| <= 32
                 && forall k :: 0 <= k < |t| ==>
                      t[k] != '/' && t[k] != '\\' && t[k] >= ' ' && (t[k] < '\U{7F}' || t[k] >= '\U{A0}')
  {
    var t := Trimmed(name);
    hide Trimmed, IsSpace;
    assert forall k :: 0 <= k < |t| ==> t[k] in t;
  }

  datatype SetError = InvalidName | MapFull

  function Stored(m: PresetMap, name: string, values: Ptz): Result<PresetMap, SetError> {
    if !ValidName(name) then Err(InvalidName)
    else if name !in m && |m| >= MAX_PRESETS then Err(MapFull)
    else Ok(m[name := values])
  }

  /**
    A stored preset replaces the one of its name or is added, and never pushes out
    another. It is refused exactly for its name, or when a new name finds sixteen
    presets; so the collection never grows past that limit.
  */
  lemma StoredIsAdditive(m: PresetMap, name: string, values: Ptz)
    ensures var r := Stored(m, name, values);
            && (r == Err(InvalidName) <==> !ValidName(name))
            && (r == Err(MapFull) <==> ValidName(name) && name !in m && |m| >= 16)
            && (r.Ok? ==> && r.value.Keys == m.Keys + {name} && r.value[name] == values
                          && (forall n <- m :: n != name ==> r.value[n] == m[n])
                          && |r.value| <= (if |m| < 16 then 16 else |m|))
  {
    var r := Stored(m, name, values);
    if r.Ok? {
      assert r.value.Keys == m.Keys + {name};
    }
    hide ValidName;
  }

  /** Nothing but white space at both ends is trimmed, and all of it. */
  lemma {:induction false} TrimmedMeans(s: string) returns (a: nat, b: nat)
    ensures a <= b <= |s| && Trimmed(s) == s[a..b]
    ensures forall k :: 0 <= k < a || b <= k < |s| ==> IsSpace(s[k])
    ensures a < b ==> !IsSpace(s[a]) && !IsSpace(s[b - 1])
    ensures a == b ==> forall k :: 0 <= k < |s| ==> IsSpace(s[k])
    decreases |s|
  {
    hide IsSpace;
    if s != [] && IsSpace(s[0]) {
      var c, d := TrimmedMeans(s[1..]);
      a, b := c + 1, d + 1;
      assert forall k :: 0 < k < |s| ==> s[k] == s[1..][k - 1];
      assert s[a..b] == s[1..][c..d];
    } else if s != [] && IsSpace(s[|s| - 1]) {
      var t := s[..|s| - 1];
      a, b := TrimmedMeans(t);
      assert forall k :: 0 <= k < |s| - 1 ==> s[k] == t[k];
      assert s[a..b] == t[a..b];
    } else {
      a, b := 0, |s|;
    }
  }

  // ---------------------------------------------------------------------
  // Alphabetical order
  // ---------------------------------------------------------------------

  predicate Before(a: string, b: string)
    decreases |a|
  {
    b != [] && (a == [] || a[0] < b[0] || (a[0] == b[0] && Before(a[1..], b[1..])))
  }

  /** The names differ first at place k, or `a` is the beginning of `b` and ends there. */
  predicate FirstDiffer(a: string, b: string, k: nat) {
    k <= |a| && k < |b| && a[..k] == b[..k] && (k == |a| || a[k] < b[k])
  }

  /** The order of a dictionary, by code units. */
  lemma {:induction false} BeforeMeans(a: string, b: string)
    ensures Before(a, b) <==> exists k: nat :: FirstDiffer(a, b, k)
    decreases |a|
  {
    if b == [] {
    } else if a == [] {
      assert FirstDiffer(a, b, 0);
    } else if a[0] == b[0] {
      BeforeMeans(a[1..], b[1..]);
      forall k: nat | FirstDiffer(a[1..], b[1..], k) ensures FirstDiffer(a, b, k + 1) {
        assert a[..k + 1] == [a[0]] + a[1..][..k] && b[..k + 1] == [b[0]] + b[1..][..k];
      }
      forall k: nat | FirstDiffer(a, b, k) ensures k > 0 && FirstDiffer(a[1..], b[1..], k - 1) {
        assert a[1..][..k - 1] == a[..k][1..] && b[1..][..k - 1] == b[..k][1..];
      }
    } else {
      assert a[0] < b[0] ==> FirstDiffer(a, b, 0);
      forall k: nat | FirstDiffer(a, b, k) ensures a[0] < b[0] {
        if k > 0 {
          assert a[..k][0] == b[..k][0];
        }
      }
    }
  }

  lemma {:induction false} BeforeTotal(a: string, b: string)
    ensures Before(a, b) || Before(b, a) || a == b
    ensures !(Before(a, b) && Before(b, a)) && !Before(a, a)
    decreases |a|
  {
    if a != [] && b != [] {
      BeforeTotal(a[1..], b[1..]);
      assert a == [a[0]] + a[1..] && b == [b[0]] + b[1..];
    }
    if a != [] {
      BeforeTotal(a[1..], a[1..]);
    }
  }

  lemma {:induction false} BeforeTransitive(a: string, b: string, c: string)
    requires Before(a, b) && Before(b, c)
    ensures Before(a, c)
    decreases |a|
  {
    if a != [] && a[0] == b[0] == c[0] {
      BeforeTransitive(a[1..], b[1..], c[1..]);
    }
  }

  ghost predicate Ascending(names: seq<string>) {
    forall i, j :: 0 <= i < j < |names| ==> Before(names[i], names[j])
  }

  function Inserted(names: seq<string>, n: string): seq<string> {
    if names == [] then [n]
    else if Before(n, names[0]) then [n] + names
    else [names[0]] + Inserted(names[1..], n)
  }

  lemma {:induction false} InsertedAscends(names: seq<string>, n: string)
    requires Ascending(names) && n !in names
    ensures Ascending(Inserted(names, n))
    ensures forall x :: x in Inserted(names, n) <==> x == n || x in names
  {
    if names == [] {
    } else if Before(n, names[0]) {
      forall j | 0 <= j < |names| ensures Before(n, names[j]) {
        if j > 0 { BeforeTransitive(n, names[0], names[j]); }
      }
    } else {
      BeforeTotal(n, names[0]);
      assert names == [names[0]] + names[1..];
      InsertedAscends(names[1..], n);
      var rest := Inserted(names[1..], n);
      forall j | 0 <= j < |rest| ensures Before(names[0], rest[j]) {
        assert rest[j] in rest;
      }
    }
  }

  /** The number of stored names that come before `name`. */
  ghost function Rank(m: PresetMap, name: string): nat {
    |set n | n in m && Before(n, name)|
  }

  /** The slot of a stored name: its place in the sorted list, from one. */
  ghost function Slot(m: PresetMap, name: string): nat {
    Rank(m, name) + 1
  }

  /** Two names never share a slot. */
  lemma SlotInjective(m: PresetMap, a: string, b: string)
    requires a in m && b in m && Slot(m, a) == Slot(m, b)
    ensures a == b
  {
    BeforeTotal(a, b);
    if Before(a, b) {
      RankGrows(m, a, b);
    } else if Before(b, a) {
      RankGrows(m, b, a);
    }
  }

  /** The slots are the numbers from one to the size of the collection. */
  lemma SlotRange(m: PresetMap, name: string)
    requires name in m
    ensures 1 <= Slot(m, name) <= |m|
  {
    var below := set n | n in m && Before(n, name);
    BeforeTotal(name, name);
    var others := m.Keys - {name};
    assert below <= others && |others| == |m| - 1;
    assert |others| == |below| + |others - below| by { assert others == below + (others - below); }
  }

  lemma RankGrows(m: PresetMap, a: string, b: string)
    requires a in m && Before(a, b)
    ensures Rank(m, a) < Rank(m, b)
  {
    var A, B := set n | n in m && Before(n, a), set n | n in m && Before(n, b);
    forall n | n in A ensures n in B { BeforeTransitive(n, a, b); }
    BeforeTotal(a, a);
    assert a in B - A;
    assert |B| == |A| + |B - A| by { assert B == A + (B - A); }
  }

  function Elements(names: seq<string>): set<string> {
    set n | n in names
  }

  lemma {:induction false} PrefixSize(names: seq<string>, k: nat)
    requires Ascending(names) && k <= |names|
    ensures |Elements(names[..k])| == k
  {
    if k > 0 {
      PrefixSize(names, k - 1);
      var last := names[k - 1];
      BeforeTotal(last, last);
      hide Before;
      assert names[..k] == names[..k - 1] + [last];
      assert Elements(names[..k]) == Elements(names[..k - 1]) + {last};
    }
  }

  /** The place in any sorted list of the names is the rank, which the map alone determines. */
  lemma PlaceIsRank(m: PresetMap, names: seq<string>, k: nat)
    requires Ascending(names) && (forall n :: n in names <==> n in m) && k < |names|
    ensures k == Rank(m, names[k])
  {
    var below := set n | n in m && Before(n, names[k]);
    forall n ensures n in below <==> n in names[..k] {
      if n in below {
        var i :| 0 <= i < |names| && names[i] == n;
        BeforeTotal(names[i], names[k]);
      }
      if n in names[..k] {
        var i :| 0 <= i < k && names[i] == n;
        assert Before(names[i], names[k]);
        assert names[i] in names;
      }
    }
    assert below == Elements(names[..k]);
    PrefixSize(names, k);
  }

  // ---------------------------------------------------------------------
  // The collection, updated in place
  // ---------------------------------------------------------------------

  class Store {
    var entries: PresetMap

    constructor (entries: PresetMap)
      ensures this.entries == entries
    {
      this.entries := entries;
    }

    predicate IsFull()
      reads this
    {
      |entries| >= MAX_PRESETS
    }

    method Set(name: string, values: Ptz) returns (error: Option<SetError>)
      modifies this
      ensures match Stored(old(entries), name, values)
              case Ok(m) => error == None && entries == m
              case Err(e) => error == Some(e) && entries == old(entries)
    {
      if !ValidName(name) { return Some(InvalidName); }
      if name !in entries && IsFull() { return Some(MapFull); }
      entries := entries[name := values];
      return None;
    }

    method SortedNames() returns (names: seq<string>)
      ensures Ascending(names) && (forall n :: n in names <==> n in entries)
    {
      var rest := entries.Keys;
      names := [];
      while rest != {}
        invariant rest <= entries.Keys && Ascending(names)
        invariant forall n :: n in names <==> n in entries && n !in rest
        decreases rest
      {
        var n :| n in rest;
        InsertedAscends(names, n);
        names := Inserted(names, n);
        rest := rest - {n};
      }
    }

    /** The slot of a preset, zero when there is no such preset. */
    method SlotOf(name: string) returns (slot: nat)
      ensures slot == if name in entries then Slot(entries, name) else 0
    {
      var sorted := SortedNames();
      slot := 0;
      for i := 0 to |sorted|
        invariant slot == 0 && name !in sorted[..i]
      {
        if sorted[i] == name {
          PlaceIsRank(entries, sorted, i);
          return i + 1;
        }
      }
      assert sorted[..|sorted|] == sorted;
    }
  }

  // ---------------------------------------------------------------------
  // Push
  // ---------------------------------------------------------------------

  /** How one write ends: it arrives, it does not, or it arrives but an error is reported. */
  datatype Link = Delivered | Lost | Unconfirmed

  datatype Sending = Sending(device: Device, ok: bool, attempts: nat)

  /** Reports are written one after the other until one fails; `links` says how the k-th write ends. */
  function Transmit(d: Device, reports: seq<seq<Byte>>, links: nat -> Link, k: nat): Sending
    decreases |reports|
  {
    if reports == [] then Sending(d, true, k)
    else if links(k) == Lost then Sending(d, false, k + 1)
    else
      var o := Receive(d, Sent(reports[0]));
      if links(k) == Unconfirmed || o.error.Some? then Sending(o.device, false, k + 1)
      else Transmit(o.device, reports[1..], links, k + 1)
  }

  method SendEach(dev: Simulator, reports: seq<seq<Byte>>, links: nat -> Link, k: nat) returns (ok: bool, next: nat)
    modifies dev
    ensures Sending(dev.State(), ok, next) == Transmit(old(dev.State()), reports, links, k)
  {
    next := k;
    var i := 0;
    while i < |reports|
      invariant i <= |reports|
      decreases |reports| - i
      invariant Transmit(old(dev.State()), reports, links, k) == Transmit(dev.State(), reports[i..], links, next)
    {
      var link := links(next);
      next := next + 1;
      assert reports[i..][0] == reports[i];
      if link == Lost { return false, next; }
      var error := dev.Send(Sent(reports[i]));
      if link == Unconfirmed || error.Some? { return false, next; }
      assert reports[i..][1..] == reports[i + 1..];
      i := i + 1;
    }
    ok := true;
  }

  /** A speed preference: anything that does not compare as zero or less, NaN included. */
  predicate IsPreference(bits: U32) {
    0 < bits < SIGN || bits > SIGN + 0x7F80_0000
  }

  /** In numbers: positive, infinite, or not a number of either sign. */
  lemma PreferenceMeans(bits: U32)
    ensures IsPreference(bits) <==>
            match Decode(bits)
            case Finite(v) => v > 0.0
            case Infinite(negative) => !negative
            case NotANumber => true
  {
    var e, m := bits / IMPLICIT % 0x100, bits % IMPLICIT;
    ScaledSign(m, 1);
    ScaledSign(IMPLICIT + m, e);
    FieldsOf(bits);
    hide Scaled;
  }

  function SpeedReports(speeds: Axes): seq<seq<Byte>> {
    (if IsPreference(speeds.pan) then [MotorSpeedReport(PAN, speeds.pan)] else [])
    + (if IsPreference(speeds.tilt) then [MotorSpeedReport(TILT, speeds.tilt)] else [])
    + (if IsPreference(speeds.zoom) then [MotorSpeedReport(ZOOM, speeds.zoom)] else [])
  }

  /** Conversion to binary32: the one that is exact on small integers, unspecified beyond. */
  ghost predicate IsConversion(f: int -> U32) {
    forall n :: -(EXACT as int) < n < EXACT ==> f(n) == OfInt(n)
  }

  function Position(p: Ptz, f: int -> U32): Axes {
    Axes(f(p.pan), f(p.tilt), f(p.zoom))
  }

  function PushReports(pos: Axes, slot: Byte): seq<seq<Byte>> {
    [MotorPosReport(PAN, pos.pan), MotorPosReport(TILT, pos.tilt), MotorPosReport(ZOOM, pos.zoom),
     PresetPosReport(slot)]
  }

  datatype PushError = BadName | NotFound | NoSlot | SendFailed

  /** The device after a push: speeds first and best-effort, then the move and the save. */
  function Pushed(d: Device, pos: Axes, slot: Byte, speeds: Axes, links: nat -> Link): Sending {
    var s := Transmit(d, SpeedReports(speeds), links, 0);
    Transmit(s.device, PushReports(pos, slot), links, s.attempts)
  }

  method Push(store: Store, dev: Simulator, name: string, speeds: Axes, f: int -> U32, links: nat -> Link)
    returns (r: Result<nat, PushError>)
    modifies dev
    ensures dev.State() == if ValidName(name) && name in store.entries && Slot(store.entries, name) <= 8
                           then Pushed(old(dev.State()), Position(store.entries[name], f),
                                       Slot(store.entries, name) as Byte, speeds, links).device
                           else old(dev.State())
    ensures r == if !ValidName(name) then Err(BadName)
                 else if name !in store.entries then Err(NotFound)
                 else if Slot(store.entries, name) > 8 then Err(NoSlot)
                 else if Pushed(old(dev.State()), Position(store.entries[name], f),
                                Slot(store.entries, name) as Byte, speeds, links).ok
                 then Ok(Slot(store.entries, name))
                 else Err(SendFailed)
  {
    if !ValidName(name) { return Err(BadName); }
    if name !in store.entries { return Err(NotFound); }
    var values := store.entries[name];
    var slot := store.SlotOf(name);
    if slot == 0 || slot > MAX_SLOTS { return Err(NoSlot); }
    var _, next := SendEach(dev, SpeedReports(speeds), links, 0);
    var ok, _ := SendEach(dev, PushReports(Position(values, f), slot as Byte), links, next);
    return if ok then Ok(slot) else Err(SendFailed);
  }

  // ---------------------------------------------------------------------
  // What a push does to the device
  // ---------------------------------------------------------------------

  predicate MotorReports(reports: seq<seq<Byte>>) {
    forall r <- reports :: CommandOf(Sent(r)).Some?
  }

  /** However the writes end, motor reports never touch a mode or a pending config. */
  lemma {:induction false} TransmitKeepsLegacy(d: Device, reports: seq<seq<Byte>>, links: nat -> Link, k: nat)
    requires MotorReports(reports)
    ensures Legacy(Transmit(d, reports, links, k).device) == Legacy(d)
    decreases |reports|
  {
    if reports != [] {
      V2KeepsLegacy(d, Sent(reports[0]));
      TransmitKeepsLegacy(Receive(d, Sent(reports[0])).device, reports[1..], links, k + 1);
    }
  }

  lemma SpeedsAreMotorReports(speeds: Axes)
    ensures MotorReports(SpeedReports(speeds))
  {
    V2Routed(PAN, speeds.pan, 0, 0, 23);
    V2Routed(TILT, speeds.tilt, 0, 0, 23);
    V2Routed(ZOOM, speeds.zoom, 0, 0, 23);
    hide CommandOf, Le32;
  }

  lemma PushesAreMotorReports(pos: Axes, slot: Byte)
    ensures MotorReports(PushReports(pos, slot))
  {
    V2Routed(PAN, pos.pan, slot, 0, 23);
    V2Routed(TILT, pos.tilt, slot, 0, 23);
    V2Routed(ZOOM, pos.zoom, slot, 0, 23);
    V2Routed(PAN, 0, slot, 0, 27);
    hide CommandOf, Le32;
  }

  /** A push never changes a camera, audio or gesture mode, nor what is pending. */
  lemma PushKeepsModes(d: Device, pos: Axes, slot: Byte, speeds: Axes, links: nat -> Link)
    ensures Legacy(Pushed(d, pos, slot, speeds, links).device) == Legacy(d)
  {
    SpeedsAreMotorReports(speeds);
    PushesAreMotorReports(pos, slot);
    var s := Transmit(d, SpeedReports(speeds), links, 0);
    hide Transmit, SpeedReports, PushReports, MotorReports;
    TransmitKeepsLegacy(d, SpeedReports(speeds), links, 0);
    TransmitKeepsLegacy(s.device, PushReports(pos, slot), links, s.attempts);
  }

  lemma {:induction false} TransmitOne(d: Device, report: seq<Byte>, rest: seq<seq<Byte>>, links: nat -> Link,
          k: nat, e: Device)
    requires Receive(d, Sent(report)) == Outcome(e, None)
    ensures links(k) == Delivered ==> Transmit(d, [report] + rest, links, k) == Transmit(e, rest, links, k + 1)
    ensures links(k) != Delivered ==> !Transmit(d, [report] + rest, links, k).ok
                                      && Transmit(d, [report] + rest, links, k).device in {d, e}
  {
    hide Receive;
    assert ([report] + rest)[1..] == rest;
  }

  lemma TransmitFour(d: Device, r: seq<seq<Byte>>, links: nat -> Link, k: nat, d1: Device, d2: Device,
          d3: Device, d4: Device)
    requires |r| == 4
    requires Receive(d, Sent(r[0])) == Outcome(d1, None) && Receive(d1, Sent(r[1])) == Outcome(d2, None)
    requires Receive(d2, Sent(r[2])) == Outcome(d3, None) && Receive(d3, Sent(r[3])) == Outcome(d4, None)
    ensures var all := links(k) == links(k + 1) == links(k + 2) == links(k + 3) == Delivered;
            && (Transmit(d, r, links, k).ok <==> all)
            && (all ==> Transmit(d, r, links, k).device == d4)
  {
    assert r == [r[0]] + r[1..] && r[1..] == [r[1]] + r[2..] && r[2..] == [r[2]] + r[3..] && r[3..] == [r[3]] + [];
    assert Transmit(d4, [], links, k + 4) == Sending(d4, true, k + 4);
    hide Receive, Sent, Transmit;
    TransmitOne(d, r[0], r[1..], links, k, d1);
    TransmitOne(d1, r[1], r[2..], links, k + 1, d2);
    TransmitOne(d2, r[2], r[3..], links, k + 2, d3);
    TransmitOne(d3, r[3], [], links, k + 3, d4);
  }

  /** The move and the save go through exactly when all four writes are delivered. */
  lemma SavedAt(d: Device, pos: Axes, slot: Byte, links: nat -> Link, k: nat)
    requires slot != 0
    ensures var s := Transmit(d, PushReports(pos, slot), links, k);
            && (s.ok <==> links(k) == links(k + 1) == links(k + 2) == links(k + 3) == Delivered)
            && (s.ok ==> s.device == d.(motorPos := pos, presets := d.presets[slot := Preset(POSITIONED, pos)]))
  {
    var d1 := d.(motorPos := d.motorPos.With(PAN, pos.pan));
    var d2 := d1.(motorPos := d1.motorPos.With(TILT, pos.tilt));
    var d3 := d2.(motorPos := d2.motorPos.With(ZOOM, pos.zoom));
    var d4 := d3.(presets := d3.presets[slot := Preset(POSITIONED, d3.motorPos)]);
    assert d4 == d.(motorPos := pos, presets := d.presets[slot := Preset(POSITIONED, pos)]);
    hide Receive, MotorPosReport, PresetPosReport, Le32, Transmit;
    PosStored(d, PAN, pos.pan, 23);
    PosStored(d1, TILT, pos.tilt, 23);
    PosStored(d2, ZOOM, pos.zoom, 23);
    PresetStored(d3, slot, 27);
    SentIs(pos, slot);
    TransmitFour(d, PushReports(pos, slot), links, k, d1, d2, d3, d4);
  }

  lemma SentIs(pos: Axes, slot: Byte)
    ensures forall m, v :: Sent(MotorPosReport(m, v)) == MotorPosReport(m, v) + Zeros(23)
    ensures Sent(PresetPosReport(slot)) == PresetPosReport(slot) + Zeros(27)
  {
  }

  lemma {:induction false} SpeedsOnly(d: Device, reports: seq<seq<Byte>>, links: nat -> Link, k: nat)
    requires forall r <- reports :: CommandOf(Sent(r)) == Some(SetMotorSpeed)
    ensures var e := Transmit(d, reports, links, k).device;
            e == d.(motorSpeed := e.motorSpeed)
    decreases |reports|
  {
    if reports != [] {
      hide U32Of, CommandOf;
      SpeedsOnly(Receive(d, Sent(reports[0])).device, reports[1..], links, k + 1);
    }
  }

  /** A push that succeeds leaves the position in its slot; apart from the speeds everything else is as it was. */
  lemma PushSaves(d: Device, pos: Axes, slot: Byte, speeds: Axes, links: nat -> Link)
    requires slot != 0
    ensures var s := Pushed(d, pos, slot, speeds, links);
            s.ok ==> s.device == d.(motorSpeed := s.device.motorSpeed, motorPos := pos,
                                    presets := d.presets[slot := Preset(POSITIONED, pos)])
    ensures (forall i :: links(i) == Delivered) ==> Pushed(d, pos, slot, speeds, links).ok
  {
    V2Routed(PAN, speeds.pan, 0, 0, 23);
    V2Routed(TILT, speeds.tilt, 0, 0, 23);
    V2Routed(ZOOM, speeds.zoom, 0, 0, 23);
    assert forall r <- SpeedReports(speeds) :: CommandOf(Sent(r)) == Some(SetMotorSpeed) by { hide CommandOf, Le32; }
    hide SpeedReports, PushReports, Transmit;
    SpeedsOnly(d, SpeedReports(speeds), links, 0);
    var s := Transmit(d, SpeedReports(speeds), links, 0);
    SavedAt(s.device, pos, slot, links, s.attempts);
  }

  // ---------------------------------------------------------------------
  // Where the speeds go
  // ---------------------------------------------------------------------

  lemma {:induction false} SpeedStep(d: Device, motor: Byte, v: U32, rest: seq<seq<Byte>>, links: nat -> Link, k: nat)
    requires motor <= ZOOM
    ensures var e := d.(motorSpeed := d.motorSpeed.With(motor, v));
            Transmit(d, [MotorSpeedReport(motor, v)] + rest, links, k)
            == if links(k) == Lost then Sending(d, false, k + 1)
               else if links(k) == Unconfirmed then Sending(e, false, k + 1)
               else Transmit(e, rest, links, k + 1)
  {
    SpeedStored(d, motor, v, 23);
    assert Sent(MotorSpeedReport(motor, v)) == MotorSpeedReport(motor, v) + Zeros(23);
    assert ([MotorSpeedReport(motor, v)] + rest)[1..] == rest;
    hide Receive, Sent, MotorSpeedReport;
  }

  /** One axis more: its own speed once its write arrives, and the axes after it only if that was confirmed. */
  lemma {:induction false} SpeedAxis(d: Device, motor: Byte, v: U32, rest: seq<seq<Byte>>, links: nat -> Link, k: nat)
    requires motor <= ZOOM
    ensures var head := if IsPreference(v) then [MotorSpeedReport(motor, v)] else [];
            var e := d.(motorSpeed := d.motorSpeed.With(motor, v));
            Transmit(d, head + rest, links, k)
            == if !IsPreference(v) then Transmit(d, rest, links, k)
               else if links(k) == Lost then Sending(d, false, k + 1)
               else if links(k) == Unconfirmed then Sending(e, false, k + 1)
               else Transmit(e, rest, links, k + 1)
  {
    SpeedStep(d, motor, v, rest, links, k);
    assert [] + rest == rest;
    hide MotorSpeedReport, Transmit;
  }

  /** How many writes the preference of an axis takes. */
  function WritesFor(v: U32): nat {
    if IsPreference(v) then 1 else 0
  }

  /** Nothing fails on an axis: it has no preference, or its write is confirmed. */
  predicate Confirmed(v: U32, links: nat -> Link, k: nat) {
    IsPreference(v) ==> links(k) == Delivered
  }

  /** An axis has its own preference once its write arrives. */
  function AxisAfter(was: U32, v: U32, links: nat -> Link, k: nat): U32 {
    if IsPreference(v) && links(k) != Lost then v else was
  }

  lemma {:induction false} LastAxis(d: Device, v: U32, links: nat -> Link, k: nat)
    ensures var s := Transmit(d, if IsPreference(v) then [MotorSpeedReport(ZOOM, v)] else [], links, k);
            && s.device == d.(motorSpeed := d.motorSpeed.(zoom := AxisAfter(d.motorSpeed.zoom, v, links, k)))
            && (s.ok <==> Confirmed(v, links, k))
            && (s.ok ==> s.attempts == k + WritesFor(v))
  {
    var head := if IsPreference(v) then [MotorSpeedReport(ZOOM, v)] else [];
    assert head + [] == head;
    SpeedAxis(d, ZOOM, v, [], links, k);
    NothingSent(d, links, k);
    NothingSent(d.(motorSpeed := d.motorSpeed.With(ZOOM, v)), links, k + 1);
    hide Transmit, MotorSpeedReport, IsPreference;
  }

  function LastReports(tilt: U32, zoom: U32): seq<seq<Byte>> {
    (if IsPreference(tilt) then [MotorSpeedReport(TILT, tilt)] else [])
    + (if IsPreference(zoom) then [MotorSpeedReport(ZOOM, zoom)] else [])
  }

  lemma SplitReports(speeds: Axes)
    ensures SpeedReports(speeds)
            == (if IsPreference(speeds.pan) then [MotorSpeedReport(PAN, speeds.pan)] else [])
               + LastReports(speeds.tilt, speeds.zoom)
  {
    hide IsPreference, MotorSpeedReport;
  }

  lemma {:induction false} LastAxes(d: Device, tilt: U32, zoom: U32, links: nat -> Link, k: nat)
    ensures var s := Transmit(d, LastReports(tilt, zoom), links, k);
            var i := k + WritesFor(tilt);
            && s.device == d.(motorSpeed := d.motorSpeed.(tilt := AxisAfter(d.motorSpeed.tilt, tilt, links, k),
                 zoom := if Confirmed(tilt, links, k) then AxisAfter(d.motorSpeed.zoom, zoom, links, i)
                         else d.motorSpeed.zoom))
            && (s.ok <==> Confirmed(tilt, links, k) && Confirmed(zoom, links, i))
            && (s.ok ==> s.attempts == i + WritesFor(zoom))
  {
    var rest := if IsPreference(zoom) then [MotorSpeedReport(ZOOM, zoom)] else [];
    SpeedAxis(d, TILT, tilt, rest, links, k);
    LastAxis(d, zoom, links, k);
    LastAxis(d.(motorSpeed := d.motorSpeed.With(TILT, tilt)), zoom, links, k + 1);
    hide Transmit, MotorSpeedReport, IsPreference;
  }

  /**
    The motor speeds after the speed reports: each axis has its own preference when
    it has one, every preferred axis before it was confirmed and its own write
    arrived, and keeps its speed otherwise. Nothing else changes, and the sending
    succeeds exactly when every preferred axis was confirmed.
  */
  lemma SpeedsArrive(d: Device, speeds: Axes, links: nat -> Link, k: nat)
    ensures var s := Transmit(d, SpeedReports(speeds), links, k);
            var j := k + WritesFor(speeds.pan);
            var i := j + WritesFor(speeds.tilt);
            var toTilt := Confirmed(speeds.pan, links, k);
            var toZoom := toTilt && Confirmed(speeds.tilt, links, j);
            && s.device == d.(motorSpeed := Axes(
                 AxisAfter(d.motorSpeed.pan, speeds.pan, links, k),
                 if toTilt then AxisAfter(d.motorSpeed.tilt, speeds.tilt, links, j) else d.motorSpeed.tilt,
                 if toZoom then AxisAfter(d.motorSpeed.zoom, speeds.zoom, links, i) else d.motorSpeed.zoom))
            && (s.ok <==> toZoom && Confirmed(speeds.zoom, links, i))
            && (s.ok ==> s.attempts == i + WritesFor(speeds.zoom))
  {
    hide Transmit, MotorSpeedReport, IsPreference, SpeedReports, LastReports;
    var rest := LastReports(speeds.tilt, speeds.zoom);
    SplitReports(speeds);
    SpeedAxis(d, PAN, speeds.pan, rest, links, k);
    if IsPreference(speeds.pan) {
      LastAxes(d.(motorSpeed := d.motorSpeed.With(PAN, speeds.pan)), speeds.tilt, speeds.zoom, links, k + 1);
    } else {
      LastAxes(d, speeds.tilt, speeds.zoom, links, k);
    }
  }

  lemma NothingSent(d: Device, links: nat -> Link, k: nat)
    ensures Transmit(d, [], links, k) == Sending(d, true, k)
  {
  }

  lemma {:induction false} MovesKeepSpeeds(d: Device, reports: seq<seq<Byte>>, links: nat -> Link, k: nat)
    requires forall r <- reports :: CommandOf(Sent(r)) == Some(SetMotorPos) || CommandOf(Sent(r)) == Some(SetPresetPos)
    ensures Transmit(d, reports, links, k).device.motorSpeed == d.motorSpeed
    decreases |reports|
  {
    if reports != [] {
      hide U32Of, CommandOf;
      MovesKeepSpeeds(Receive(d, Sent(reports[0])).device, reports[1..], links, k + 1);
    }
  }

  lemma PushesAreMoves(pos: Axes, slot: Byte)
    ensures forall r <- PushReports(pos, slot) ::
              CommandOf(Sent(r)) == Some(SetMotorPos) || CommandOf(Sent(r)) == Some(SetPresetPos)
  {
    V2Routed(PAN, pos.pan, slot, 0, 23);
    V2Routed(TILT, pos.tilt, slot, 0, 23);
    V2Routed(ZOOM, pos.zoom, slot, 0, 23);
    V2Routed(PAN, 0, slot, 0, 27);
    SentIs(pos, slot);
    hide CommandOf, Sent, MotorPosReport, PresetPosReport;
  }

  /**
    The motor speeds a push leaves, however its writes end; those of the speeds are
    the first. With every write delivered each axis has its own preference if it has
    one and its old speed if not.
  */
  lemma PushSetsSpeeds(d: Device, pos: Axes, slot: Byte, speeds: Axes, links: nat -> Link)
    ensures var m := Pushed(d, pos, slot, speeds, links).device.motorSpeed;
            var pan, tilt, zoom := IsPreference(speeds.pan), IsPreference(speeds.tilt), IsPreference(speeds.zoom);
            var j := if pan then 1 else 0;
            var i := if tilt then j + 1 else j;
            var toTilt := pan ==> links(0) == Delivered;
            var toZoom := toTilt && (tilt ==> links(j) == Delivered);
            && m.pan == (if pan && links(0) != Lost then speeds.pan else d.motorSpeed.pan)
            && m.tilt == (if tilt && toTilt && links(j) != Lost then speeds.tilt else d.motorSpeed.tilt)
            && m.zoom == (if zoom && toZoom && links(i) != Lost then speeds.zoom else d.motorSpeed.zoom)
    ensures (forall n :: links(n) == Delivered) ==>
              Pushed(d, pos, slot, speeds, links).device.motorSpeed
              == Axes(if IsPreference(speeds.pan) then speeds.pan else d.motorSpeed.pan,
                      if IsPreference(speeds.tilt) then speeds.tilt else d.motorSpeed.tilt,
                      if IsPreference(speeds.zoom) then speeds.zoom else d.motorSpeed.zoom)
  {
    hide Transmit, SpeedReports, PushReports, IsPreference, CommandOf, Sent;
    SpeedsArrive(d, speeds, links, 0);
    PushesAreMoves(pos, slot);
    var s := Transmit(d, SpeedReports(speeds), links, 0);
    MovesKeepSpeeds(s.device, PushReports(pos, slot), links, s.attempts);
  }

  /**
    What a pushed preset comes back as, with full answers: through encoding, the
    device's save, the framed answer, parsing, rounding and clamping.
  */
  lemma PushedComesBack(d: Device, p: Ptz, f: int -> U32, slot: Byte, speeds: Axes, links: nat -> Link,
          other: U32 -> int)
    requires IsConversion(f) && d.full && slot != 0
    requires -(EXACT as int) < p.pan < EXACT && -(EXACT as int) < p.tilt < EXACT && -(EXACT as int) < p.zoom < EXACT
    ensures Pushed(d, Position(p, f), slot, speeds, links).ok ==>
              var e := Pushed(d, Position(p, f), slot, speeds, links).device;
              var a := Answer(e, Sent(PresetQuery(slot)));
              && a.Ok? && ParsePresetPos(PRESET_HEAD, a.value).Ok?
              && var r := ParsePresetPos(PRESET_HEAD, a.value).value;
              && r.Occupied() && r.hasPos && r.slot == slot
              && PtzValues(r, other) == ClampPtz(p)
              && (PtzValues(r, other) == p <==> InRange(p))
  {
    var pos := Position(p, f);
    var e := Pushed(d, pos, slot, speeds, links).device;
    PushSaves(d, pos, slot, speeds, links);
    SlotReadBack(e, slot, 27);
    hide Answer, ParsePresetPos, Pushed, OfInt, Rounded;
    RoundedInteger(p.pan, other);
    RoundedInteger(p.tilt, other);
    RoundedInteger(p.zoom, other);
    ClampKeepsInRange(p);
  }
}
