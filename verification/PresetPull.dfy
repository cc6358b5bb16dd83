/**
  Sweeping the hardware slots into additive `hw-N` presets: what lands, what is
  counted, and when the sweep stops.
*/
module PresetPull {
  import opened Base
  import opened PixyWire
  import opened PixyDevice
  import opened Presets
  import opened Float32

  const MAX_FAILURES: nat := 3

  datatype QueryError = NotConnected | BadAnswer

  /** How the query of one slot ends. */
  datatype Query = Answered(reading: Reading) | Failure(error: QueryError)

  /** The counters of one sweep. */
  datatype Tally = Tally(
    pulled: seq<string>,
    empty: nat,
    skipped: nat,
    occupied: nat,
    failures: nat,
    limitHit: bool,
    aborted: bool,
    firstErr: Option<QueryError>,
    consecutive: nat,
    changed: bool
  ) {
    /** The slots accounted for. */
    function Count(): nat {
      |pulled| + empty + skipped + occupied + failures + if limitHit then 1 else 0
    }

    predicate Over() {
      aborted || limitHit
    }
  }

  /** The collection and the counters after a slot. */
  datatype Step = Step(presets: PresetMap, tally: Tally)

  const BLANK := Tally([], 0, 0, 0, 0, false, false, None, 0, false)

  function HwName(slot: nat): string
    requires slot <= 9
  {
    "hw-" + [('0' as int + slot) as char]
  }

  /** The names the sweep makes are valid, so that storing one can only fail for lack of room. */
  lemma HwNameValid(slot: nat)
    requires slot <= 9
    ensures ValidName(HwName(slot)) && Trimmed(HwName(slot)) == HwName(slot)
  {
  }

  lemma HwNamesDiffer(a: nat, b: nat)
    requires a <= 9 && b <= 9 && HwName(a) == HwName(b)
    ensures a == b
  {
    assert HwName(a)[3] == HwName(b)[3];
  }

  // ---------------------------------------------------------------------
  // The sweep as a function of the answers
  // ---------------------------------------------------------------------

  function Failed(t: Tally, e: QueryError): Tally {
    t.(failures := t.failures + 1,
       consecutive := t.consecutive + 1,
       firstErr := if t.firstErr == None then Some(e) else t.firstErr,
       aborted := t.consecutive + 1 >= MAX_FAILURES)
  }

  /** An occupied slot with a position: known, no room, reported, or stored. */
  function Admitted(m: PresetMap, t: Tally, dry: bool, slot: nat, values: Ptz): Step
    requires slot <= 9
  {
    var name := HwName(slot);
    if name in m then Step(m, t.(skipped := t.skipped + 1))
    else if |m| >= MAX_PRESETS then Step(m, t.(limitHit := true))
    else if dry then Step(m, t.(pulled := t.pulled + [name]))
    else Step(m[name := values], t.(pulled := t.pulled + [name], changed := true))
  }

  function Visited(m: PresetMap, t: Tally, dry: bool, slot: nat, q: Query, other: U32 -> int): Step
    requires slot <= 9
  {
    match q
    case Failure(e) => Step(m, Failed(t, e))
    case Answered(r) =>
      var u := t.(consecutive := 0);
      if !r.Occupied() then Step(m, u.(empty := u.empty + 1))
      else if !r.hasPos then Step(m, u.(occupied := u.occupied + 1))
      else Admitted(m, u, dry, slot, PtzValues(r, other))
  }

  /** Where a sweep ended: `attempts` slots answered or failed, unless the device was gone at the next. */
  datatype Swept = Swept(presets: PresetMap, tally: Tally, gone: bool, attempts: nat)

  function Sweep(m: PresetMap, t: Tally, dry: bool, qs: seq<Query>, slot: nat, other: U32 -> int): Swept
    requires |qs| == MAX_SLOTS && 1 <= slot <= MAX_SLOTS + 1
    decreases MAX_SLOTS + 1 - slot
  {
    if slot > MAX_SLOTS then Swept(m, t, false, slot - 1)
    else if qs[slot - 1] == Failure(NotConnected) then Swept(m, t, true, slot - 1)
    else
      var Step(n, u) := Visited(m, t, dry, slot, qs[slot - 1], other);
      if u.Over() then Swept(n, u, false, slot) else Sweep(n, u, dry, qs, slot + 1, other)
  }

  lemma SweepStep(m: PresetMap, t: Tally, dry: bool, qs: seq<Query>, slot: nat, other: U32 -> int)
    requires |qs| == MAX_SLOTS && 1 <= slot <= MAX_SLOTS
    ensures Sweep(m, t, dry, qs, slot, other) ==
            if qs[slot - 1] == Failure(NotConnected) then Swept(m, t, true, slot - 1)
            else
              var Step(n, u) := Visited(m, t, dry, slot, qs[slot - 1], other);
              if u.Over() then Swept(n, u, false, slot) else Sweep(n, u, dry, qs, slot + 1, other)
  {
  }

  lemma SweepEnd(m: PresetMap, t: Tally, dry: bool, qs: seq<Query>, other: U32 -> int)
    requires |qs| == MAX_SLOTS
    ensures Sweep(m, t, dry, qs, MAX_SLOTS + 1, other) == Swept(m, t, false, MAX_SLOTS)
  {
  }

  /** What other commands make of the collection before a slot is asked for. */
  type Edits = (nat, PresetMap) -> PresetMap

  function NoEdits(): Edits {
    (slot, m) => m
  }

  /** The sweep while other commands edit the collection between two slots. */
  function SweepAmong(m: PresetMap, t: Tally, dry: bool, qs: seq<Query>, slot: nat, edits: Edits,
          other: U32 -> int): Swept
    requires |qs| == MAX_SLOTS && 1 <= slot <= MAX_SLOTS + 1
    decreases MAX_SLOTS + 1 - slot
  {
    if slot > MAX_SLOTS then Swept(m, t, false, slot - 1)
    else
      var found := edits(slot, m);
      if qs[slot - 1] == Failure(NotConnected) then Swept(found, t, true, slot - 1)
      else
        var Step(n, u) := Visited(found, t, dry, slot, qs[slot - 1], other);
        if u.Over() then Swept(n, u, false, slot) else SweepAmong(n, u, dry, qs, slot + 1, edits, other)
  }

  lemma AmongStep(m: PresetMap, t: Tally, dry: bool, qs: seq<Query>, slot: nat, edits: Edits, other: U32 -> int)
    requires |qs| == MAX_SLOTS && 1 <= slot <= MAX_SLOTS
    ensures SweepAmong(m, t, dry, qs, slot, edits, other) ==
            if qs[slot - 1] == Failure(NotConnected) then Swept(edits(slot, m), t, true, slot - 1)
            else
              var Step(n, u) := Visited(edits(slot, m), t, dry, slot, qs[slot - 1], other);
              if u.Over() then Swept(n, u, false, slot) else SweepAmong(n, u, dry, qs, slot + 1, edits, other)
  {
  }

  lemma AmongEnd(m: PresetMap, t: Tally, dry: bool, qs: seq<Query>, edits: Edits, other: U32 -> int)
    requires |qs| == MAX_SLOTS
    ensures SweepAmong(m, t, dry, qs, MAX_SLOTS + 1, edits, other) == Swept(m, t, false, MAX_SLOTS)
  {
  }

  /** Left alone, it is the sweep above. */
  lemma {:induction false} SweepAlone(m: PresetMap, t: Tally, dry: bool, qs: seq<Query>, slot: nat, other: U32 -> int)
    requires |qs| == MAX_SLOTS && 1 <= slot <= MAX_SLOTS + 1
    ensures SweepAmong(m, t, dry, qs, slot, NoEdits(), other) == Sweep(m, t, dry, qs, slot, other)
    decreases MAX_SLOTS + 1 - slot
  {
    hide Visited, Sweep, SweepAmong;
    if slot > MAX_SLOTS {
      SweepEnd(m, t, dry, qs, other);
      AmongEnd(m, t, dry, qs, NoEdits(), other);
    } else {
      SweepStep(m, t, dry, qs, slot, other);
      AmongStep(m, t, dry, qs, slot, NoEdits(), other);
      if qs[slot - 1] != Failure(NotConnected) {
        var Step(n, u) := Visited(m, t, dry, slot, qs[slot - 1], other);
        if !u.Over() {
          SweepAlone(n, u, dry, qs, slot + 1, other);
        }
      }
    }
  }

  /** Nothing was learnt but failures. */
  predicate AllSlotsFailed(t: Tally) {
    t.pulled == [] && t.empty == 0 && t.skipped == 0 && t.occupied == 0 && t.failures > 0
  }

  datatype PullResult =
    | Gone
    | Unreadable(failures: nat, aborted: bool, cause: Option<QueryError>)
    | Summary(tally: Tally)

  function ResultOf(s: Swept): PullResult {
    if s.gone then Gone
    else if AllSlotsFailed(s.tally) then Unreadable(s.tally.failures, s.tally.aborted, s.tally.firstErr)
    else Summary(s.tally)
  }

  // ---------------------------------------------------------------------
  // The sweep that updates its counters
  // ---------------------------------------------------------------------

  class PullSweep {
    var pulled: seq<string>
    var empty: nat
    var skipped: nat
    var occupied: nat
    var failures: nat
    var limitHit: bool
    var aborted: bool
    var firstErr: Option<QueryError>
    var consecutive: nat
    var changed: bool
    const dryRun: bool

    constructor (dry: bool)
      ensures Now() == BLANK && dryRun == dry
    {
      pulled, empty, skipped, occupied, failures := [], 0, 0, 0, 0;
      limitHit, aborted, firstErr, consecutive, changed := false, false, None, 0, false;
      dryRun := dry;
    }

    function Now(): Tally
      reads this
    {
      Tally(pulled, empty, skipped, occupied, failures, limitHit, aborted, firstErr, consecutive, changed)
    }

    method RecordFailure(e: QueryError) returns (stop: bool)
      modifies this`failures, this`consecutive, this`firstErr
      ensures stop == (consecutive >= MAX_FAILURES)
      ensures Now().(aborted := stop) == Failed(old(Now()), e)
    {
      failures := failures + 1;
      consecutive := consecutive + 1;
      if firstErr == None {
        firstErr := Some(e);
      }
      stop := consecutive >= MAX_FAILURES;
    }

    method AdmitReading(reading: Reading, slot: nat, store: Store, other: U32 -> int) returns (full: bool)
      requires slot <= 9 && !limitHit
      modifies this`skipped, this`pulled, this`changed, store
      ensures Step(store.entries, Now().(limitHit := full)) ==
              Admitted(old(store.entries), old(Now()), dryRun, slot, PtzValues(reading, other))
    {
      var name := HwName(slot);
      var known := name in store.entries;
      full := !known && store.IsFull();
      if known {
        skipped := skipped + 1;
      } else if full {
      } else if dryRun {
        pulled := pulled + [name];
      } else {
        HwNameValid(slot);
        var error := store.Set(name, PtzValues(reading, other));
        if error.Some? { // a name made here is valid and there is room
          assert false;
        }
        pulled := pulled + [name];
        changed := true;
      }
    }

    /** One slot of the sweep, for an answer other than an unreachable device. */
    method Visit(store: Store, slot: nat, q: Query, other: U32 -> int)
      requires slot <= 9 && !aborted && !limitHit
      modifies this, store
      ensures Step(store.entries, Now()) == Visited(old(store.entries), old(Now()), dryRun, slot, q, other)
    {
      if q.Failure? {
        aborted := RecordFailure(q.error);
        return;
      }
      consecutive := 0;
      if !q.reading.Occupied() {
        empty := empty + 1;
      } else if !q.reading.hasPos {
        occupied := occupied + 1;
      } else {
        limitHit := AdmitReading(q.reading, slot, store, other);
      }
    }
  }

  /**
    The whole command, other commands editing the collection between the slots:
    `saved` says whether the collection was written to disk.
  */
  method Pull(store: Store, dry: bool, qs: seq<Query>, edits: Edits, other: U32 -> int)
    returns (r: PullResult, saved: bool)
    requires |qs| == MAX_SLOTS
    modifies store
    ensures var s := SweepAmong(old(store.entries), BLANK, dry, qs, 1, edits, other);
            && store.entries == s.presets
            && r == ResultOf(s)
            && saved == (s.tally.changed && !s.gone)
  {
    hide SweepAmong, Visited;
    var sweep := new PullSweep(dry);
    var slot := 1;
    while slot <= MAX_SLOTS
      invariant 1 <= slot <= MAX_SLOTS + 1 && !sweep.aborted && !sweep.limitHit && fresh(sweep)
      invariant SweepAmong(old(store.entries), BLANK, dry, qs, 1, edits, other)
                == SweepAmong(store.entries, sweep.Now(), dry, qs, slot, edits, other)
    {
      AmongStep(store.entries, sweep.Now(), dry, qs, slot, edits, other);
      store.entries := edits(slot, store.entries);
      var q := qs[slot - 1];
      if q == Failure(NotConnected) {
        return Gone, false;
      }
      sweep.Visit(store, slot, q, other);
      if sweep.aborted || sweep.limitHit { break; }
      slot := slot + 1;
    }
    if slot > MAX_SLOTS {
      AmongEnd(store.entries, sweep.Now(), dry, qs, edits, other);
    }
    saved := sweep.changed;
    var t := sweep.Now();
    r := if AllSlotsFailed(t) then Unreadable(t.failures, t.aborted, t.firstErr) else Summary(t);
  }

  // ---------------------------------------------------------------------
  // Accounting
  // ---------------------------------------------------------------------

  /** How many of the first n answers, counted from the last, are failures. */
  function Trailing(qs: seq<Query>, n: nat): nat
    requires n <= |qs|
  {
    if n == 0 || qs[n - 1].Answered? then 0 else 1 + Trailing(qs, n - 1)
  }

  function Failures(qs: seq<Query>, n: nat): nat
    requires n <= |qs|
  {
    if n == 0 then 0 else Failures(qs, n - 1) + if qs[n - 1].Failure? then 1 else 0
  }

  /** The counters agree with the first n answers. */
  ghost predicate Accounted(t: Tally, qs: seq<Query>, n: nat)
    requires n <= |qs|
  {
    && t.Count() == n
    && t.failures == Failures(qs, n)
    && t.consecutive == Trailing(qs, n)
    && (t.aborted <==> t.consecutive >= MAX_FAILURES)
    && (t.limitHit ==> n > 0 && qs[n - 1].Answered?)
    && (t.firstErr.Some? <==> t.failures > 0)
    && (t.changed ==> t.pulled != [])
  }

  lemma {:induction false} SweepAccounts(m: PresetMap, t: Tally, dry: bool, qs: seq<Query>, slot: nat, edits: Edits,
          other: U32 -> int)
    requires |qs| == MAX_SLOTS && 1 <= slot <= MAX_SLOTS + 1
    requires Accounted(t, qs, slot - 1) && !t.Over()
    ensures var s := SweepAmong(m, t, dry, qs, slot, edits, other);
            && s.attempts <= MAX_SLOTS
            && Accounted(s.tally, qs, s.attempts)
            && (s.gone <==> s.attempts < MAX_SLOTS && !s.tally.Over())
            && (s.gone ==> qs[s.attempts] == Failure(NotConnected))
    decreases MAX_SLOTS + 1 - slot
  {
    hide Visited, Accounted, SweepAmong;
    if slot > MAX_SLOTS {
      AmongEnd(m, t, dry, qs, edits, other);
    } else {
      AmongStep(m, t, dry, qs, slot, edits, other);
      if qs[slot - 1] != Failure(NotConnected) {
        var Step(n, u) := Visited(edits(slot, m), t, dry, slot, qs[slot - 1], other);
        VisitAccounts(edits(slot, m), t, dry, qs, slot, other);
        if !u.Over() {
          SweepAccounts(n, u, dry, qs, slot + 1, edits, other);
        }
      }
    }
  }

  /** The slots attempted next: none lost the device, and none came after three failures in a row. */
  ghost predicate Attemptable(qs: seq<Query>, first: nat, last: nat)
    requires last <= |qs|
  {
    forall i | first <= i < last :: qs[i] != Failure(NotConnected) && Trailing(qs, i) < MAX_FAILURES
  }

  lemma OneAttemptable(t: Tally, qs: seq<Query>, slot: nat, last: nat)
    requires 1 <= slot <= last <= |qs| && Accounted(t, qs, slot - 1) && !t.Over()
             && qs[slot - 1] != Failure(NotConnected)
    requires Attemptable(qs, slot, last)
    ensures Attemptable(qs, slot - 1, last)
  {
    assert Trailing(qs, slot - 1) < MAX_FAILURES;
    hide Trailing, Accounted;
  }

  lemma {:induction false} SweepAttempts(m: PresetMap, t: Tally, dry: bool, qs: seq<Query>, slot: nat,
          other: U32 -> int)
    requires |qs| == MAX_SLOTS && 1 <= slot <= MAX_SLOTS + 1
    requires Accounted(t, qs, slot - 1) && !t.Over()
    ensures var s := Sweep(m, t, dry, qs, slot, other);
            slot - 1 <= s.attempts <= MAX_SLOTS && Attemptable(qs, slot - 1, s.attempts)
    decreases MAX_SLOTS + 1 - slot
  {
    assert Attemptable(qs, slot - 1, slot - 1);
    assert slot <= MAX_SLOTS ==> Attemptable(qs, slot, slot);
    hide Visited, Accounted, Sweep, Attemptable;
    if slot > MAX_SLOTS {
      SweepEnd(m, t, dry, qs, other);
    } else {
      SweepStep(m, t, dry, qs, slot, other);
      if qs[slot - 1] != Failure(NotConnected) {
        var Step(n, u) := Visited(m, t, dry, slot, qs[slot - 1], other);
        VisitAccounts(m, t, dry, qs, slot, other);
        if !u.Over() {
          SweepAttempts(n, u, dry, qs, slot + 1, other);
        }
        OneAttemptable(t, qs, slot, Sweep(m, t, dry, qs, slot, other).attempts);
      }
    }
  }

  lemma CountersStep(qs: seq<Query>, n: nat)
    requires n < |qs|
    ensures Failures(qs, n + 1) == Failures(qs, n) + if qs[n].Failure? then 1 else 0
    ensures Trailing(qs, n + 1) == if qs[n].Answered? then 0 else 1 + Trailing(qs, n)
  {
  }

  lemma AdmitCounts(m: PresetMap, t: Tally, dry: bool, slot: nat, v: Ptz)
    requires slot <= 9 && !t.limitHit
    ensures var u := Admitted(m, t, dry, slot, v).tally;
            && u.Count() == t.Count() + 1
            && u.failures == t.failures && u.consecutive == t.consecutive
            && u.aborted == t.aborted && u.firstErr == t.firstErr
            && (u.changed ==> t.changed || u.pulled != []) && (t.pulled != [] ==> u.pulled != [])
  {
    hide HwName;
  }

  lemma VisitAccounts(m: PresetMap, t: Tally, dry: bool, qs: seq<Query>, slot: nat, other: U32 -> int)
    requires |qs| == MAX_SLOTS && 1 <= slot <= MAX_SLOTS
    requires Accounted(t, qs, slot - 1) && !t.Over()
    ensures Accounted(Visited(m, t, dry, slot, qs[slot - 1], other).tally, qs, slot)
  {
    CountersStep(qs, slot - 1);
    var q := qs[slot - 1];
    if q.Answered? {
      AdmitCounts(m, t.(consecutive := 0), dry, slot, PtzValues(q.reading, other));
    }
    hide PtzValues, Failures, Trailing, HwName, Admitted;
  }

  lemma {:induction false} TrailingIsRun(qs: seq<Query>, n: nat, k: nat)
    requires k <= n <= |qs|
    ensures Trailing(qs, n) >= k <==> forall i | n - k <= i < n :: qs[i].Failure?
    decreases n
  {
    if k > 0 {
      TrailingIsRun(qs, n - 1, k - 1);
    }
  }

  lemma {:induction false} TrailingBounded(qs: seq<Query>, n: nat)
    requires n <= |qs|
    ensures Trailing(qs, n) <= Failures(qs, n) <= n
    ensures Failures(qs, n) == n <==> forall i | 0 <= i < n :: qs[i].Failure?
  {
    if n > 0 {
      TrailingBounded(qs, n - 1);
    }
  }

  /**
    Whatever other commands do to the collection meanwhile: every attempted slot is
    counted once; the sweep is aborted exactly when the
    last three attempts failed; it ends early only for that, for lack of room, or
    because the device is gone.
  */
  lemma PullAccounts(m: PresetMap, dry: bool, qs: seq<Query>, edits: Edits, other: U32 -> int)
    requires |qs| == MAX_SLOTS
    ensures var s := SweepAmong(m, BLANK, dry, qs, 1, edits, other);
            && s.attempts <= MAX_SLOTS
            && s.tally.Count() == s.attempts
            && (s.tally.aborted <==> s.attempts >= 3 && forall i | s.attempts - 3 <= i < s.attempts :: qs[i].Failure?)
            && (s.gone <==> s.attempts < MAX_SLOTS && !s.tally.Over())
            && (s.gone ==> qs[s.attempts] == Failure(NotConnected))
  {
    SweepAccounts(m, BLANK, dry, qs, 1, edits, other);
    var s := SweepAmong(m, BLANK, dry, qs, 1, edits, other);
    TrailingBounded(qs, s.attempts);
    if s.attempts >= 3 {
      TrailingIsRun(qs, s.attempts, 3);
    }
    hide SweepAmong;
  }

  /** The report in terms of the counters and the answers they agree with. */
  lemma DeadTally(t: Tally, qs: seq<Query>, attempts: nat)
    requires attempts <= |qs| && Accounted(t, qs, attempts)
    ensures var n := attempts - if t.limitHit then 1 else 0;
            && 0 <= n <= |qs|
            && (AllSlotsFailed(t) <==> n > 0 && forall i | 0 <= i < n :: qs[i].Failure?)
            && (AllSlotsFailed(t) ==> (t.limitHit <==> exists i | 0 <= i < attempts :: qs[i].Answered?))
  {
    var n := attempts - if t.limitHit then 1 else 0;
    TrailingBounded(qs, n);
    if t.limitHit {
      CountersStep(qs, n);
    }
    hide Trailing, Failures;
    assert AllSlotsFailed(t) <==> t.failures == n && n > 0;
  }

  /** A sweep with no other outcome than failures, in its own counters: a slot without room is not counted. */
  lemma DeadCounters(m: PresetMap, dry: bool, qs: seq<Query>, edits: Edits, other: U32 -> int)
    requires |qs| == MAX_SLOTS
    ensures var s := SweepAmong(m, BLANK, dry, qs, 1, edits, other);
            var n := s.attempts - if s.tally.limitHit then 1 else 0;
            && 0 <= n <= |qs|
            && (AllSlotsFailed(s.tally) <==> n > 0 && forall i | 0 <= i < n :: qs[i].Failure?)
            && (AllSlotsFailed(s.tally) ==>
                  (s.tally.limitHit <==> exists i | 0 <= i < s.attempts :: qs[i].Answered?))
  {
    SweepAccounts(m, BLANK, dry, qs, 1, edits, other);
    hide SweepAmong;
    var s := SweepAmong(m, BLANK, dry, qs, 1, edits, other);
    DeadTally(s.tally, qs, s.attempts);
    hide *;
  }

  // ---------------------------------------------------------------------
  // The unreadable report
  // ---------------------------------------------------------------------

  /** The first k answers are failures of a camera that is there. */
  predicate FirstFail(qs: seq<Query>, k: nat)
    requires k <= |qs|
  {
    forall j | 0 <= j < k :: qs[j] == Failure(BadAnswer)
  }

  /** The counters after that. */
  function Fails(k: nat): Tally {
    Tally([], 0, 0, 0, k, false, k >= MAX_FAILURES, if k > 0 then Some(BadAnswer) else None, k, false)
  }

  /** The collection before slot k is asked for, when only other commands have touched it. */
  function Edited(m: PresetMap, edits: Edits, k: nat): PresetMap {
    if k == 0 then m else edits(k, Edited(m, edits, k - 1))
  }

  /** Slot k + 1 answers with a position, its hw name is free, and the collection is full. */
  predicate NoRoom(m: PresetMap, qs: seq<Query>, k: nat)
    requires k < |qs| == MAX_SLOTS
  {
    |m| >= MAX_PRESETS && HwName(k + 1) !in m && Positioned(qs[k])
  }

  lemma {:induction false} AfterFails(m: PresetMap, dry: bool, qs: seq<Query>, k: nat, edits: Edits, other: U32 -> int)
    requires |qs| == MAX_SLOTS && k <= 3 && FirstFail(qs, k)
    ensures SweepAmong(m, BLANK, dry, qs, 1, edits, other)
            == if k < 3 then SweepAmong(Edited(m, edits, k), Fails(k), dry, qs, k + 1, edits, other)
               else Swept(Edited(m, edits, 3), Fails(3), false, 3)
    decreases k
  {
    hide SweepAmong;
    if k > 0 {
      AfterFails(m, dry, qs, k - 1, edits, other);
      AmongStep(Edited(m, edits, k - 1), Fails(k - 1), dry, qs, k, edits, other);
    }
  }

  /** Something other than a failure has been counted. */
  predicate Alive(t: Tally) {
    t.pulled != [] || t.empty > 0 || t.skipped > 0 || t.occupied > 0
  }

  /** The first slot that answers leaves such a count, unless it finds no room. */
  lemma FirstAnswer(m: PresetMap, dry: bool, qs: seq<Query>, k: nat, other: U32 -> int)
    requires |qs| == MAX_SLOTS && k < 3 && qs[k].Answered?
    ensures var v := Visited(m, Fails(k), dry, k + 1, qs[k], other);
            if NoRoom(m, qs, k) then v == Step(m, Fails(k).(consecutive := 0, limitHit := true))
            else !v.tally.Over() && Alive(v.tally)
  {
    hide PtzValues, HwName;
  }

  lemma VisitAlive(m: PresetMap, t: Tally, dry: bool, slot: nat, q: Query, other: U32 -> int)
    requires slot <= 9 && Alive(t)
    ensures Alive(Visited(m, t, dry, slot, q, other).tally)
  {
    hide PtzValues, HwName;
  }

  lemma {:induction false} AliveStays(m: PresetMap, t: Tally, dry: bool, qs: seq<Query>, slot: nat, edits: Edits,
          other: U32 -> int)
    requires |qs| == MAX_SLOTS && 1 <= slot <= MAX_SLOTS + 1 && Alive(t)
    ensures Alive(SweepAmong(m, t, dry, qs, slot, edits, other).tally)
    decreases MAX_SLOTS + 1 - slot
  {
    hide Visited, SweepAmong, Alive;
    if slot > MAX_SLOTS {
      AmongEnd(m, t, dry, qs, edits, other);
    } else {
      AmongStep(m, t, dry, qs, slot, edits, other);
      if qs[slot - 1] != Failure(NotConnected) {
        VisitAlive(edits(slot, m), t, dry, slot, qs[slot - 1], other);
        var Step(n, u) := Visited(edits(slot, m), t, dry, slot, qs[slot - 1], other);
        if !u.Over() {
          AliveStays(n, u, dry, qs, slot + 1, edits, other);
        }
      }
    }
  }

  /** The sweep whose first k answers, fewer than three, are failures and whose next one is not. */
  lemma FewFails(m: PresetMap, dry: bool, qs: seq<Query>, k: nat, edits: Edits, other: U32 -> int)
    requires |qs| == MAX_SLOTS && k < 3 && FirstFail(qs, k) && qs[k] != Failure(BadAnswer)
    ensures var r := ResultOf(SweepAmong(m, BLANK, dry, qs, 1, edits, other));
            if k > 0 && NoRoom(Edited(m, edits, k + 1), qs, k) then r == Unreadable(k, false, Some(BadAnswer))
            else !r.Unreadable?
  {
    AfterFails(m, dry, qs, k, edits, other);
    var n := Edited(m, edits, k + 1);
    AmongStep(Edited(m, edits, k), Fails(k), dry, qs, k + 1, edits, other);
    assert n == edits(k + 1, Edited(m, edits, k));
    hide SweepAmong, Edited, HwName, NoRoom, Visited, ResultOf;
    if qs[k].Answered? {
      AnswerEnds(n, dry, qs, k, edits, other);
    } else {
      assert qs[k].error == NotConnected;
      GoneAfter(n, qs, k);
    }
  }

  lemma GoneAfter(n: PresetMap, qs: seq<Query>, k: nat)
    requires k < |qs| == MAX_SLOTS && qs[k] == Failure(NotConnected)
    ensures !NoRoom(n, qs, k) && ResultOf(Swept(n, Fails(k), true, k)) == Gone
  {
  }

  /** What becomes of the sweep from the first answer on, made in a collection `n`. */
  lemma AnswerEnds(n: PresetMap, dry: bool, qs: seq<Query>, k: nat, edits: Edits, other: U32 -> int)
    requires |qs| == MAX_SLOTS && k < 3 && qs[k].Answered?
    ensures var v := Visited(n, Fails(k), dry, k + 1, qs[k], other);
            var r := ResultOf(if v.tally.Over() then Swept(v.presets, v.tally, false, k + 1)
                              else SweepAmong(v.presets, v.tally, dry, qs, k + 2, edits, other));
            if k > 0 && NoRoom(n, qs, k) then r == Unreadable(k, false, Some(BadAnswer)) else !r.Unreadable?
  {
    FirstAnswer(n, dry, qs, k, other);
    var v := Visited(n, Fails(k), dry, k + 1, qs[k], other);
    hide Visited, SweepAmong, NoRoom;
    if !v.tally.Over() {
      AliveStays(v.presets, v.tally, dry, qs, k + 2, edits, other);
    }
  }

  /**
    When a sweep is reported as unreadable, read off the answers and the collection:
    exactly if the first three answers are failures, or if after one or two of them
    a slot is read whose position is new and finds the collection full. The second
    case is not what the report says: there a slot was read.
  */
  lemma ReportedDead(m: PresetMap, dry: bool, qs: seq<Query>, edits: Edits, other: U32 -> int)
    requires |qs| == MAX_SLOTS
    ensures var r := ResultOf(SweepAmong(m, BLANK, dry, qs, 1, edits, other));
            && (r.Unreadable? <==>
                  || FirstFail(qs, 3)
                  || (FirstFail(qs, 1) && NoRoom(Edited(m, edits, 2), qs, 1))
                  || (FirstFail(qs, 2) && NoRoom(Edited(m, edits, 3), qs, 2)))
            && (r.Unreadable? ==>
                  r == Unreadable(if FirstFail(qs, 3) then 3 else if FirstFail(qs, 2) then 2 else 1, FirstFail(qs, 3),
                                  Some(BadAnswer)))
  {
    hide SweepAmong, Edited, HwName;
    if FirstFail(qs, 3) {
      AfterFails(m, dry, qs, 3, edits, other);
    } else {
      var k := if !FirstFail(qs, 1) then 0 else if !FirstFail(qs, 2) then 1 else 2;
      FewFails(m, dry, qs, k, edits, other);
    }
  }

  /**
    A sweep left alone meets a full collection after one failure: it is reported as
    unreadable although a slot was read.
  */
  lemma DeadReportThoughRead(m: PresetMap, qs: seq<Query>, other: U32 -> int)
    requires |m| == MAX_PRESETS && HwName(2) !in m
    requires |qs| == MAX_SLOTS && qs[0] == Failure(BadAnswer)
    requires qs[1] == Answered(Reading(2, POSITIONED, 0, 0, 0, true))
    ensures ResultOf(Sweep(m, BLANK, false, qs, 1, other)) == Unreadable(1, false, Some(BadAnswer))
    ensures FirstFail(qs, 1) && NoRoom(m, qs, 1)
  {
    ReportedDead(m, false, qs, NoEdits(), other);
    SweepAlone(m, BLANK, false, qs, 1, other);
    assert Edited(m, NoEdits(), 1) == m && Edited(m, NoEdits(), 2) == m;
    hide Sweep, SweepAmong, HwName;
  }

  // ---------------------------------------------------------------------
  // What happens to the collection
  // ---------------------------------------------------------------------

  /** A slot whose answer carries a position. */
  predicate Positioned(q: Query) {
    q.Answered? && q.reading.Occupied() && q.reading.hasPos
  }

  /** The entry is the clamped position read at one of the slots. */
  ghost predicate Landed(name: string, v: Ptz, qs: seq<Query>, other: U32 -> int)
    requires |qs| == MAX_SLOTS
  {
    exists slot | 1 <= slot <= MAX_SLOTS ::
      name == HwName(slot) && Positioned(qs[slot - 1]) && v == PtzValues(qs[slot - 1].reading, other)
  }

  /** From `m` to `n` entries were only added, each of them read, and the change is noted. */
  ghost predicate Grown(m: PresetMap, t: Tally, n: PresetMap, u: Tally, dry: bool, qs: seq<Query>, other: U32 -> int)
    requires |qs| == MAX_SLOTS
  {
    && (forall k <- m :: k in n && n[k] == m[k])
    && (forall k <- n :: k in m || Landed(k, n[k], qs, other))
    && |m| <= |n| <= (if |m| < MAX_PRESETS then MAX_PRESETS else |m|)
    && (|n| == |m| ==> n == m)
    && (u.changed <==> t.changed || |n| > |m|)
    && (dry ==> n == m)
  }

  lemma GrownNot(m: PresetMap, t: Tally, dry: bool, qs: seq<Query>, other: U32 -> int)
    requires |qs| == MAX_SLOTS
    ensures Grown(m, t, m, t, dry, qs, other)
  {
  }

  ghost predicate GrownBy(m: PresetMap, t: Tally, s: Swept, dry: bool, qs: seq<Query>, other: U32 -> int)
    requires |qs| == MAX_SLOTS
  {
    Grown(m, t, s.presets, s.tally, dry, qs, other)
  }

  lemma GrownOn(m: PresetMap, t: Tally, v: Step, s: Swept, dry: bool, qs: seq<Query>, other: U32 -> int)
    requires |qs| == MAX_SLOTS
    requires Grown(m, t, v.presets, v.tally, dry, qs, other) && GrownBy(v.presets, v.tally, s, dry, qs, other)
    ensures GrownBy(m, t, s, dry, qs, other)
  {
    hide Landed;
  }

  lemma AdmitGrows(m: PresetMap, t: Tally, dry: bool, qs: seq<Query>, slot: nat, v: Ptz, other: U32 -> int)
    requires |qs| == MAX_SLOTS && slot <= 9
    ensures var s := Admitted(m, t, dry, slot, v);
            Landed(HwName(slot), v, qs, other) ==> Grown(m, t, s.presets, s.tally, dry, qs, other)
  {
    AddedSize(m, HwName(slot), v);
    hide Landed, HwName;
  }

  lemma VisitGrows(m: PresetMap, t: Tally, dry: bool, qs: seq<Query>, slot: nat, other: U32 -> int)
    requires |qs| == MAX_SLOTS && 1 <= slot <= MAX_SLOTS
    ensures var s := Visited(m, t, dry, slot, qs[slot - 1], other);
            Grown(m, t, s.presets, s.tally, dry, qs, other)
  {
    var q := qs[slot - 1];
    if Positioned(q) {
      var v := PtzValues(q.reading, other);
      assert Landed(HwName(slot), v, qs, other) by { hide PtzValues, HwName; }
      AdmitGrows(m, t.(consecutive := 0), dry, qs, slot, v, other);
      hide Landed, HwName, PtzValues, Admitted;
    } else {
      GrownNot(m, t, dry, qs, other);
      hide Landed;
    }
  }

  /** The sweep that ends at this slot. */
  lemma StopGrows(m: PresetMap, t: Tally, dry: bool, qs: seq<Query>, slot: nat, other: U32 -> int)
    requires |qs| == MAX_SLOTS && 1 <= slot <= MAX_SLOTS
    requires qs[slot - 1] == Failure(NotConnected) || Visited(m, t, dry, slot, qs[slot - 1], other).tally.Over()
    ensures GrownBy(m, t, Sweep(m, t, dry, qs, slot, other), dry, qs, other)
  {
    SweepStep(m, t, dry, qs, slot, other);
    GrownNot(m, t, dry, qs, other);
    VisitGrows(m, t, dry, qs, slot, other);
    hide Sweep, Visited, Grown;
  }

  lemma {:induction false} SweepGrows(m: PresetMap, t: Tally, dry: bool, qs: seq<Query>, slot: nat, other: U32 -> int)
    requires |qs| == MAX_SLOTS && 1 <= slot <= MAX_SLOTS + 1
    ensures GrownBy(m, t, Sweep(m, t, dry, qs, slot, other), dry, qs, other)
    decreases MAX_SLOTS + 1 - slot
  {
    if slot > MAX_SLOTS {
      GrownNot(m, t, dry, qs, other);
      SweepEnd(m, t, dry, qs, other);
      hide Sweep, Visited, Grown;
    } else if qs[slot - 1] == Failure(NotConnected) || Visited(m, t, dry, slot, qs[slot - 1], other).tally.Over() {
      StopGrows(m, t, dry, qs, slot, other);
      hide *;
    } else {
      hide *;
      SweepStep(m, t, dry, qs, slot, other);
      var v := Visited(m, t, dry, slot, qs[slot - 1], other);
      VisitGrows(m, t, dry, qs, slot, other);
      SweepGrows(v.presets, v.tally, dry, qs, slot + 1, other);
      GrownOn(m, t, v, Sweep(v.presets, v.tally, dry, qs, slot + 1, other), dry, qs, other);
    }
  }

  /**
    For every collection and all answers: no entry is changed or removed, the
    collection never passes the limit, what is added are clamped positions read
    under their hw names, and a dry run changes nothing.
  */
  lemma PullIsAdditive(m: PresetMap, dry: bool, qs: seq<Query>, other: U32 -> int)
    requires |qs| == MAX_SLOTS
    ensures var s := Sweep(m, BLANK, dry, qs, 1, other);
            && (forall k <- m :: k in s.presets && s.presets[k] == m[k])
            && (forall k <- s.presets :: k !in m ==> Landed(k, s.presets[k], qs, other) && InRange(s.presets[k]))
            && (|m| <= MAX_PRESETS ==> |s.presets| <= MAX_PRESETS)
            && (dry ==> s.presets == m)
            && (s.tally.changed <==> s.presets != m)
  {
    SweepGrows(m, BLANK, dry, qs, 1, other);
    hide Sweep, PtzValues;
  }

  // ---------------------------------------------------------------------
  // Room
  // ---------------------------------------------------------------------

  /** The free positioned slots among `slot..last`. */
  function Wanted(m: PresetMap, qs: seq<Query>, slot: nat, last: nat): nat
    requires last <= |qs| == MAX_SLOTS && 1 <= slot <= last + 1
    decreases last + 1 - slot
  {
    if slot > last then 0
    else (if Positioned(qs[slot - 1]) && HwName(slot) !in m then 1 else 0) + Wanted(m, qs, slot + 1, last)
  }

  lemma {:induction false} WantedIgnores(m: PresetMap, qs: seq<Query>, slot: nat, last: nat, i: nat, v: Ptz)
    requires last <= |qs| == MAX_SLOTS && 1 <= slot <= last + 1 && i < slot
    ensures Wanted(m[HwName(i) := v], qs, slot, last) == Wanted(m, qs, slot, last)
    decreases last + 1 - slot
  {
    if slot <= last {
      if HwName(slot) == HwName(i) {
        HwNamesDiffer(slot, i);
      }
      WantedIgnores(m, qs, slot + 1, last, i, v);
    }
  }

  /** Every free positioned slot among `first..last` is in the collection with its value. */
  ghost predicate AllStored(m: PresetMap, n: PresetMap, qs: seq<Query>, first: nat, last: nat, other: U32 -> int)
    requires last <= |qs| == MAX_SLOTS && first > 0
  {
    forall i | first <= i <= last ::
      Positioned(qs[i - 1]) && HwName(i) !in m ==> HwName(i) in n && n[HwName(i)] == PtzValues(qs[i - 1].reading, other)
  }

  /**
    The real sweep from `slot` on: room runs out exactly when the free positioned
    slots do not fit, else all are stored.
  */
  ghost predicate Stores(m: PresetMap, s: Swept, qs: seq<Query>, slot: nat, other: U32 -> int)
    requires |qs| == MAX_SLOTS && 1 <= slot <= MAX_SLOTS + 1
  {
    && slot - 1 <= s.attempts <= MAX_SLOTS
    && var w := Wanted(m, qs, slot, s.attempts);
    && (s.tally.limitHit <==> w > 0 && |m| + w > MAX_PRESETS)
    && (!s.tally.limitHit ==> AllStored(m, s.presets, qs, slot, s.attempts, other))
  }

  lemma {:induction false} SweepStores(m: PresetMap, t: Tally, qs: seq<Query>, slot: nat, other: U32 -> int)
    requires |qs| == MAX_SLOTS && 1 <= slot <= MAX_SLOTS + 1 && !t.Over()
    ensures Stores(m, Sweep(m, t, false, qs, slot, other), qs, slot, other)
    decreases MAX_SLOTS + 1 - slot
  {
    StopStores(m, t, qs, slot, other);
    hide PtzValues, Sweep, Visited, Stores, Grown;
    if slot > MAX_SLOTS {
      SweepEnd(m, t, false, qs, other);
    } else {
      SweepStep(m, t, false, qs, slot, other);
      if qs[slot - 1] != Failure(NotConnected) {
        var Step(n, u) := Visited(m, t, false, slot, qs[slot - 1], other);
        if u.Over() {
          LastStores(m, t, qs, slot, other);
        } else {
          SweepStores(n, u, qs, slot + 1, other);
          SweepGrows(n, u, false, qs, slot + 1, other);
          StepStores(m, t, qs, slot, other, Sweep(n, u, false, qs, slot + 1, other));
        }
      }
    }
  }

  lemma StopStores(m: PresetMap, t: Tally, qs: seq<Query>, slot: nat, other: U32 -> int)
    requires |qs| == MAX_SLOTS && 1 <= slot <= MAX_SLOTS + 1 && !t.Over()
    ensures Stores(m, Swept(m, t, false, slot - 1), qs, slot, other)
    ensures Stores(m, Swept(m, t, true, slot - 1), qs, slot, other)
  {
    hide HwName, PtzValues;
  }

  lemma LastStores(m: PresetMap, t: Tally, qs: seq<Query>, slot: nat, other: U32 -> int)
    requires |qs| == MAX_SLOTS && 1 <= slot <= MAX_SLOTS && !t.Over()
    requires Visited(m, t, false, slot, qs[slot - 1], other).tally.Over()
    ensures var Step(n, u) := Visited(m, t, false, slot, qs[slot - 1], other);
            Stores(m, Swept(n, u, false, slot), qs, slot, other)
  {
    hide PtzValues;
    assert Wanted(m, qs, slot + 1, slot) == 0;
  }

  /** What one real visit that does not end the sweep leaves in the collection. */
  lemma VisitStores(m: PresetMap, t: Tally, qs: seq<Query>, slot: nat, other: U32 -> int)
    requires |qs| == MAX_SLOTS && 1 <= slot <= MAX_SLOTS && !t.Over()
    requires !Visited(m, t, false, slot, qs[slot - 1], other).tally.Over()
    ensures var n := Visited(m, t, false, slot, qs[slot - 1], other).presets;
            if Positioned(qs[slot - 1]) && HwName(slot) !in m
            then n == m[HwName(slot) := PtzValues(qs[slot - 1].reading, other)] && |m| < MAX_PRESETS && |n| == |m| + 1
            else n == m
  {
    hide PtzValues, HwName;
    if Positioned(qs[slot - 1]) {
      var v := PtzValues(qs[slot - 1].reading, other);
      AddedSize(m, HwName(slot), v);
      AdmitStores(m, t.(consecutive := 0), slot, v);
      hide Admitted;
    }
  }

  lemma AdmitStores(m: PresetMap, t: Tally, slot: nat, v: Ptz)
    requires slot <= 9 && !t.Over() && !Admitted(m, t, false, slot, v).tally.Over()
    ensures Admitted(m, t, false, slot, v).presets == if HwName(slot) !in m then m[HwName(slot) := v] else m
    ensures HwName(slot) !in m ==> |m| < MAX_PRESETS
  {
    hide HwName;
  }

  lemma AddedSize(m: PresetMap, name: string, v: Ptz)
    ensures name !in m ==> |m[name := v]| == |m| + 1
    ensures name in m ==> |m[name := v]| == |m|
  {
    assert m[name := v].Keys == m.Keys + {name};
  }

  lemma StepStores(m: PresetMap, t: Tally, qs: seq<Query>, slot: nat, other: U32 -> int, s: Swept)
    requires |qs| == MAX_SLOTS && 1 <= slot <= MAX_SLOTS && !t.Over()
    requires var v := Visited(m, t, false, slot, qs[slot - 1], other);
             && !v.tally.Over() && Stores(v.presets, s, qs, slot + 1, other)
             && Grown(v.presets, v.tally, s.presets, s.tally, false, qs, other)
    ensures Stores(m, s, qs, slot, other)
  {
    VisitStores(m, t, qs, slot, other);
    var n := Visited(m, t, false, slot, qs[slot - 1], other).presets;
    hide Visited;
    if n == m {
      hide Admitted, PtzValues, HwName, Grown;
    } else {
      var v := PtzValues(qs[slot - 1].reading, other);
      assert HwName(slot) in n && n[HwName(slot)] == v;
      assert HwName(slot) in s.presets && s.presets[HwName(slot)] == v by { hide Stores, Landed; }
      WantedIgnores(m, qs, slot + 1, s.attempts, slot, v);
      hide Admitted, PtzValues, HwName, Grown, Landed;
      forall i | slot + 1 <= i <= s.attempts && HwName(i) !in m ensures HwName(i) !in n {
        if HwName(i) == HwName(slot) { HwNamesDiffer(i, slot); }
      }
    }
  }

  /** The first n answers neither lose the device nor hold three failures in a row. */
  predicate Unbroken(qs: seq<Query>, n: nat)
    requires n <= |qs|
  {
    && (forall j | 0 <= j < n :: qs[j] != Failure(NotConnected))
    && (forall j | 2 <= j < n :: qs[j - 2].Answered? || qs[j - 1].Answered? || qs[j].Answered?)
  }

  /** A free positioned slot is stored exactly if the sweep gets to it and it fits together with those before it. */
  ghost predicate SlotStored(m: PresetMap, s: Swept, qs: seq<Query>, slot: nat, i: nat, other: U32 -> int)
    requires |qs| == MAX_SLOTS && 1 <= slot <= i + 1 && 1 <= i <= MAX_SLOTS && Positioned(qs[i - 1])
  {
    && (HwName(i) in s.presets <==> i <= s.attempts && |m| + Wanted(m, qs, slot, i) <= MAX_PRESETS)
    && (HwName(i) in s.presets ==> s.presets[HwName(i)] == PtzValues(qs[i - 1].reading, other))
  }

  lemma {:induction false} SlotStores(m: PresetMap, t: Tally, qs: seq<Query>, slot: nat, i: nat, other: U32 -> int)
    requires |qs| == MAX_SLOTS && 1 <= slot <= i <= MAX_SLOTS && !t.Over()
    requires Positioned(qs[i - 1]) && HwName(i) !in m
    ensures SlotStored(m, Sweep(m, t, false, qs, slot, other), qs, slot, i, other)
    decreases i - slot
  {
    hide PtzValues, Sweep, Visited, HwName, Wanted, SlotStored;
    SweepStep(m, t, false, qs, slot, other);
    var Step(n, u) := Visited(m, t, false, slot, qs[slot - 1], other);
    if qs[slot - 1] == Failure(NotConnected) || u.Over() {
      EndsAtSlot(m, t, qs, slot, i, other);
    } else {
      VisitStores(m, t, qs, slot, other);
      var s := Sweep(n, u, false, qs, slot + 1, other);
      if i == slot {
        SweepStores(n, u, qs, slot + 1, other);
        SweepGrows(n, u, false, qs, slot + 1, other);
        StoredHere(m, n, u, s, qs, slot, other);
      } else {
        if HwName(i) == HwName(slot) { HwNamesDiffer(i, slot); }
        SlotStores(n, u, qs, slot + 1, i, other);
        if n != m {
          WantedIgnores(m, qs, slot + 1, i, slot, PtzValues(qs[slot - 1].reading, other));
        }
        StoredLater(m, n, s, qs, slot, i, other);
      }
    }
  }

  /** The device is gone at this slot, or its visit ends the sweep. */
  lemma EndsAtSlot(m: PresetMap, t: Tally, qs: seq<Query>, slot: nat, i: nat, other: U32 -> int)
    requires |qs| == MAX_SLOTS && 1 <= slot <= i <= MAX_SLOTS && !t.Over()
    requires Positioned(qs[i - 1]) && HwName(i) !in m
    ensures var q, v := qs[slot - 1], Visited(m, t, false, slot, qs[slot - 1], other);
            && (q == Failure(NotConnected) ==> SlotStored(m, Swept(m, t, true, slot - 1), qs, slot, i, other))
            && (v.tally.Over() ==> SlotStored(m, Swept(v.presets, v.tally, false, slot), qs, slot, i, other))
  {
    hide PtzValues, HwName;
    assert Wanted(m, qs, slot + 1, slot) == 0;
  }

  lemma StoredHere(m: PresetMap, n: PresetMap, u: Tally, s: Swept, qs: seq<Query>, slot: nat, other: U32 -> int)
    requires |qs| == MAX_SLOTS && 1 <= slot <= MAX_SLOTS && Positioned(qs[slot - 1]) && HwName(slot) !in m
    requires n == m[HwName(slot) := PtzValues(qs[slot - 1].reading, other)] && |m| < MAX_PRESETS
    requires Stores(n, s, qs, slot + 1, other) && GrownBy(n, u, s, false, qs, other)
    ensures SlotStored(m, s, qs, slot, slot, other)
  {
    hide PtzValues, HwName, Landed, AllStored;
    assert HwName(slot) in n;
    assert Wanted(m, qs, slot + 1, slot) == 0;
  }

  lemma StoredLater(m: PresetMap, n: PresetMap, s: Swept, qs: seq<Query>, slot: nat, i: nat, other: U32 -> int)
    requires |qs| == MAX_SLOTS && 1 <= slot < i <= MAX_SLOTS && Positioned(qs[i - 1])
    requires SlotStored(n, s, qs, slot + 1, i, other)
    requires if Positioned(qs[slot - 1]) && HwName(slot) !in m then |n| == |m| + 1 else n == m
    requires Wanted(n, qs, slot + 1, i) == Wanted(m, qs, slot + 1, i)
    ensures SlotStored(m, s, qs, slot, i, other)
  {
    hide PtzValues, HwName;
  }

  lemma {:induction false} WantedGrows(m: PresetMap, qs: seq<Query>, slot: nat, last: nat, later: nat)
    requires last <= later <= |qs| == MAX_SLOTS && 1 <= slot <= last + 1
    ensures Wanted(m, qs, slot, last) <= Wanted(m, qs, slot, later)
    decreases last + 1 - slot
  {
    if slot <= last {
      WantedGrows(m, qs, slot + 1, last, later);
    }
  }

  /** If all before slot i fit, the sweep gets past it exactly if the answers up to it are unbroken. */
  lemma GetsTo(m: PresetMap, qs: seq<Query>, i: nat, other: U32 -> int)
    requires |qs| == MAX_SLOTS && 1 <= i <= MAX_SLOTS && Positioned(qs[i - 1])
    ensures var s := Sweep(m, BLANK, false, qs, 1, other);
            && (i <= s.attempts ==> Unbroken(qs, i))
            && (Unbroken(qs, i) && |m| + Wanted(m, qs, 1, i) <= MAX_PRESETS ==> i <= s.attempts)
  {
    var s := Sweep(m, BLANK, false, qs, 1, other);
    hide Sweep, HwName;
    SweepAttempts(m, BLANK, false, qs, 1, other);
    PullAccounts(m, false, qs, NoEdits(), other);
    SweepAlone(m, BLANK, false, qs, 1, other);
    SweepStores(m, BLANK, qs, 1, other);
    hide Accounted, AllStored, Wanted;
    if i <= s.attempts {
      forall j | 2 <= j < i ensures qs[j - 2].Answered? || qs[j - 1].Answered? || qs[j].Answered? {
        if j < i - 1 {
          TrailingIsRun(qs, j + 1, 3);
        }
      }
    } else if |m| + Wanted(m, qs, 1, i) <= MAX_PRESETS {
      WantedGrows(m, qs, 1, s.attempts, i);
    }
  }

  /**
    What a pull stores, read off the answers and the collection: an answered
    position whose hw name is free is stored, clamped, exactly if no earlier answer
    lost the device, no three answers before it in a row failed, and it fits into the
    collection together with the free positioned slots before it.
  */
  lemma PullStores(m: PresetMap, qs: seq<Query>, i: nat, other: U32 -> int)
    requires |qs| == MAX_SLOTS && 1 <= i <= MAX_SLOTS
    requires Positioned(qs[i - 1]) && HwName(i) !in m
    ensures var n := Sweep(m, BLANK, false, qs, 1, other).presets;
            && (HwName(i) in n <==> Unbroken(qs, i) && |m| + Wanted(m, qs, 1, i) <= MAX_PRESETS)
            && (HwName(i) in n ==> n[HwName(i)] == PtzValues(qs[i - 1].reading, other))
  {
    SlotStores(m, BLANK, qs, 1, i, other);
    GetsTo(m, qs, i, other);
    hide Sweep, PtzValues, HwName, Wanted, Unbroken;
  }

  // ---------------------------------------------------------------------
  // Pushing, then pulling
  // ---------------------------------------------------------------------

  function QueryOf(r: Result<Reading, V2Error>): Query {
    match r
    case Ok(reading) => Answered(reading)
    case Err(_) => Failure(BadAnswer)
  }

  function Asked(d: Device, slot: nat): Query
    requires 1 <= slot <= MAX_SLOTS
  {
    match Answer(d, Sent(PresetQuery(slot as Byte)))
    case Ok(a) => QueryOf(ParsePresetPos(PRESET_HEAD, a))
    case Err(_) => Failure(BadAnswer)
  }

  /** What a sweep of the device is answered. */
  function AllAsked(d: Device): (qs: seq<Query>)
    ensures |qs| == MAX_SLOTS
  {
    seq(MAX_SLOTS, i requires 0 <= i < MAX_SLOTS => Asked(d, i + 1))
  }

  lemma AlwaysAnswered(d: Device)
    ensures forall i | 0 <= i < MAX_SLOTS :: AllAsked(d)[i].Answered?
  {
    forall i | 0 <= i < MAX_SLOTS ensures AllAsked(d)[i].Answered? {
      SlotReadBack(d, (i + 1) as Byte, 27);
      assert Sent(PresetQuery((i + 1) as Byte)) == PresetQuery((i + 1) as Byte) + Zeros(27);
      hide Answer, ParsePresetPos, Sent;
    }
  }

  /**
    A preset pushed into its slot and pulled again, by a camera that answers with
    positions and where the hw name is free: an entry comes back exactly if it fits
    together with the free positioned slots before it, and that entry is the pushed
    one clamped, hence the same exactly when it was in range.
  */
  lemma PushThenPull(d: Device, m: PresetMap, name: string, f: int -> U32, speeds: Axes, links: nat -> Link,
          other: U32 -> int)
    requires IsConversion(f) && d.full && name in m && Slot(m, name) <= MAX_SLOTS && HwName(Slot(m, name)) !in m
    requires var p := m[name];
             -(EXACT as int) < p.pan < EXACT && -(EXACT as int) < p.tilt < EXACT && -(EXACT as int) < p.zoom < EXACT
    ensures var slot, p := Slot(m, name), m[name];
            var s := Pushed(d, Position(p, f), slot as Byte, speeds, links);
            var qs := AllAsked(s.device);
            s.ok ==>
              var pulled := Sweep(m, BLANK, false, qs, 1, other).presets;
              && (HwName(slot) in pulled <==> |m| + Wanted(m, qs, 1, slot) <= MAX_PRESETS)
              && (HwName(slot) in pulled ==>
                    pulled[HwName(slot)] == ClampPtz(p) && (pulled[HwName(slot)] == p <==> InRange(p)))
  {
    var slot, p := Slot(m, name), m[name];
    var s := Pushed(d, Position(p, f), slot as Byte, speeds, links);
    if s.ok {
      var qs := AllAsked(s.device);
      PushedComesBack(d, p, f, slot as Byte, speeds, links, other);
      AlwaysAnswered(s.device);
      assert qs[slot - 1] == Asked(s.device, slot);
      hide Answer, ParsePresetPos, Pushed, PtzValues, Sweep, HwName, Wanted, Sent, AllAsked, ClampPtz, InRange;
      PullStores(m, qs, slot, other);
      ClampKeepsInRange(p);
    }
  }

  // ---------------------------------------------------------------------
  // Dry run
  // ---------------------------------------------------------------------

  /**
    Under the same answers the real run pulls a prefix of what the dry run
    reports; the two reports are the same exactly when both or neither run out
    of room.
  */
  lemma DryRunTogether(m: PresetMap, qs: seq<Query>, other: U32 -> int)
    requires |qs| == MAX_SLOTS
    ensures var run, dry := Sweep(m, BLANK, false, qs, 1, other), Sweep(m, BLANK, true, qs, 1, other);
            && run.tally.pulled <= dry.tally.pulled
            && (run.tally.pulled == dry.tally.pulled <==> run.tally.limitHit == dry.tally.limitHit)
            && (run.tally.limitHit == dry.tally.limitHit ==>
                  run.tally.(changed := false) == dry.tally && run.attempts == dry.attempts && run.gone == dry.gone)
  {
    InStep(m, m, BLANK, BLANK, qs, 1, other);
    hide Sweep;
  }

  /** In a full collection a real run stores nothing, so it is its dry run. */
  lemma {:induction false} FullTogether(m: PresetMap, t: Tally, qs: seq<Query>, slot: nat, other: U32 -> int)
    requires |qs| == MAX_SLOTS && 1 <= slot <= MAX_SLOTS + 1 && |m| >= MAX_PRESETS
    ensures Sweep(m, t, false, qs, slot, other) == Sweep(m, t, true, qs, slot, other)
    decreases MAX_SLOTS + 1 - slot
  {
    hide Sweep;
    if slot > MAX_SLOTS {
      SweepEnd(m, t, false, qs, other);
      SweepEnd(m, t, true, qs, other);
    } else {
      SweepStep(m, t, false, qs, slot, other);
      SweepStep(m, t, true, qs, slot, other);
      if qs[slot - 1] != Failure(NotConnected) {
        FullVisit(m, t, slot, qs[slot - 1], other);
        var Step(n, u) := Visited(m, t, true, slot, qs[slot - 1], other);
        hide Visited;
        if !u.Over() {
          FullTogether(m, u, qs, slot + 1, other);
        }
      }
    }
  }

  lemma FullVisit(m: PresetMap, t: Tally, slot: nat, q: Query, other: U32 -> int)
    requires slot <= 9 && |m| >= MAX_PRESETS
    ensures Visited(m, t, false, slot, q, other) == Visited(m, t, true, slot, q, other)
    ensures Visited(m, t, true, slot, q, other).presets == m
  {
    hide PtzValues, HwName;
  }

  /** A real sweep that runs out of room does so at a free positioned slot. */
  lemma {:induction false} LimitSlot(m: PresetMap, t: Tally, qs: seq<Query>, slot: nat, other: U32 -> int)
    requires |qs| == MAX_SLOTS && 1 <= slot <= MAX_SLOTS + 1 && !t.Over()
    ensures var s := Sweep(m, t, false, qs, slot, other);
            s.tally.limitHit ==>
              slot <= s.attempts <= MAX_SLOTS && Positioned(qs[s.attempts - 1]) && HwName(s.attempts) !in m
    decreases MAX_SLOTS + 1 - slot
  {
    hide Sweep, HwName, PtzValues;
    if slot > MAX_SLOTS {
      SweepEnd(m, t, false, qs, other);
    } else {
      SweepStep(m, t, false, qs, slot, other);
      if qs[slot - 1] != Failure(NotConnected) {
        var Step(n, u) := Visited(m, t, false, slot, qs[slot - 1], other);
        if !u.Over() {
          VisitStores(m, t, qs, slot, other);
          hide Visited;
          LimitSlot(n, u, qs, slot + 1, other);
        }
      }
    }
  }

  /** With the free positioned slot it meets next, the collection would pass the limit. */
  predicate Overflows(m: PresetMap, qs: seq<Query>, i: nat)
    requires |qs| == MAX_SLOTS && 1 <= i <= MAX_SLOTS
  {
    Positioned(qs[i - 1]) && HwName(i) !in m && Unbroken(qs, i) && |m| + Wanted(m, qs, 1, i) > MAX_PRESETS
  }

  /** Starting below the limit, a real run meets it exactly if some slot it would get to overflows. */
  lemma LimitExactly(m: PresetMap, qs: seq<Query>, other: U32 -> int)
    requires |qs| == MAX_SLOTS
    ensures var s := Sweep(m, BLANK, false, qs, 1, other);
            s.tally.limitHit <==> exists i | 1 <= i <= MAX_SLOTS :: Overflows(m, qs, i)
  {
    hide Sweep, HwName, Overflows;
    var s := Sweep(m, BLANK, false, qs, 1, other);
    if s.tally.limitHit {
      LimitOverflows(m, qs, other);
    }
    forall i | 1 <= i <= MAX_SLOTS && Overflows(m, qs, i) ensures s.tally.limitHit {
      OverflowLimits(m, qs, i, other);
    }
  }

  lemma LimitOverflows(m: PresetMap, qs: seq<Query>, other: U32 -> int)
    requires |qs| == MAX_SLOTS
    ensures var s := Sweep(m, BLANK, false, qs, 1, other);
            s.tally.limitHit ==> 1 <= s.attempts <= MAX_SLOTS && Overflows(m, qs, s.attempts)
  {
    hide Sweep, SweepAmong, HwName, Wanted, Unbroken, AllStored;
    var s := Sweep(m, BLANK, false, qs, 1, other);
    SweepStores(m, BLANK, qs, 1, other);
    LimitSlot(m, BLANK, qs, 1, other);
    PullAccounts(m, false, qs, NoEdits(), other);
    SweepAlone(m, BLANK, false, qs, 1, other);
    if s.tally.limitHit {
      GetsTo(m, qs, s.attempts, other);
    }
  }

  lemma OverflowLimits(m: PresetMap, qs: seq<Query>, i: nat, other: U32 -> int)
    requires |qs| == MAX_SLOTS && 1 <= i <= MAX_SLOTS && Overflows(m, qs, i)
    ensures Sweep(m, BLANK, false, qs, 1, other).tally.limitHit
  {
    hide Sweep, HwName, Wanted, Unbroken, AllStored;
    PullStores(m, qs, i, other);
    if !Sweep(m, BLANK, false, qs, 1, other).tally.limitHit {
      NotBrokenOff(m, qs, i, other);
    }
  }

  /** A sweep that has room gets past every slot up to which the answers are unbroken. */
  lemma NotBrokenOff(m: PresetMap, qs: seq<Query>, i: nat, other: U32 -> int)
    requires |qs| == MAX_SLOTS && 1 <= i <= MAX_SLOTS && Positioned(qs[i - 1]) && HwName(i) !in m && Unbroken(qs, i)
    ensures var s := Sweep(m, BLANK, false, qs, 1, other);
            s.tally.limitHit || (i <= s.attempts && |m| + Wanted(m, qs, 1, i) <= MAX_PRESETS)
  {
    var s := Sweep(m, BLANK, false, qs, 1, other);
    PullAccounts(m, false, qs, NoEdits(), other);
    SweepAlone(m, BLANK, false, qs, 1, other);
    SweepStores(m, BLANK, qs, 1, other);
    hide Sweep, SweepAmong, HwName;
    if !s.tally.limitHit && i <= s.attempts {
      WantedGrows(m, qs, 1, i, s.attempts);
      WantsSlot(m, qs, 1, i);
    }
    hide Wanted;
  }

  lemma {:induction false} WantsSlot(m: PresetMap, qs: seq<Query>, slot: nat, i: nat)
    requires |qs| == MAX_SLOTS && 1 <= slot <= i <= MAX_SLOTS && Positioned(qs[i - 1]) && HwName(i) !in m
    ensures Wanted(m, qs, slot, i) > 0
    decreases i - slot
  {
    if slot < i {
      WantsSlot(m, qs, slot + 1, i);
    }
  }

  /** The collection is full to begin with, or no slot that a sweep would get to overflows it. */
  ghost predicate Predictable(m: PresetMap, qs: seq<Query>)
    requires |qs| == MAX_SLOTS
  {
    |m| >= MAX_PRESETS || !exists i | 1 <= i <= MAX_SLOTS :: Overflows(m, qs, i)
  }

  /** Then, and only then, real and dry run meet the limit together or not at all. */
  lemma PredictableLimits(m: PresetMap, qs: seq<Query>, other: U32 -> int)
    requires |qs| == MAX_SLOTS
    ensures var run, dry := Sweep(m, BLANK, false, qs, 1, other), Sweep(m, BLANK, true, qs, 1, other);
            && (Predictable(m, qs) <==> run.tally.limitHit == dry.tally.limitHit)
            && run.attempts <= MAX_SLOTS
            && (Predictable(m, qs) <==> |m| >= MAX_PRESETS || |m| + Wanted(m, qs, 1, run.attempts) <= MAX_PRESETS)
  {
    hide Sweep, HwName;
    SweepStores(m, BLANK, qs, 1, other);
    if |m| >= MAX_PRESETS {
      FullTogether(m, BLANK, qs, 1, other);
    } else {
      PulledGrows(m, BLANK, qs, 1, other);
      LimitExactly(m, qs, other);
    }
    hide Wanted, Overflows, AllStored;
  }

  lemma RoomForAll(m: PresetMap, qs: seq<Query>)
    requires |qs| == MAX_SLOTS && |m| + Wanted(m, qs, 1, MAX_SLOTS) <= MAX_PRESETS
    ensures Predictable(m, qs)
  {
    forall i | 1 <= i <= MAX_SLOTS ensures !Overflows(m, qs, i) {
      WantedGrows(m, qs, 1, i, MAX_SLOTS);
      hide Wanted, HwName, Unbroken;
    }
  }

  /**
    What a dry run is worth, read off the answers and the collection: the real run
    pulls a prefix of what it reports. The two lists are the same exactly if the
    collection is full to begin with or no slot that the sweep would get to
    overflows it, which is to say the free positioned slots attempted fit; so they
    are whenever all free positioned slots fit. Then the whole report is the same.
  */
  lemma DryRunPredicts(m: PresetMap, qs: seq<Query>, other: U32 -> int)
    requires |qs| == MAX_SLOTS
    ensures var run, dry := Sweep(m, BLANK, false, qs, 1, other), Sweep(m, BLANK, true, qs, 1, other);
            && run.tally.pulled <= dry.tally.pulled
            && (run.tally.pulled == dry.tally.pulled <==> Predictable(m, qs))
            && (Predictable(m, qs) ==> run.tally.(changed := false) == dry.tally
                                       && run.attempts == dry.attempts && run.gone == dry.gone)
            && run.attempts <= MAX_SLOTS
            && (Predictable(m, qs) <==> |m| >= MAX_PRESETS || |m| + Wanted(m, qs, 1, run.attempts) <= MAX_PRESETS)
    ensures |m| + Wanted(m, qs, 1, MAX_SLOTS) <= MAX_PRESETS ==> Predictable(m, qs)
  {
    DryRunTogether(m, qs, other);
    PredictableLimits(m, qs, other);
    if |m| + Wanted(m, qs, 1, MAX_SLOTS) <= MAX_PRESETS {
      RoomForAll(m, qs);
    }
    hide *;
  }

  /** The real collection `n` is the original one plus hw entries of slots already visited. */
  ghost predicate Ahead(m: PresetMap, n: PresetMap, slot: nat)
    requires slot <= MAX_SLOTS + 1
  {
    && |m| <= |n|
    && forall i | slot <= i <= MAX_SLOTS :: HwName(i) in n <==> HwName(i) in m
  }

  /** What the dry run says of the real one. */
  ghost predicate Predicts(run: Swept, dry: Swept) {
    && run.tally.pulled <= dry.tally.pulled
    && (run.tally.pulled == dry.tally.pulled <==> run.tally.limitHit == dry.tally.limitHit)
    && (run.tally.limitHit == dry.tally.limitHit ==>
          run.tally.(changed := false) == dry.tally && run.attempts == dry.attempts && run.gone == dry.gone)
  }

  lemma {:induction false} InStep(m: PresetMap, n: PresetMap, t: Tally, u: Tally, qs: seq<Query>, slot: nat,
          other: U32 -> int)
    requires |qs| == MAX_SLOTS && 1 <= slot <= MAX_SLOTS + 1
    requires Ahead(m, n, slot) && t.(changed := false) == u && !t.Over()
    ensures Predicts(Sweep(n, t, false, qs, slot, other), Sweep(m, u, true, qs, slot, other))
    decreases MAX_SLOTS + 1 - slot
  {
    hide Visited, Sweep;
    if slot > MAX_SLOTS {
      SweepEnd(n, t, false, qs, other);
      SweepEnd(m, u, true, qs, other);
    } else {
      SweepStep(n, t, false, qs, slot, other);
      SweepStep(m, u, true, qs, slot, other);
      if qs[slot - 1] != Failure(NotConnected) {
        VisitBoth(m, n, t, u, qs, slot, other);
        var Step(n1, t1) := Visited(n, t, false, slot, qs[slot - 1], other);
        var Step(m1, u1) := Visited(m, u, true, slot, qs[slot - 1], other);
        hide Ahead;
        if t1.limitHit && !u1.limitHit {
          PulledGrows(m1, u1, qs, slot + 1, other);
        } else if !t1.Over() {
          InStep(m1, n1, t1, u1, qs, slot + 1, other);
        }
      }
    }
  }

  /** One slot: the two sweeps stay together, or only the real one runs out of room. */
  ghost predicate Together(m: PresetMap, n: PresetMap, pulled: seq<string>, slot: nat, run: Step, dry: Step)
    requires slot <= MAX_SLOTS
  {
    && dry.presets == m && !(run.tally.limitHit && run.tally.aborted)
    && (dry.tally.limitHit ==> run.tally.limitHit)
    && (run.tally.limitHit && !dry.tally.limitHit ==>
          && |m| < MAX_PRESETS && !dry.tally.Over() && run.tally.pulled == pulled
          && dry.tally.pulled == pulled + [HwName(slot)])
    && (run.tally.limitHit == dry.tally.limitHit ==> run.tally.(changed := false) == dry.tally)
    && (run.presets.Keys == n.Keys || run.presets.Keys == n.Keys + {HwName(slot)})
  }

  lemma VisitTogether(m: PresetMap, n: PresetMap, t: Tally, u: Tally, qs: seq<Query>, slot: nat, other: U32 -> int)
    requires |qs| == MAX_SLOTS && 1 <= slot <= MAX_SLOTS
    requires |m| <= |n| && (HwName(slot) in n <==> HwName(slot) in m) && t.(changed := false) == u && !t.Over()
    ensures Together(m, n, t.pulled, slot, Visited(n, t, false, slot, qs[slot - 1], other),
                     Visited(m, u, true, slot, qs[slot - 1], other))
  {
    hide PtzValues, HwName;
    if qs[slot - 1].Answered? {
      var r := qs[slot - 1].reading;
      if r.Occupied() && r.hasPos {
        AdmitTogether(m, n, t.(consecutive := 0), u.(consecutive := 0), slot, PtzValues(r, other));
        hide Admitted, Together;
      }
    }
  }

  lemma AdmitTogether(m: PresetMap, n: PresetMap, t: Tally, u: Tally, slot: nat, v: Ptz)
    requires slot <= MAX_SLOTS && |m| <= |n| && (HwName(slot) in n <==> HwName(slot) in m)
    requires t.(changed := false) == u && !t.Over()
    ensures Together(m, n, t.pulled, slot, Admitted(n, t, false, slot, v), Admitted(m, u, true, slot, v))
  {
    hide HwName;
    assert n[HwName(slot) := v].Keys == n.Keys + {HwName(slot)};
  }

  lemma VisitBoth(m: PresetMap, n: PresetMap, t: Tally, u: Tally, qs: seq<Query>, slot: nat, other: U32 -> int)
    requires |qs| == MAX_SLOTS && 1 <= slot <= MAX_SLOTS
    requires Ahead(m, n, slot) && t.(changed := false) == u && !t.Over()
    ensures var run := Visited(n, t, false, slot, qs[slot - 1], other);
            Together(m, n, t.pulled, slot, run, Visited(m, u, true, slot, qs[slot - 1], other))
            && Ahead(m, run.presets, slot + 1)
  {
    hide Visited;
    assert HwName(slot) in n <==> HwName(slot) in m;
    VisitTogether(m, n, t, u, qs, slot, other);
    AheadAfter(m, n, Visited(n, t, false, slot, qs[slot - 1], other).presets, slot);
  }

  lemma AheadAfter(m: PresetMap, n: PresetMap, n1: PresetMap, slot: nat)
    requires 1 <= slot <= MAX_SLOTS && Ahead(m, n, slot)
    ensures n1.Keys == n.Keys || n1.Keys == n.Keys + {HwName(slot)} ==> Ahead(m, n1, slot + 1)
  {
    if n1.Keys == n.Keys || n1.Keys == n.Keys + {HwName(slot)} {
      assert n.Keys <= n1.Keys && |n| == |n.Keys| && |n1| == |n1.Keys|;
      SubsetSize(n.Keys, n1.Keys);
      forall i | slot + 1 <= i <= MAX_SLOTS ensures HwName(i) in n1 <==> HwName(i) in m {
        if HwName(i) == HwName(slot) { HwNamesDiffer(i, slot); }
      }
    }
  }

  lemma SubsetSize(a: set<string>, b: set<string>)
    requires a <= b
    ensures |a| <= |b|
  {
    assert b == a + (b - a);
  }

  /** The pulled list of a dry run only grows, and with room at the start it never runs out. */
  lemma {:induction false} PulledGrows(m: PresetMap, t: Tally, qs: seq<Query>, slot: nat, other: U32 -> int)
    requires |qs| == MAX_SLOTS && 1 <= slot <= MAX_SLOTS + 1
    requires |m| < MAX_PRESETS && !t.Over()
    ensures t.pulled <= Sweep(m, t, true, qs, slot, other).tally.pulled
    ensures !Sweep(m, t, true, qs, slot, other).tally.limitHit
    decreases MAX_SLOTS + 1 - slot
  {
    hide Sweep;
    if slot > MAX_SLOTS {
      SweepEnd(m, t, true, qs, other);
    } else {
      SweepStep(m, t, true, qs, slot, other);
      if qs[slot - 1] != Failure(NotConnected) {
        VisitDry(m, t, qs, slot, other);
        hide Visited;
        var Step(n, u) := Visited(m, t, true, slot, qs[slot - 1], other);
        if !u.Over() {
          PulledGrows(n, u, qs, slot + 1, other);
        }
      }
    }
  }

  lemma VisitDry(m: PresetMap, t: Tally, qs: seq<Query>, slot: nat, other: U32 -> int)
    requires |qs| == MAX_SLOTS && 1 <= slot <= MAX_SLOTS && |m| < MAX_PRESETS && !t.Over()
    ensures var Step(n, u) := Visited(m, t, true, slot, qs[slot - 1], other);
            n == m && t.pulled <= u.pulled && !u.limitHit
  {
    hide PtzValues, HwName;
  }
}
