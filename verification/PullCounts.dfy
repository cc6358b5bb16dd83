/** What a sweep's counters are, read off the answers and the collection it finds. */
module PullCounts {
  import opened Base
  import opened PixyWire
  import opened PixyDevice
  import opened Presets
  import opened PresetPull

  /** One sweep: the collection it starts with, the eight answers, and what other commands do meanwhile. */
  datatype Pulling = Pulling(m: PresetMap, dry: bool, qs: seq<Query>, edits: Edits, other: U32 -> int) {
    predicate Ok() {
      |qs| == 8
    }
  }

  /** The name a slot is pulled under. */
  function NameOf(slot: nat): string
    requires 1 <= slot <= 8
  {
    ["hw-1", "hw-2", "hw-3", "hw-4", "hw-5", "hw-6", "hw-7", "hw-8"][slot - 1]
  }

  /** The answer of a slot shows it set, with a position. */
  predicate HasPlace(q: Query) {
    q.Answered? && q.reading.mode == 1 && q.reading.hasPos
  }

  /** The collection once the first n slots were tried, as long as there was room. */
  function Held(c: Pulling, n: nat): PresetMap
    requires c.Ok() && n <= 8
  {
    if n == 0 then c.m
    else
      var found := c.edits(n, Held(c, n - 1));
      if !c.dry && HasPlace(c.qs[n - 1]) && NameOf(n) !in found
      then found[NameOf(n) := PtzValues(c.qs[n - 1].reading, c.other)]
      else found
  }

  /** The collection that slot n is compared with. */
  function Found(c: Pulling, n: nat): PresetMap
    requires c.Ok() && 1 <= n <= 8
  {
    c.edits(n, Held(c, n - 1))
  }

  /** Slot n has a position to pull and its name is new. */
  predicate IsNew(c: Pulling, n: nat)
    requires c.Ok() && 1 <= n <= 8
  {
    HasPlace(c.qs[n - 1]) && NameOf(n) !in Found(c, n)
  }

  predicate IsFullAt(c: Pulling, n: nat)
    requires c.Ok() && 1 <= n <= 8
  {
    IsNew(c, n) && |Found(c, n)| >= 16
  }

  /** The slots up to n that are set without a position. */
  function Unexposed(c: Pulling, n: nat): nat
    requires c.Ok() && n <= 8
  {
    if n == 0 then 0
    else
      var q := c.qs[n - 1];
      Unexposed(c, n - 1) + if q.Answered? && q.reading.mode == 1 && !q.reading.hasPos then 1 else 0
  }

  /** The slots up to n that are not set. */
  function Empties(c: Pulling, n: nat): nat
    requires c.Ok() && n <= 8
  {
    if n == 0 then 0
    else Empties(c, n - 1) + if c.qs[n - 1].Answered? && c.qs[n - 1].reading.mode != 1 then 1 else 0
  }

  /** The slots up to n whose name was there already. */
  function Skips(c: Pulling, n: nat): nat
    requires c.Ok() && n <= 8
  {
    if n == 0 then 0 else Skips(c, n - 1) + if HasPlace(c.qs[n - 1]) && NameOf(n) in Found(c, n) then 1 else 0
  }

  /** The new names up to slot n, in order. */
  function News(c: Pulling, n: nat): seq<string>
    requires c.Ok() && n <= 8
  {
    if n == 0 then [] else News(c, n - 1) + if IsNew(c, n) then [NameOf(n)] else []
  }

  /** The first failure among the first n answers. */
  function FirstError(qs: seq<Query>, n: nat): Option<QueryError>
    requires n <= |qs|
  {
    if n == 0 then None
    else if FirstError(qs, n - 1).Some? then FirstError(qs, n - 1)
    else if qs[n - 1].Failure? then Some(qs[n - 1].error) else None
  }

  /** The counters after n slots, the collection never having been full. */
  function Counted(c: Pulling, n: nat): Tally
    requires c.Ok() && n <= 8
  {
    Tally(News(c, n), Empties(c, n), Skips(c, n), Unexposed(c, n), Failures(c.qs, n), false, Trailing(c.qs, n) >= 3,
          FirstError(c.qs, n), Trailing(c.qs, n), !c.dry && News(c, n) != [])
  }

  /** The sweep ends at slot n: the collection is full there, or the third failure in a row. */
  predicate EndsAt(c: Pulling, n: nat)
    requires c.Ok() && 1 <= n <= 8
  {
    IsFullAt(c, n) || Trailing(c.qs, n) >= 3
  }

  lemma NamesAgree(n: nat)
    requires 1 <= n <= 8
    ensures HwName(n) == NameOf(n)
  {
    assert NameOf(n)[..3] == "hw-" && |NameOf(n)| == 4;
    assert NameOf(n)[3] == ('0' as int + n) as char;
  }

  /** One slot more, from the counters after the slots before it. */
  lemma VisitCounts(c: Pulling, n: nat)
    requires c.Ok() && 1 <= n <= 8 && Trailing(c.qs, n - 1) < 3
    ensures Visited(Found(c, n), Counted(c, n - 1), c.dry, n, c.qs[n - 1], c.other)
            == if IsFullAt(c, n) then Step(Found(c, n), Counted(c, n - 1).(consecutive := 0, limitHit := true))
               else Step(Held(c, n), Counted(c, n))
  {
    NamesAgree(n);
    hide HwName, NameOf, PtzValues;
  }

  /** Where a sweep that is about to try a slot ends, and with what. */
  ghost predicate EndsSo(c: Pulling, slot: nat, s: Swept)
    requires c.Ok() && 1 <= slot <= 9
  {
    var n := s.attempts;
    && slot - 1 <= n <= 8
    && (forall i | slot - 1 <= i < n :: c.qs[i] != Failure(NotConnected))
    && (forall i | slot <= i < n :: !EndsAt(c, i))
    && if s.gone then
         && n < 8 && c.qs[n] == Failure(NotConnected) && (slot <= n ==> !EndsAt(c, n))
         && s.presets == Found(c, n + 1) && s.tally == Counted(c, n)
       else if slot <= n && IsFullAt(c, n) then
         s.presets == Found(c, n) && s.tally == Counted(c, n - 1).(consecutive := 0, limitHit := true)
       else
         && (n == 8 || (slot <= n && Trailing(c.qs, n) >= 3))
         && s.presets == Held(c, n) && s.tally == Counted(c, n)
  }

  lemma {:induction false} SweepCounts(c: Pulling, slot: nat)
    requires c.Ok() && 1 <= slot <= 9 && Trailing(c.qs, slot - 1) < 3
    ensures EndsSo(c, slot, SweepAmong(Held(c, slot - 1), Counted(c, slot - 1), c.dry, c.qs, slot, c.edits, c.other))
    decreases 9 - slot
  {
    hide SweepAmong, Visited, Held, IsFullAt, Trailing, News, Empties, Skips, Unexposed, Failures, FirstError;
    if slot > 8 {
      AmongEnd(Held(c, 8), Counted(c, 8), c.dry, c.qs, c.edits, c.other);
    } else {
      AmongStep(Held(c, slot - 1), Counted(c, slot - 1), c.dry, c.qs, slot, c.edits, c.other);
      if c.qs[slot - 1] != Failure(NotConnected) {
        VisitCounts(c, slot);
        if !EndsAt(c, slot) {
          SweepCounts(c, slot + 1);
        }
      }
    }
  }

  lemma Blank(c: Pulling)
    requires c.Ok()
    ensures Held(c, 0) == c.m && Counted(c, 0) == BLANK && Trailing(c.qs, 0) == 0
  {
  }

  /** A slot without room adds to no counter. */
  lemma NoneAt(c: Pulling, n: nat)
    requires c.Ok() && 1 <= n <= 8 && IsFullAt(c, n)
    ensures Empties(c, n) == Empties(c, n - 1) && Unexposed(c, n) == Unexposed(c, n - 1)
    ensures Skips(c, n) == Skips(c, n - 1) && Failures(c.qs, n) == Failures(c.qs, n - 1)
    ensures FirstError(c.qs, n) == FirstError(c.qs, n - 1) && Trailing(c.qs, n) == 0
  {
  }

  /** The whole sweep. */
  function Run(c: Pulling): Swept
    requires c.Ok()
  {
    SweepAmong(c.m, BLANK, c.dry, c.qs, 1, c.edits, c.other)
  }

  lemma RunCounts(c: Pulling)
    requires c.Ok()
    ensures EndsSo(c, 1, Run(c))
  {
    hide SweepAmong, EndsSo;
    Blank(c);
    SweepCounts(c, 1);
  }

  /**
    Where a sweep ends, whatever other commands do to the collection meanwhile: at
    the first slot that finds no room for a new name or makes three failures in a
    row, before the first that finds the device gone, or after all eight.
  */
  lemma PullEnds(c: Pulling)
    requires c.Ok()
    ensures Run(c).attempts <= 8
    ensures var n := Run(c).attempts;
            && (forall i | 1 <= i < n :: !EndsAt(c, i))
            && (forall i | 0 <= i < n :: c.qs[i] != Failure(NotConnected))
            && (Run(c).gone <==> n < 8 && c.qs[n] == Failure(NotConnected) && (n == 0 || !EndsAt(c, n)))
            && (n == 8 || Run(c).gone || (n > 0 && EndsAt(c, n)))
  {
    hide Run, EndsAt, IsFullAt, Counted, Trailing, Held;
    RunCounts(c);
    var n := Run(c).attempts;
    if 1 <= n {
      assert EndsAt(c, n) <==> IsFullAt(c, n) || Trailing(c.qs, n) >= 3 by { EndsMeans(c, n); }
    }
  }

  lemma EndsMeans(c: Pulling, n: nat)
    requires c.Ok() && 1 <= n <= 8
    ensures EndsAt(c, n) <==> IsFullAt(c, n) || Trailing(c.qs, n) >= 3
  {
  }

  /**
    The counters of a whole sweep, real or dry. `empty` counts the tried slots that
    are not set, `occupied` those set without a position, `skipped` those whose name
    was there already, `failures` the failed answers; the pulled names are the new
    ones, in order. A real sweep leaves the collection with the new names added as
    it found them; a dry one adds none.
  */
  lemma PullCounters(c: Pulling)
    requires c.Ok()
    ensures Run(c).attempts <= 8 && (Run(c).tally.limitHit ==> Run(c).attempts > 0)
    ensures var n, t := Run(c).attempts, Run(c).tally;
            && t.empty == Empties(c, n) && t.occupied == Unexposed(c, n) && t.skipped == Skips(c, n)
            && t.failures == Failures(c.qs, n) && t.firstErr == FirstError(c.qs, n)
            && (t.limitHit <==> n > 0 && !Run(c).gone && IsFullAt(c, n))
            && (t.aborted <==> Trailing(c.qs, n) >= 3)
            && t.pulled == News(c, if t.limitHit then n - 1 else n)
            && (t.changed <==> !c.dry && t.pulled != [])
    ensures Run(c).presets == if Run(c).tally.limitHit then Found(c, Run(c).attempts)
                              else if Run(c).gone && Run(c).attempts < 8 then Found(c, Run(c).attempts + 1)
                              else Held(c, Run(c).attempts)
  {
    hide Run, EndsAt, IsFullAt, Trailing, Empties, Skips, Unexposed, Failures, FirstError, Held, News;
    RunCounts(c);
    var n := Run(c).attempts;
    if Run(c).tally.limitHit {
      NoneAt(c, n);
      assert n > 1 ==> !EndsAt(c, n - 1);
      Blank(c);
      if n > 1 {
        EndsMeans(c, n - 1);
      }
    }
  }
}
