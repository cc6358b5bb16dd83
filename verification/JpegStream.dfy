/**
  The JPEG frame extractor of the MJPEG stream (stream.go): a byte reader with
  one-byte unread, a buffer shared by successive calls, a restart when the
  buffer overflows and a bound on the iterations of one call.

  `Run` is the meaning of one call as iterated `Step`s. The lemmas say what it
  returns on every input (`FrameIsSlice`, `FrameStart`) and that it recovers
  exactly the frames of a well-formed stream (`FrameRecovered`, `StreamRecovered`).
*/
module JpegStream {
  import opened Base

  const MARKER: Byte := 0xFF
  const SOI: Byte := 0xD8
  const EOI: Byte := 0xD9
  const MAX_BUFFER: nat := 10 * 1024 * 1024
  const MAX_ITERATIONS: nat := 10 * 1024 * 1024

  datatype Outcome = Frame(frame: seq<Byte>) | InputEnded | IterationsExhausted

  datatype State = State(pos: nat, buf: seq<Byte>, found: bool)

  datatype Progress = More(st: State) | Stop(outcome: Outcome, pos: nat, buf: seq<Byte>)

  function AfterOverflow(st: State): State {
    if |st.buf| > MAX_BUFFER then State(st.pos, [], false) else st
  }

  /** Looking for the start marker; a lone marker byte followed by another is unread. */
  function ScanStep(input: seq<Byte>, st: State): Progress {
    if st.pos >= |input| then Stop(InputEnded, st.pos, st.buf)
    else if input[st.pos] != MARKER then More(st.(pos := st.pos + 1))
    else if st.pos + 1 >= |input| then Stop(InputEnded, st.pos + 1, st.buf)
    else if input[st.pos + 1] == SOI then More(State(st.pos + 2, [MARKER, SOI], true))
    else More(st.(pos := if input[st.pos + 1] == MARKER then st.pos + 1 else st.pos + 2))
  }

  /** Inside a frame: one byte, or a marker with the byte that follows it. */
  function FrameStep(input: seq<Byte>, st: State): Progress {
    if st.pos >= |input| then Stop(InputEnded, st.pos, st.buf)
    else if input[st.pos] != MARKER then More(st.(pos := st.pos + 1, buf := st.buf + [input[st.pos]]))
    else if st.pos + 1 >= |input| then Stop(InputEnded, st.pos + 1, st.buf + [MARKER])
    else
      var buf := st.buf + [MARKER] + [input[st.pos + 1]];
      if input[st.pos + 1] == EOI then Stop(Frame(buf), st.pos + 2, buf)
      else More(st.(pos := st.pos + 2, buf := buf))
  }

  function Step(input: seq<Byte>, st: State): Progress {
    var s := AfterOverflow(st);
    if s.found then FrameStep(input, s) else ScanStep(input, s)
  }

  function Run(input: seq<Byte>, st: State, fuel: nat): (r: Progress)
    ensures r.Stop?
    decreases fuel
  {
    if fuel == 0 then Stop(IterationsExhausted, st.pos, st.buf)
    else match Step(input, st)
      case More(next) => Run(input, next, fuel - 1)
      case Stop(o, p, b) => Stop(o, p, b)
  }

  /** One call of the extractor, from a reader position and whatever the buffer holds. */
  function Extract(input: seq<Byte>, pos: nat, buf: seq<Byte>): (r: Progress)
    ensures r.Stop?
  {
    Run(input, State(pos, buf, false), MAX_ITERATIONS)
  }

  // ---------------------------------------------------------------------
  // The reader and the extractor
  // ---------------------------------------------------------------------

  class FrameReader {
    const input: seq<Byte>
    var pos: nat
    var buf: seq<Byte>

    constructor (input: seq<Byte>)
      ensures this.input == input && pos == 0 && buf == []
    {
      this.input, pos, buf := input, 0, [];
    }

    method ReadByte() returns (b: Option<Byte>)
      modifies this`pos
      ensures b == if old(pos) < |input| then Some(input[old(pos)]) else None
      ensures pos == if old(pos) < |input| then old(pos) + 1 else old(pos)
    {
      if pos < |input| {
        b := Some(input[pos]);
        pos := pos + 1;
      } else {
        b := None;
      }
    }

    method UnreadByte()
      requires pos > 0
      modifies this`pos
      ensures pos == old(pos) - 1
    {
      pos := pos - 1;
    }

    /** `ok` is false when the input ended; otherwise `found` says the start marker was consumed. */
    method ScanForSOI() returns (ok: bool, found: bool)
      modifies this
      ensures ScanStep(input, State(old(pos), old(buf), false))
              == if ok then More(State(pos, buf, found)) else Stop(InputEnded, pos, buf)
    {
      var b := ReadByte();
      if b.None? {
        return false, false;
      }
      if b.value != MARKER {
        return true, false;
      }
      var next := ReadByte();
      if next.None? {
        return false, false;
      }
      match next.value {
        case 0xD8 =>
          buf := [];
          buf := buf + [MARKER, SOI];
          return true, true;
        case 0xFF =>
          UnreadByte();
        case _ =>
      }
      return true, false;
    }

    /** One iteration after the start marker: `Some` result ends the call. */
    method TakeToken() returns (done: Option<Outcome>)
      modifies this
      ensures FrameStep(input, State(old(pos), old(buf), true))
              == match done case None => More(State(pos, buf, true)) case Some(o) => Stop(o, pos, buf)
    {
      var b := ReadByte();
      if b.None? {
        return Some(InputEnded);
      }
      buf := buf + [b.value];
      if b.value == MARKER {
        var next := ReadByte();
        if next.None? {
          return Some(InputEnded);
        }
        buf := buf + [next.value];
        if next.value == EOI {
          return Some(Frame(buf));
        }
      }
      return None;
    }

    method ExtractFrame() returns (outcome: Outcome)
      modifies this
      ensures Extract(input, old(pos), old(buf)) == Stop(outcome, pos, buf)
    {
      var soiFound := false;
      hide ScanStep, FrameStep;
      for k := 0 to MAX_ITERATIONS
        invariant Extract(input, old(pos), old(buf))
                  == Run(input, State(pos, buf, soiFound), MAX_ITERATIONS - k)
      {
        if |buf| > MAX_BUFFER {
          buf := [];
          soiFound := false;
        }
        if !soiFound {
          var ok, found := ScanForSOI();
          if !ok {
            return InputEnded;
          }
          soiFound := found;
          continue;
        }
        var done := TakeToken();
        if done.Some? {
          return done.value;
        }
      }
      return IterationsExhausted;
    }

    /**
      The serving loop: frames until the first call that returns none, a cancelled
      client or a failed write. `cancelled` and `writes` say it of the k-th round;
      `last` is the frame kept for snapshots.
    */
    method WriteFrames(cancelled: nat -> bool, writes: nat -> bool, last0: Option<seq<Byte>>)
      returns (frames: seq<seq<Byte>>, last: Option<seq<Byte>>)
      modifies this
      ensures var all := AllFrames(input, old(pos), old(buf));
              && frames <= all
              && (forall k | 0 <= k < |frames| :: !cancelled(k) && writes(k))
              && (|frames| < |all| ==> cancelled(|frames|) || !writes(|frames|))
              && last == if |frames| < |all| && !cancelled(|frames|) then Some(all[|frames|])
                         else if frames == [] then last0 else Some(frames[|frames| - 1])
    {
      hide *;
      frames, last := [], last0;
      ghost var all := AllFrames(input, pos, buf);
      while true
        invariant frames <= all && all[|frames|..] == AllFrames(input, pos, buf)
        invariant forall k | 0 <= k < |frames| :: !cancelled(k) && writes(k)
        invariant last == if frames == [] then last0 else Some(frames[|frames| - 1])
        decreases |input| - pos
      {
        if cancelled(|frames|) {
          return;
        }
        AllFramesStep(input, pos, buf);
        var outcome := ExtractFrame();
        if !outcome.Frame? {
          return;
        }
        last := Some(outcome.frame);
        if !writes(|frames|) {
          return;
        }
        frames := frames + [outcome.frame];
      }
    }
  }

  // ---------------------------------------------------------------------
  // Every input
  // ---------------------------------------------------------------------

  predicate IsFrame(f: seq<Byte>) {
    && 4 <= |f| <= 10485762
    && f[0] == 0xFF && f[1] == 0xD8
    && f[|f| - 2] == 0xFF && f[|f| - 1] == 0xD9
  }

  /** What is collected is the input just read, from a start marker at or after `from`. */
  predicate Collected(input: seq<Byte>, st: State, from: nat) {
    && from <= st.pos
    && (st.found ==>
          && from + 2 <= from + |st.buf| <= st.pos <= |input|
          && st.buf == input[st.pos - |st.buf|..st.pos]
          && st.buf[0] == MARKER && st.buf[1] == SOI)
  }

  lemma SliceGrows(input: seq<Byte>, a: nat, p: nat)
    requires a <= p < |input|
    ensures input[a..p] + [input[p]] == input[a..p + 1]
  {
  }

  lemma FrameStepCollects(input: seq<Byte>, s: State, from: nat)
    requires Collected(input, s, from) && s.found && |s.buf| <= MAX_BUFFER
    ensures match FrameStep(input, s)
            case More(next) => Collected(input, next, from)
            case Stop(o, p, b) =>
              o.Frame? ==> && b == o.frame && IsFrame(b) && from + |b| <= p <= |input|
                           && b == input[p - |b|..p]
  {
    var a := s.pos - |s.buf|;
    if s.pos < |input| {
      SliceGrows(input, a, s.pos);
      if s.pos + 1 < |input| {
        SliceGrows(input, a, s.pos + 1);
      }
    }
  }

  lemma StepCollects(input: seq<Byte>, st: State, from: nat)
    requires Collected(input, st, from)
    ensures match Step(input, st)
            case More(next) => Collected(input, next, from)
            case Stop(o, p, b) =>
              o.Frame? ==> && b == o.frame && IsFrame(b) && from + |b| <= p <= |input|
                           && b == input[p - |b|..p]
  {
    var s := AfterOverflow(st);
    if s.found {
      FrameStepCollects(input, s, from);
      hide FrameStep, IsFrame;
    } else {
      hide FrameStep, IsFrame;
    }
  }

  lemma {:induction false} RunIsSlice(input: seq<Byte>, st: State, fuel: nat, from: nat)
    requires Collected(input, st, from)
    ensures var r := Run(input, st, fuel);
            r.outcome.Frame? ==>
              && r.buf == r.outcome.frame && IsFrame(r.buf) && from + |r.buf| <= r.pos <= |input|
              && r.buf == input[r.pos - |r.buf|..r.pos]
    decreases fuel
  {
    if fuel > 0 {
      StepCollects(input, st, from);
      if Step(input, st).More? {
        RunIsSlice(input, Step(input, st).st, fuel - 1, from);
      }
    }
  }

  /** Any returned frame is a contiguous slice of the unread input, well delimited and bounded. */
  lemma FrameIsSlice(input: seq<Byte>, pos: nat, buf: seq<Byte>)
    ensures var r := Extract(input, pos, buf);
            r.outcome.Frame? ==>
              && r.buf == r.outcome.frame && IsFrame(r.buf) && pos + |r.buf| <= r.pos <= |input|
              && r.buf == input[r.pos - |r.buf|..r.pos]
  {
    RunIsSlice(input, State(pos, buf, false), MAX_ITERATIONS, pos);
  }

  /** Every iteration that goes on has consumed at least one byte. */
  lemma StepConsumes(input: seq<Byte>, st: State)
    ensures Step(input, st).More? ==> st.pos < Step(input, st).st.pos <= |input|
  {
  }

  lemma {:induction false} RunEndsAtEnd(input: seq<Byte>, st: State, fuel: nat)
    requires st.pos <= |input|
    ensures Run(input, st, fuel).outcome == InputEnded ==> Run(input, st, fuel).pos == |input|
    decreases fuel
  {
    if fuel > 0 && Step(input, st).More? {
      StepConsumes(input, st);
      hide Step;
      RunEndsAtEnd(input, Step(input, st).st, fuel - 1);
    }
  }

  /** A call that finds the input ended has read all of it. */
  lemma EndsAtEnd(input: seq<Byte>, pos: nat, buf: seq<Byte>)
    requires pos <= |input|
    ensures Extract(input, pos, buf).outcome == InputEnded ==> Extract(input, pos, buf).pos == |input|
  {
    RunEndsAtEnd(input, State(pos, buf, false), MAX_ITERATIONS);
  }

  /** A start marker at k. */
  predicate SoiAt(input: seq<Byte>, k: nat) {
    k + 1 < |input| && input[k] == 0xFF && input[k + 1] == 0xD8
  }

  /** `q` is the leftmost start marker at or after `pos`. */
  predicate LeftmostSoi(input: seq<Byte>, pos: nat, q: nat) {
    pos <= q && SoiAt(input, q) && forall k :: pos <= k < q ==> !SoiAt(input, k)
  }

  /** Still before `q`, collecting from `q`, or past an overflow that began at `q`. */
  predicate Around(st: State, q: nat) {
    || (!st.found && st.pos <= q)
    || (st.found && st.pos == q + |st.buf|)
    || (q + MAX_BUFFER < st.pos && (st.found ==> q + MAX_BUFFER + |st.buf| < st.pos))
  }

  lemma {:induction false} RunStart(input: seq<Byte>, st: State, fuel: nat, q: nat)
    requires SoiAt(input, q) && (st.pos < q && !st.found ==> LeftmostSoi(input, st.pos, q))
    requires Around(st, q)
    ensures var r := Run(input, st, fuel);
            r.outcome.Frame? ==> r.pos == q + |r.buf| || q + MAX_BUFFER + |r.buf| < r.pos
    decreases fuel
  {
    if fuel > 0 {
      match Step(input, st)
      case More(next) =>
        if !st.found && st.pos < q {
          assert !SoiAt(input, st.pos);
        }
        RunStart(input, next, fuel - 1, q);
      case Stop(_, _, _) =>
    }
  }

  /**
    A returned frame starts at the leftmost start marker still unread, unless
    collecting from that marker overflowed the buffer: then it starts more than
    the buffer size after it.
  */
  lemma FrameStart(input: seq<Byte>, pos: nat, buf: seq<Byte>, q: nat)
    requires LeftmostSoi(input, pos, q)
    ensures var r := Extract(input, pos, buf);
            r.outcome.Frame? ==> r.pos - |r.buf| == q || r.pos - |r.buf| > q + 10485760
  {
    RunStart(input, State(pos, buf, false), MAX_ITERATIONS, q);
  }

  // ---------------------------------------------------------------------
  // Well-formed streams
  // ---------------------------------------------------------------------

  /** Body tokens: a byte other than FF, or FF with any byte but D9. */
  predicate IsBody(b: seq<Byte>) {
    || b == []
    || (b[0] != 0xFF && IsBody(b[1..]))
    || (b[0] == 0xFF && |b| >= 2 && b[1] != 0xD9 && IsBody(b[2..]))
  }

  function BodySteps(b: seq<Byte>): nat {
    if b == [] then 0
    else if b[0] != 0xFF || |b| == 1 then 1 + BodySteps(b[1..])
    else 1 + BodySteps(b[2..])
  }

  predicate NoSoi(g: seq<Byte>) { forall k :: 0 <= k < |g| ==> !SoiAt(g, k) }

  /** Iterations spent on a gap that is followed by a marker byte. */
  function GapSteps(g: seq<Byte>): nat {
    if g == [] then 0
    else if g[0] != 0xFF || |g| == 1 || g[1] == 0xFF then 1 + GapSteps(g[1..])
    else 1 + GapSteps(g[2..])
  }

  function FrameOf(body: seq<Byte>): seq<Byte> { [0xFF, 0xD8] + body + [0xFF, 0xD9] }

  /** `part` stands in the input at `pos`. */
  predicate At(input: seq<Byte>, pos: nat, part: seq<Byte>) {
    pos + |part| <= |input| && input[pos..pos + |part|] == part
  }

  lemma AtSplit(input: seq<Byte>, pos: nat, x: seq<Byte>, y: seq<Byte>)
    requires At(input, pos, x + y)
    ensures At(input, pos, x) && At(input, pos + |x|, y)
  {
    var s := input[pos..pos + |x + y|];
    assert s[..|x|] == x && s[|x|..] == y;
  }

  lemma AtByte(input: seq<Byte>, pos: nat, x: seq<Byte>, k: nat)
    requires At(input, pos, x) && k < |x|
    ensures pos + k < |input| && input[pos + k] == x[k]
  {
    assert input[pos..pos + |x|][k] == x[k];
  }

  lemma RunMore(input: seq<Byte>, st: State, fuel: nat)
    requires fuel > 0 && Step(input, st).More?
    ensures Run(input, st, fuel) == Run(input, Step(input, st).st, fuel - 1)
  {
  }

  /** How many bytes the scan consumes at the head of a non-empty gap. */
  function GapMove(g: seq<Byte>): (m: nat)
    requires g != []
    ensures 1 <= m <= 2 && m <= |g|
  {
    if g[0] != MARKER || |g| == 1 || g[1] == MARKER then 1 else 2
  }

  lemma GapStep(input: seq<Byte>, pos: nat, buf: seq<Byte>, g: seq<Byte>)
    requires At(input, pos, g + [MARKER, SOI]) && NoSoi(g)
    ensures g == [] ==> Step(input, State(pos, buf, false)) == More(State(pos + 2, [MARKER, SOI], true))
    ensures g != [] ==>
      var m := GapMove(g);
      && Step(input, State(pos, buf, false))
         == More(State(pos + m, if |buf| > MAX_BUFFER then [] else buf, false))
      && At(input, pos + m, g[m..] + [MARKER, SOI]) && NoSoi(g[m..])
  {
    var x := g + [MARKER, SOI];
    AtByte(input, pos, x, 0);
    AtByte(input, pos, x, 1);
    if g != [] {
      var m := GapMove(g);
      assert x == g[..m] + (g[m..] + [MARKER, SOI]);
      AtSplit(input, pos, g[..m], g[m..] + [MARKER, SOI]);
      assert !SoiAt(g, 0);
      assert forall k :: 0 <= k < |g[m..]| && SoiAt(g[m..], k) ==> SoiAt(g, k + m);
    }
  }

  lemma {:induction false} GapRun(input: seq<Byte>, pos: nat, buf: seq<Byte>, g: seq<Byte>, fuel: nat)
    requires At(input, pos, g + [MARKER, SOI]) && NoSoi(g)
    ensures var n := GapSteps(g) + 1;
            var r := Run(input, State(pos, buf, false), fuel);
            if fuel >= n then r == Run(input, State(pos + |g| + 2, [MARKER, SOI], true), fuel - n)
            else r.outcome == IterationsExhausted
    decreases |g|
  {
    hide Step, At, NoSoi;
    GapStep(input, pos, buf, g);
    if fuel > 0 {
      hide Run;
      RunMore(input, State(pos, buf, false), fuel);
      if g != [] {
        var m := GapMove(g);
        GapRun(input, pos + m, if |buf| > MAX_BUFFER then [] else buf, g[m..], fuel - 1);
      }
    }
  }

  lemma BodyEnd(input: seq<Byte>, pos: nat, buf: seq<Byte>)
    requires At(input, pos, [MARKER, EOI]) && |buf| <= MAX_BUFFER
    ensures var f := buf + [MARKER, EOI];
            Step(input, State(pos, buf, true)) == Stop(Frame(f), pos + 2, f)
  {
    AtByte(input, pos, [MARKER, EOI], 0);
    AtByte(input, pos, [MARKER, EOI], 1);
    assert buf + [MARKER, EOI] == buf + [MARKER] + [EOI];
  }

  lemma TokenStep(input: seq<Byte>, pos: nat, buf: seq<Byte>, token: seq<Byte>)
    requires At(input, pos, token) && |buf| <= MAX_BUFFER && 1 <= |token| <= 2
    requires if token[0] == MARKER then |token| == 2 && token[1] != EOI else |token| == 1
    ensures Step(input, State(pos, buf, true)) == More(State(pos + |token|, buf + token, true))
  {
    AtByte(input, pos, token, 0);
    if |token| == 2 {
      AtByte(input, pos, token, 1);
      assert buf + token == buf + [MARKER] + [token[1]];
    } else {
      assert token == [token[0]];
    }
  }

  lemma BodyStep(input: seq<Byte>, pos: nat, buf: seq<Byte>, body: seq<Byte>)
    requires At(input, pos, body + [MARKER, EOI]) && IsBody(body) && |buf| + |body| <= MAX_BUFFER && body != []
    ensures var m := if body[0] != MARKER then 1 else 2;
            && m <= |body| && IsBody(body[m..]) && At(input, pos + m, body[m..] + [MARKER, EOI])
            && Step(input, State(pos, buf, true)) == More(State(pos + m, buf + body[..m], true))
  {
    hide At, Step;
    var m := if body[0] != MARKER then 1 else 2;
    assert body + [MARKER, EOI] == body[..m] + (body[m..] + [MARKER, EOI]);
    AtSplit(input, pos, body[..m], body[m..] + [MARKER, EOI]);
    TokenStep(input, pos, buf, body[..m]);
  }

  lemma {:induction false} BodyRun(input: seq<Byte>, pos: nat, buf: seq<Byte>, body: seq<Byte>, fuel: nat)
    requires At(input, pos, body + [MARKER, EOI]) && IsBody(body) && |buf| + |body| <= MAX_BUFFER
    ensures var n := BodySteps(body) + 1;
            var r := Run(input, State(pos, buf, true), fuel);
            var f := buf + body + [MARKER, EOI];
            if fuel >= n then r == Stop(Frame(f), pos + |body| + 2, f)
            else r.outcome == IterationsExhausted
    decreases |body|
  {
    if body == [] {
      assert [] + [MARKER, EOI] == [MARKER, EOI] && buf + [] == buf;
      BodyEnd(input, pos, buf);
    } else if fuel > 0 {
      BodyStep(input, pos, buf, body);
      var m := if body[0] != MARKER then 1 else 2;
      RunMore(input, State(pos, buf, true), fuel);
      assert buf + body[..m] + body[m..] == buf + body;
      hide Run, Step, At;
      BodyRun(input, pos + m, buf + body[..m], body[m..], fuel - 1);
    }
  }

  lemma FrameFits(input: seq<Byte>, pos: nat, buf: seq<Byte>, gap: seq<Byte>, body: seq<Byte>)
    requires At(input, pos, gap + [MARKER, SOI] + (body + [MARKER, EOI])) && NoSoi(gap) && IsBody(body)
    requires |body| + 2 <= MAX_BUFFER
    ensures var f := [MARKER, SOI] + body + [MARKER, EOI];
            if GapSteps(gap) + BodySteps(body) + 2 <= MAX_ITERATIONS
            then Extract(input, pos, buf) == Stop(Frame(f), pos + |gap| + 2 + |body| + 2, f)
            else Extract(input, pos, buf).outcome == IterationsExhausted
  {
    hide Run, At, NoSoi, IsBody;
    var n := GapSteps(gap) + 1;
    AtSplit(input, pos, gap + [MARKER, SOI], body + [MARKER, EOI]);
    GapRun(input, pos, buf, gap, MAX_ITERATIONS);
    if MAX_ITERATIONS >= n {
      BodyRun(input, pos + |gap| + 2, [MARKER, SOI], body, MAX_ITERATIONS - n);
    }
  }

  /**
    A gap without a start marker followed by a frame yields exactly that frame,
    if and only if the frame fits the buffer limit and the call its iterations.
  */
  lemma FrameRecovered(input: seq<Byte>, pos: nat, buf: seq<Byte>, gap: seq<Byte>, body: seq<Byte>)
    requires At(input, pos, gap + FrameOf(body)) && NoSoi(gap) && IsBody(body)
    ensures var f := FrameOf(body);
            Extract(input, pos, buf) == Stop(Frame(f), pos + |gap| + |f|, f)
            <==> |f| <= 10485762 && GapSteps(gap) + BodySteps(body) + 2 <= 10485760
  {
    hide At, NoSoi, IsBody, Extract, GapSteps, BodySteps;
    var f := FrameOf(body);
    assert gap + f == gap + [MARKER, SOI] + (body + [MARKER, EOI]);
    FrameIsSlice(input, pos, buf);
    if |f| <= 10485762 {
      FrameFits(input, pos, buf, gap, body);
    }
  }

  /** All frames of repeated calls that share one buffer. */
  function AllFrames(input: seq<Byte>, pos: nat, buf: seq<Byte>): seq<seq<Byte>>
    decreases if pos <= |input| then |input| - pos else 0
  {
    var r := Extract(input, pos, buf);
    FrameIsSlice(input, pos, buf);
    if r.outcome.Frame? then [r.outcome.frame] + AllFrames(input, r.pos, r.buf) else []
  }

  lemma AllFramesStep(input: seq<Byte>, pos: nat, buf: seq<Byte>)
    ensures var r, all := Extract(input, pos, buf), AllFrames(input, pos, buf);
            && (r.outcome.Frame? <==> all != [])
            && (all != []
                ==> pos < r.pos <= |input| && all[0] == r.outcome.frame && all[1..] == AllFrames(input, r.pos, r.buf))
  {
    FrameIsSlice(input, pos, buf);
    hide Extract;
  }

  datatype Part = Part(gap: seq<Byte>, body: seq<Byte>)

  predicate WellFormed(p: Part) {
    && NoSoi(p.gap) && IsBody(p.body)
    && |FrameOf(p.body)| <= 10485762
    && GapSteps(p.gap) + BodySteps(p.body) + 2 <= 10485760
  }

  function StreamOf(parts: seq<Part>, tail: seq<Byte>): seq<Byte> {
    if parts == [] then tail else parts[0].gap + FrameOf(parts[0].body) + StreamOf(parts[1..], tail)
  }

  function FramesOf(parts: seq<Part>): seq<seq<Byte>> {
    if parts == [] then [] else [FrameOf(parts[0].body)] + FramesOf(parts[1..])
  }

  lemma SliceStart(input: seq<Byte>, a: nat, e: nat, f: seq<Byte>)
    requires a + 2 <= e <= |input| && f == input[a..e] && f[0] == MARKER && f[1] == SOI
    ensures SoiAt(input, a)
  {
  }

  lemma FrameHasSoi(before: seq<Byte>, buf: seq<Byte>, tail: seq<Byte>)
    ensures Extract(before + tail, |before|, buf).outcome.Frame? ==> !NoSoi(tail)
  {
    hide Extract;
    var input := before + tail;
    FrameIsSlice(input, |before|, buf);
    var r := Extract(input, |before|, buf);
    if r.outcome.Frame? {
      SliceStart(input, r.pos - |r.buf|, r.pos, r.buf);
      hide *;
      SoiInTail(before, tail, r.pos - |r.buf|);
    }
  }

  lemma SoiInTail(before: seq<Byte>, tail: seq<Byte>, k: nat)
    requires SoiAt(before + tail, k) && k >= |before|
    ensures !NoSoi(tail)
  {
    assert SoiAt(tail, k - |before|);
  }

  /** The serving loop recovers exactly the frames of a well-formed stream, in order. */
  lemma {:induction false} StreamRecovered(before: seq<Byte>, buf: seq<Byte>, parts: seq<Part>, tail: seq<Byte>)
    requires (forall p :: p in parts ==> WellFormed(p)) && NoSoi(tail)
    ensures AllFrames(before + StreamOf(parts, tail), |before|, buf) == FramesOf(parts)
    decreases |parts|
  {
    hide Extract, IsBody, IsFrame, FrameOf, GapSteps, BodySteps;
    var input, pos := before + StreamOf(parts, tail), |before|;
    if parts == [] {
      FrameHasSoi(before, buf, tail);
    } else {
      var p := parts[0];
      assert p in parts && WellFormed(p);
      var head := p.gap + FrameOf(p.body);
      assert input[pos..pos + |head|] == head;
      FrameRecovered(input, pos, buf, p.gap, p.body);
      assert input == before + head + StreamOf(parts[1..], tail);
      StreamRecovered(before + head, FrameOf(p.body), parts[1..], tail);
    }
  }
}
