/**
  The incremental event-stream reader of the bundled Datastar client
  (static/datastar.js): the chunk-fed line splitter and the message assembler.

  `Lines` is the one-shot meaning of a whole stream (section 9.2.5 of the
  WHATWG HTML standard: a line ends at CR LF, LF or CR). `LineSplitter` keeps a
  residual buffer, a position, a colon index and a pending-CR flag between
  chunks and is proved to emit `Lines` of everything fed so far.
*/
module SseLines {
  import opened Base

  const LF: Byte := 10
  const CR: Byte := 13
  const SPACE: Byte := 32
  const COLON: Byte := 58

  /** A line and the index of its first colon, -1 when there is none. */
  datatype Line = Line(text: seq<Byte>, colon: int)

  predicate IsEnd(b: Byte) { b == LF || b == CR }

  function FirstEnd(x: seq<Byte>): (e: nat)
    ensures e <= |x| && (forall k :: 0 <= k < e ==> !IsEnd(x[k])) && (e < |x| ==> IsEnd(x[e]))
  {
    if x == [] || IsEnd(x[0]) then 0 else 1 + FirstEnd(x[1..])
  }

  function FirstColon(x: seq<Byte>): (c: int)
    ensures -1 <= c < |x| && (c == -1 ==> COLON !in x)
    ensures c >= 0 ==> x[c] == COLON && COLON !in x[..c]
  {
    if x == [] then -1
    else if x[0] == COLON then 0
    else
      var c := FirstColon(x[1..]);
      assert c >= 0 ==> x[..c + 1] == [x[0]] + x[1..][..c];
      if c == -1 then -1 else c + 1
  }

  /** One-shot splitting of a whole stream; an unterminated last line is not emitted. */
  function Lines(x: seq<Byte>): seq<Line> {
    var e := FirstEnd(x);
    if e == |x| then []
    else
      var next := if x[e] == CR && e + 1 < |x| && x[e + 1] == LF then e + 2 else e + 1;
      [Line(x[..e], FirstColon(x[..e]))] + Lines(x[next..])
  }

  /** Lines found in `x`, the unterminated rest, and whether a CR was the last byte. */
  datatype Scan = Scan(lines: seq<Line>, rest: seq<Byte>, cr: bool) {
    function Prepend(before: seq<Line>): Scan { this.(lines := before + lines) }

    lemma PrependTwice(p: seq<Line>, q: seq<Line>)
      ensures Prepend(q).Prepend(p) == Prepend(p + q)
    {
      assert p + (q + lines) == p + q + lines;
    }
  }

  /** The splitter's meaning: `cr` says an immediately preceding CR may still take an LF. */
  function Split(cr: bool, x: seq<Byte>): Scan
    decreases |x|, cr
  {
    if cr && x != [] then Split(false, if x[0] == LF then x[1..] else x)
    else
      var e := FirstEnd(x);
      if e == |x| then Scan([], x, cr)
      else Split(x[e] == CR, x[e + 1..]).Prepend([Line(x[..e], FirstColon(x[..e]))])
  }

  // ---------------------------------------------------------------------
  // The splitter
  // ---------------------------------------------------------------------

  /**
    The inner scan: from `from` to the end of the line starting at `a`, or to the
    end of the buffer (`l == -1`), noting the first colon and a closing CR.
  */
  method ScanLine(buf: seq<Byte>, a: nat, from: nat, colon: int) returns (l: int, n: nat, r: int, cr: bool)
    requires from <= |buf| && Scanned(buf, a, from, colon)
    ensures l == -1 ==> n == |buf| && !cr && Scanned(buf, a, n, r)
    ensures l != -1 ==> from <= l < n == l + 1 && n <= |buf|
                        && Scanned(buf, a, l, r) && IsEnd(buf[l]) && cr == (buf[l] == CR)
  {
    hide Scanned;
    l, n, r, cr := -1, from, colon, false;
    var o := |buf|;
    while n < o && l == -1
      invariant from <= n <= o
      invariant l == -1 ==> !cr && Scanned(buf, a, n, r)
      invariant l != -1 ==> from <= l < n == l + 1 && Scanned(buf, a, l, r) && IsEnd(buf[l]) && cr == (buf[l] == CR)
      decreases o - n
    {
      ScannedMore(buf, a, n, r);
      match buf[n] {
        case 58 =>
          if r == -1 { r := n - a; }
        case 13 =>
          cr := true;
          l := n;
        case 10 =>
          l := n;
        case _ =>
      }
      n := n + 1;
    }
  }

  /**
    The outer loop over one buffer, from the state left by the previous chunk:
    emits the completed lines and returns where the unterminated rest starts.
  */
  method Consume(buf: seq<Byte>, n0: nat, r0: int, cr0: bool, sent: seq<Line>, ghost whole: Scan)
    returns (a: nat, r: int, cr: bool, emitted: seq<Line>)
    requires n0 <= |buf| && Resumes(whole, sent, cr0, buf, 0, n0, r0)
    ensures a <= |buf| && whole == Scan(emitted, buf[a..], cr) && r == FirstColon(buf[a..])
  {
    hide *;
    var n := n0;
    a, r, cr, emitted := 0, r0, cr0, sent;
    var o := |buf|;
    while n < o
      invariant n <= o && Resumes(whole, emitted, cr, buf, a, n, r)
    {
      AfterCR(whole, emitted, cr, buf, a, n, r);
      if cr {
        // an LF directly after a CR belongs to the line the CR already ended
        if buf[n] == LF {
          n := n + 1;
          a := n;
        }
        cr := false;
      }
      ResumesScan(whole, emitted, cr, buf, a, n, r);
      var l;
      l, n, r, cr := ScanLine(buf, a, n, r);
      if l == -1 {
        ScanResumes(whole, emitted, buf, a, n, r);
        break;
      }
      AfterLine(whole, emitted, buf, a, l, r);
      emitted := emitted + [Line(buf[a..l], r)];
      a := n;
      r := -1;
    }
    AfterAll(whole, emitted, cr, buf, a, n, r);
  }

  class LineSplitter {
    var t: Option<seq<Byte>>
    var n: nat
    var r: int
    var s: bool
    var emitted: seq<Line>
    ghost var fed: seq<Byte>

    ghost predicate Valid()
      reads this
    {
      var scan := Split(false, fed);
      && emitted == scan.lines && s == scan.cr
      && match t {
           case None => scan.rest == []
           case Some(b) => b == scan.rest && b != [] && n == |b| && r == FirstColon(b)
         }
    }

    constructor ()
      ensures Valid() && fed == [] && emitted == []
    {
      t, n, r, s, emitted, fed := None, 0, -1, false, [], [];
    }

    /** One chunk: emits every line completed by it, in order. */
    method Feed(chunk: seq<Byte>)
      requires Valid()
      modifies this
      ensures Valid() && fed == old(fed) + chunk
      ensures emitted == Lines(fed)
    {
      ghost var whole := Split(false, fed + chunk);
      SplitIsLines(fed + chunk);
      FirstResume(fed, chunk);
      ghost var was := Split(false, fed);
      var buf: seq<Byte>;
      if t.Some? {
        buf := t.value + chunk;
      } else {
        buf, n, r := chunk, 0, -1;
      }
      assert buf == was.rest + chunk && n == |was.rest| && r == FirstColon(was.rest);
      hide *;
      fed := fed + chunk;
      var a;
      a, r, s, emitted := Consume(buf, n, r, s, emitted, whole);
      Keep(buf, a);
    }

    /** The end of a chunk: what is left over becomes the residual buffer. */
    method Keep(buf: seq<Byte>, a: nat)
      requires a <= |buf| && r == FirstColon(buf[a..])
      requires Split(false, fed) == Scan(emitted, buf[a..], s)
      modifies this`t, this`n
      ensures Valid()
    {
      hide Split, FirstColon;
      if a == |buf| {
        t := None;
      } else if a != 0 {
        t := Some(buf[a..]);
        n := |buf| - a;
      } else {
        assert buf[a..] == buf;
        t := Some(buf);
        n := |buf|;
      }
    }

    /** Feeding a stream in any pieces emits the lines of the whole stream. */
    method FeedAll(chunks: seq<seq<Byte>>)
      requires Valid()
      modifies this
      ensures Valid() && fed == old(fed) + Flatten(chunks)
      ensures emitted == Lines(old(fed) + Flatten(chunks))
    {
      SplitIsLines(fed);
      hide Split, Lines;
      assert chunks[0..] == chunks;
      for k := 0 to |chunks|
        invariant Valid() && fed + Flatten(chunks[k..]) == old(fed) + Flatten(chunks)
        invariant emitted == Lines(fed)
      {
        assert chunks[k..][1..] == chunks[k + 1..];
        Feed(chunks[k]);
      }
    }
  }

  lemma SplitStep(cr: bool, x: seq<Byte>)
    ensures x == [] ==> Split(cr, x) == Scan([], [], cr)
    ensures cr && x != [] ==> Split(cr, x) == Split(false, if x[0] == LF then x[1..] else x)
    ensures !cr && FirstEnd(x) == |x| ==> Split(cr, x) == Scan([], x, false)
    ensures !cr && FirstEnd(x) < |x| ==>
      var e := FirstEnd(x);
      Split(cr, x) == Split(x[e] == CR, x[e + 1..]).Prepend([Line(x[..e], FirstColon(x[..e]))])
  {
  }

  /** `buf[a..n]` is the scanned part of one line, `r` its first colon. */
  ghost predicate Scanned(buf: seq<Byte>, a: nat, n: nat, r: int) {
    && a <= n <= |buf|
    && (forall k :: a <= k < n ==> !IsEnd(buf[k]))
    && r == FirstColon(buf[a..n])
  }

  lemma ScannedMore(buf: seq<Byte>, a: nat, n: nat, r: int)
    requires Scanned(buf, a, n, r) && n < |buf|
    ensures a <= n && (IsEnd(buf[n]) <==> buf[n] == 13 || buf[n] == 10)
    ensures !IsEnd(buf[n]) ==>
      Scanned(buf, a, n + 1, if r == -1 && buf[n] == 58 then n - a else r)
  {
    ColonStep(buf[a..n], buf[n]);
    assert buf[a..n] + [buf[n]] == buf[a..n + 1];
  }

  /** The splitter's loop invariant: `buf[a..]` still has to be read, `buf[a..n]` already was. */
  ghost predicate Resumes(whole: Scan, emitted: seq<Line>, cr: bool, buf: seq<Byte>, a: nat, n: nat, r: int) {
    && (cr ==> n == a)
    && Scanned(buf, a, n, r)
    && whole == Split(cr, buf[a..]).Prepend(emitted)
  }

  lemma ResumesScan(whole: Scan, emitted: seq<Line>, cr: bool, buf: seq<Byte>, a: nat, n: nat, r: int)
    requires Resumes(whole, emitted, cr, buf, a, n, r)
    ensures Scanned(buf, a, n, r) && a <= |buf| && whole == Split(cr, buf[a..]).Prepend(emitted)
  {
  }

  lemma ScanResumes(whole: Scan, emitted: seq<Line>, buf: seq<Byte>, a: nat, n: nat, r: int)
    requires Scanned(buf, a, n, r) && a <= |buf| && whole == Split(false, buf[a..]).Prepend(emitted)
    ensures Resumes(whole, emitted, false, buf, a, n, r)
  {
  }

  lemma FirstResume(x: seq<Byte>, chunk: seq<Byte>)
    ensures var first := Split(false, x);
            && (first.rest == [] ==> [] + chunk == chunk && FirstColon([]) == -1)
            && Resumes(Split(false, x + chunk), first.lines, first.cr, first.rest + chunk,
                       0, |first.rest|, FirstColon(first.rest))
  {
    var first := Split(false, x);
    RestIsUnterminated(false, x);
    SplitConcat(false, x, chunk);
    hide Split;
    var buf := first.rest + chunk;
    assert buf[0..] == buf && buf[0..|first.rest|] == first.rest;
  }

  lemma AfterCR(whole: Scan, emitted: seq<Line>, cr: bool, buf: seq<Byte>, a: nat, n: nat, r: int)
    requires Resumes(whole, emitted, cr, buf, a, n, r) && n < |buf|
    ensures var m := if cr && buf[n] == LF then n + 1 else n;
            Resumes(whole, emitted, false, buf, if cr && buf[n] == LF then m else a, m, r)
  {
    SplitStep(cr, buf[a..]);
    if cr && buf[n] == LF {
      assert buf[a..][1..] == buf[n + 1..] && buf[a..n] == buf[n + 1..n + 1];
    }
  }

  lemma AfterLine(whole: Scan, emitted: seq<Line>, buf: seq<Byte>, a: nat, l: nat, r: int)
    requires Scanned(buf, a, l, r) && l < |buf| && IsEnd(buf[l])
    requires whole == Split(false, buf[a..]).Prepend(emitted)
    ensures a <= l && Resumes(whole, emitted + [Line(buf[a..l], r)], buf[l] == CR, buf, l + 1, l + 1, -1)
  {
    hide Split;
    var x := buf[a..];
    FirstEndUnique(x, l - a);
    SplitStep(false, x);
    assert x[..l - a] == buf[a..l] && x[l - a + 1..] == buf[l + 1..] && buf[l + 1..l + 1] == [];
    Split(buf[l] == CR, buf[l + 1..]).PrependTwice(emitted, [Line(buf[a..l], r)]);
  }

  lemma AfterAll(whole: Scan, emitted: seq<Line>, cr: bool, buf: seq<Byte>, a: nat, n: nat, r: int)
    requires Resumes(whole, emitted, cr, buf, a, n, r) && n >= |buf|
    ensures a <= n == |buf| && whole == Scan(emitted, buf[a..], cr) && r == FirstColon(buf[a..])
  {
    var x := buf[a..];
    assert buf[a..n] == x;
    forall k | 0 <= k < |x| ensures !IsEnd(x[k]) { assert x[k] == buf[a + k]; }
    FirstEndUnique(x, |x|);
    SplitStep(cr, x);
    assert emitted + [] == emitted;
  }

  lemma ColonStep(x: seq<Byte>, b: Byte)
    ensures FirstColon(x + [b]) == if FirstColon(x) != -1 then FirstColon(x) else if b == COLON then |x| else -1
  {
    if x != [] {
      ColonStep(x[1..], b);
      assert (x + [b])[1..] == x[1..] + [b];
    }
  }

  lemma FirstEndUnique(x: seq<Byte>, e: nat)
    requires e <= |x| && (forall k :: 0 <= k < e ==> !IsEnd(x[k])) && (e < |x| ==> IsEnd(x[e]))
    ensures FirstEnd(x) == e
  {
  }

  lemma {:induction false} RestIsUnterminated(cr: bool, x: seq<Byte>)
    ensures forall k :: 0 <= k < |Split(cr, x).rest| ==> !IsEnd(Split(cr, x).rest[k])
    ensures Split(cr, x).cr ==> Split(cr, x).rest == []
    decreases |x|, cr
  {
    if cr && x != [] {
      RestIsUnterminated(false, if x[0] == LF then x[1..] else x);
    } else if FirstEnd(x) < |x| {
      RestIsUnterminated(x[FirstEnd(x)] == CR, x[FirstEnd(x) + 1..]);
    }
  }

  /** A line ends in `x`: what follows it splits the same with `y` behind it, so the whole does. */
  lemma LineFirst(x: seq<Byte>, y: seq<Byte>)
    requires var e := FirstEnd(x);
             && e < |x|
             && var more := Split(x[e] == CR, x[e + 1..]);
             Split(x[e] == CR, x[e + 1..] + y) == Split(more.cr, more.rest + y).Prepend(more.lines)
    ensures var first := Split(false, x);
            Split(false, x + y) == Split(first.cr, first.rest + y).Prepend(first.lines)
  {
    hide Split, FirstEnd, FirstColon, IsEnd;
    var e := FirstEnd(x);
    FirstEndUnique(x + y, e);
    SplitStep(false, x);
    SplitStep(false, x + y);
    assert (x + y)[..e] == x[..e] && (x + y)[e + 1..] == x[e + 1..] + y;
    var more := Split(x[e] == CR, x[e + 1..]);
    Split(more.cr, more.rest + y).PrependTwice([Line(x[..e], FirstColon(x[..e]))], more.lines);
  }

  /** Splitting may stop anywhere and resume with the rest and the CR flag. */
  lemma {:induction false} SplitConcat(cr: bool, x: seq<Byte>, y: seq<Byte>)
    ensures var first := Split(cr, x);
            Split(cr, x + y) == Split(first.cr, first.rest + y).Prepend(first.lines)
    decreases |x|, cr
  {
    hide Split, FirstEnd;
    var e := FirstEnd(x);
    if x == [] || cr || e == |x| {
      SplitStep(cr, x);
      SplitStep(cr, x + y);
    }
    if x == [] {
      assert x + y == y && [] + y == y;
      assert Split(cr, y).Prepend([]) == Split(cr, y);
    } else if cr {
      SplitConcat(false, if x[0] == LF then x[1..] else x, y);
      assert (x + y)[1..] == x[1..] + y;
    } else if e < |x| {
      SplitConcat(x[e] == CR, x[e + 1..], y);
      hide *;
      LineFirst(x, y);
    } else {
      assert Split(false, x + y).Prepend([]) == Split(false, x + y);
    }
  }

  /** The resumable reading agrees with the one-shot reading of the standard. */
  lemma {:induction false} SplitIsLines(x: seq<Byte>)
    ensures Split(false, x).lines == Lines(x)
    decreases |x|
  {
    var e := FirstEnd(x);
    if e < |x| {
      var y := x[e + 1..];
      if x[e] == CR && y != [] && y[0] == LF {
        SplitIsLines(y[1..]);
        assert y[1..] == x[e + 2..];
      } else {
        SplitIsLines(y);
      }
    }
  }
}
