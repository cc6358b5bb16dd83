/**
  The message assembler of the bundled Datastar client (static/datastar.js) on
  top of the line splitter: fields accumulate in a record until an empty line
  dispatches it. Text decoding is the identity on bytes, and whether a retry
  value is a number is the parameter `isNumber`.
*/
module SseMessages {
  import opened Base
  import opened SseLines

  /** The record under construction; `retry` holds the text of the last numeric value. */
  datatype Record = Record(data: seq<Byte>, event: seq<Byte>, id: seq<Byte>, retry: Option<seq<Byte>>)

  const EMPTY := Record([], [], [], None)

  /** What the assembler calls back with. */
  datatype Output = LastId(id: seq<Byte>) | RetryAfter(text: seq<Byte>) | Message(record: Record)

  const DATA: seq<Byte> := [100, 97, 116, 97]
  const EVENT: seq<Byte> := [101, 118, 101, 110, 116]
  const ID: seq<Byte> := [105, 100]
  const RETRY: seq<Byte> := [114, 101, 116, 114, 121]

  datatype Assembly = Assembly(record: Record, sent: seq<Output>)

  /** Appending a data line: nothing is prepended to an empty (falsy) text. */
  function AddData(data: seq<Byte>, value: seq<Byte>): seq<Byte> {
    if data != [] then data + [LF] + value else value
  }

  function SetField(a: Assembly, name: seq<Byte>, value: seq<Byte>, isNumber: seq<Byte> -> bool): Assembly {
    if name == DATA then a.(record := a.record.(data := AddData(a.record.data, value)))
    else if name == EVENT then a.(record := a.record.(event := value))
    else if name == ID then Assembly(a.record.(id := value), a.sent + [LastId(value)])
    else if name == RETRY && isNumber(value) then
      Assembly(a.record.(retry := Some(value)), a.sent + [RetryAfter(value)])
    else a
  }

  /** Where the value starts: one space after the colon is dropped. */
  function ValueStart(line: Line): nat
    requires 0 < line.colon < |line.text|
    ensures ValueStart(line) <= |line.text|
  {
    if line.colon + 1 < |line.text| && line.text[line.colon + 1] == SPACE then line.colon + 2 else line.colon + 1
  }

  function OnLine(a: Assembly, line: Line, isNumber: seq<Byte> -> bool): Assembly
    requires line.colon < |line.text|
  {
    if line.text == [] then Assembly(EMPTY, a.sent + [Message(a.record)])
    else if line.colon > 0 then
      SetField(a, line.text[..line.colon], line.text[ValueStart(line)..], isNumber)
    else a
  }

  function Assemble(a: Assembly, lines: seq<Line>, isNumber: seq<Byte> -> bool): Assembly
    requires forall l :: l in lines ==> l.colon < |l.text|
    decreases |lines|
  {
    if lines == [] then a else Assemble(OnLine(a, lines[0], isNumber), lines[1..], isNumber)
  }

  lemma {:induction false} LinesColons(x: seq<Byte>)
    ensures forall l :: l in Lines(x) ==> l.colon < |l.text|
    decreases |x|
  {
    var e := FirstEnd(x);
    if e < |x| {
      LinesColons(x[if x[e] == CR && e + 1 < |x| && x[e + 1] == LF then e + 2 else e + 1..]);
    }
  }

  /**
    What a line does, byte by byte: the four field names, the one space that is
    dropped after the colon, the line feed between data lines; comments and other
    fields do nothing.
  */
  lemma LineMeans(a: Assembly, name: seq<Byte>, gap: bool, value: seq<Byte>, isNumber: seq<Byte> -> bool)
    requires 58 !in name && (!gap ==> value == [] || value[0] != 32)
    ensures var text := name + [58] + (if gap then [32] else []) + value;
            && FirstColon(text) == |name|
            && OnLine(a, Line(text, |name|), isNumber)
               == if name == [100, 97, 116, 97] then
                    var data := if a.record.data == [] then value else a.record.data + [10] + value;
                    a.(record := a.record.(data := data))
                  else if name == [101, 118, 101, 110, 116] then a.(record := a.record.(event := value))
                  else if name == [105, 100] then Assembly(a.record.(id := value), a.sent + [LastId(value)])
                  else if name == [114, 101, 116, 114, 121] && isNumber(value) then
                    Assembly(a.record.(retry := Some(value)), a.sent + [RetryAfter(value)])
                  else a
    ensures OnLine(a, Line([], -1), isNumber) == Assembly(Record([], [], [], None), a.sent + [Message(a.record)])
    ensures forall x: seq<Byte> | x != [] :: OnLine(a, Line(x, -1), isNumber) == a
  {
    var text := name + [58] + (if gap then [32] else []) + value;
    assert text[..|name|] == name && text[|name|] == COLON;
    ColonAt(text, |name|);
    assert text[|name| + if gap then 2 else 1..] == value;
  }

  class Client {
    var record: Record
    var sent: seq<Output>
    const splitter: LineSplitter

    constructor ()
      ensures record == EMPTY && sent == [] && fresh(splitter)
      ensures splitter.Valid() && splitter.fed == []
    {
      record, sent := EMPTY, [];
      splitter := new LineSplitter();
    }

    method Take(line: Line, isNumber: seq<Byte> -> bool)
      requires line.colon < |line.text|
      modifies this
      ensures Assembly(record, sent) == OnLine(old(Assembly(record, sent)), line, isNumber)
    {
      if |line.text| == 0 {
        sent := sent + [Message(record)];
        record := EMPTY;
      } else if line.colon > 0 {
        var name := line.text[..line.colon];
        var value := line.text[ValueStart(line)..];
        if name == DATA {
          record := record.(data := if record.data != [] then record.data + [LF] + value else value);
        } else if name == EVENT {
          record := record.(event := value);
        } else if name == ID {
          record := record.(id := value);
          sent := sent + [LastId(value)];
        } else if name == RETRY {
          if isNumber(value) {
            record := record.(retry := Some(value));
            sent := sent + [RetryAfter(value)];
          }
        }
      }
    }

    /** A fresh client's outputs depend on the bytes received, never on how they were chunked. */
    method Receive(chunks: seq<seq<Byte>>, isNumber: seq<Byte> -> bool)
      requires record == EMPTY && sent == [] && splitter.Valid() && splitter.fed == []
      modifies this, splitter
      ensures (forall l :: l in Lines(Flatten(chunks)) ==> l.colon < |l.text|)
      ensures Assembly(record, sent) == Assemble(Assembly(EMPTY, []), Lines(Flatten(chunks)), isNumber)
    {
      splitter.FeedAll(chunks);
      assert [] + Flatten(chunks) == Flatten(chunks);
      var lines := splitter.emitted;
      LinesColons(Flatten(chunks));
      ghost var want := Assemble(Assembly(EMPTY, []), lines, isNumber);
      assert lines[0..] == lines;
      for k := 0 to |lines|
        invariant want == Assemble(Assembly(record, sent), lines[k..], isNumber)
      {
        assert lines[k..][1..] == lines[k + 1..];
        Take(lines[k], isNumber);
      }
    }
  }

  // ---------------------------------------------------------------------
  // What a server's events become
  // ---------------------------------------------------------------------

  /** A server-side event: a name, an id and the data lines. */
  datatype Event = Event(name: seq<Byte>, id: seq<Byte>, data: seq<seq<Byte>>)

  predicate OneLine(x: seq<Byte>) { forall b :: b in x ==> !IsEnd(b) }

  predicate Sendable(e: Event) {
    OneLine(e.name) && OneLine(e.id) && forall d :: d in e.data ==> OneLine(d)
  }

  function Field(name: seq<Byte>, value: seq<Byte>): seq<Byte> { name + [COLON, SPACE] + value }

  function RenderData(data: seq<seq<Byte>>): seq<Byte> {
    if data == [] then [LF] else Field(DATA, data[0]) + [LF] + RenderData(data[1..])
  }

  function Render(e: Event): seq<Byte> {
    Field(EVENT, e.name) + [LF] + (Field(ID, e.id) + [LF] + RenderData(e.data))
  }

  function RenderAll(es: seq<Event>): seq<Byte> {
    if es == [] then [] else Render(es[0]) + RenderAll(es[1..])
  }

  function FoldData(data: seq<Byte>, lines: seq<seq<Byte>>): seq<Byte>
    decreases |lines|
  {
    if lines == [] then data else FoldData(AddData(data, lines[0]), lines[1..])
  }

  function Received(es: seq<Event>): seq<Output> {
    if es == [] then []
    else [LastId(es[0].id), Message(Record(FoldData([], es[0].data), es[0].name, es[0].id, None))] + Received(es[1..])
  }

  /** The data text of the standard: the lines joined by LF. */
  function Join(lines: seq<seq<Byte>>): seq<Byte> {
    if lines == [] then [] else if |lines| == 1 then lines[0] else lines[0] + [LF] + Join(lines[1..])
  }

  lemma {:induction false} FoldNonEmpty(data: seq<Byte>, lines: seq<seq<Byte>>)
    requires data != []
    ensures FoldData(data, lines) == if lines == [] then data else data + [LF] + Join(lines)
    decreases |lines|
  {
    if lines != [] {
      FoldNonEmpty(data + [LF] + lines[0], lines[1..]);
      assert |lines| == 1 ==> lines[1..] == [];
      assert |lines| > 1 ==> data + [LF] + lines[0] + [LF] + Join(lines[1..]) == data + [LF] + Join(lines);
    }
  }

  lemma {:induction false} FoldLength(lines: seq<seq<Byte>>)
    ensures lines != [] ==> |FoldData([], lines)| <= |Join(lines)|
    decreases |lines|
  {
    if lines != [] {
      if lines[0] == [] { FoldLength(lines[1..]); } else { FoldNonEmpty(lines[0], lines[1..]); }
    }
  }

  /**
    The assembled data is the standard's joined text exactly when the first of
    several data lines is not empty: leading empty data lines are lost.
  */
  lemma DataIsJoined(lines: seq<seq<Byte>>)
    ensures FoldData([], lines) == Join(lines) <==> |lines| <= 1 || lines[0] != []
  {
    if |lines| > 1 {
      if lines[0] == [] {
        FoldLength(lines[1..]);
      } else {
        FoldNonEmpty(lines[0], lines[1..]);
      }
    }
  }

  lemma LeadingEmptyDataLineIsLost()
    ensures FoldData([], [[], [120]]) == [120] && Join([[], [120]]) == [LF, 120]
  {
    assert [[], [120]][1..] == [[120]] && [[120]][1..] == [];
    assert Join([[120]]) == [120];
  }

  /** What the standard makes of the events: the data lines joined. */
  function Standard(es: seq<Event>): seq<Output> {
    if es == [] then []
    else [LastId(es[0].id), Message(Record(Join(es[0].data), es[0].name, es[0].id, None))] + Standard(es[1..])
  }

  /** No leading empty data line that the assembler would lose. */
  predicate KeepsData(e: Event) {
    |e.data| <= 1 || e.data[0] != []
  }

  /** The assembler's outputs are the standard's exactly when no event has a leading empty data line to lose. */
  lemma {:induction false} ReceivedIsStandard(es: seq<Event>)
    ensures Received(es) == Standard(es) <==> forall e <- es :: KeepsData(e)
    decreases |es|
  {
    if es != [] {
      var e, more := es[0], es[1..];
      DataIsJoined(e.data);
      ReceivedIsStandard(more);
      assert Received(es)[1] == Message(Record(FoldData([], e.data), e.name, e.id, None));
      assert Standard(es)[1] == Message(Record(Join(e.data), e.name, e.id, None));
      assert Received(es)[2..] == Received(more) && Standard(es)[2..] == Standard(more);
      assert (forall f <- es :: KeepsData(f)) <==> KeepsData(e) && forall f <- more :: KeepsData(f) by {
        assert es == [e] + more;
      }
    }
  }

  lemma {:induction false} LinesPush(x: seq<Byte>, rest: seq<Byte>)
    requires OneLine(x)
    ensures Lines(x + [LF] + rest) == [Line(x, FirstColon(x))] + Lines(rest)
  {
    var s := x + [LF] + rest;
    FirstEndUnique(s, |x|);
    assert s[..|x|] == x && s[|x| + 1..] == rest;
  }

  lemma FieldLine(name: seq<Byte>, value: seq<Byte>, a: Assembly, isNumber: seq<Byte> -> bool)
    requires name == DATA || name == EVENT || name == ID
    requires OneLine(value)
    ensures var x := Field(name, value);
            OneLine(x) && FirstColon(x) == |name|
            && OnLine(a, Line(x, |name|), isNumber) == SetField(a, name, value, isNumber)
  {
    var x := Field(name, value);
    assert x[|name|] == COLON && COLON !in name;
    assert x[..|name|] == name && x[|name| + 2..] == value;
    ColonAt(x, |name|);
  }

  lemma ColonAt(x: seq<Byte>, k: nat)
    requires k < |x| && x[k] == COLON && COLON !in x[..k]
    ensures FirstColon(x) == k
  {
    var c := FirstColon(x);
    assert x[k] in x;
  }

  lemma OneMore(a: Assembly, x: seq<Byte>, rest: seq<Byte>, isNumber: seq<Byte> -> bool)
    requires OneLine(x)
    ensures forall l :: l in Lines(x + [LF] + rest) ==> l.colon < |l.text|
    ensures forall l :: l in Lines(rest) ==> l.colon < |l.text|
    ensures Assemble(a, Lines(x + [LF] + rest), isNumber)
            == Assemble(OnLine(a, Line(x, FirstColon(x)), isNumber), Lines(rest), isNumber)
  {
    LinesPush(x, rest);
    LinesColons(x + [LF] + rest);
    LinesColons(rest);
    assert ([Line(x, FirstColon(x))] + Lines(rest))[1..] == Lines(rest);
  }

  lemma {:induction false} DataLines(a: Assembly, data: seq<seq<Byte>>, rest: seq<Byte>, isNumber: seq<Byte> -> bool)
    requires forall d :: d in data ==> OneLine(d)
    ensures forall l :: l in Lines(RenderData(data) + rest) ==> l.colon < |l.text|
    ensures forall l :: l in Lines(rest) ==> l.colon < |l.text|
    ensures Assemble(a, Lines(RenderData(data) + rest), isNumber)
            == Assemble(Assembly(EMPTY, a.sent + [Message(a.record.(data := FoldData(a.record.data, data)))]),
                        Lines(rest), isNumber)
    decreases |data|
  {
    if data == [] {
      assert [] + [LF] + rest == [LF] + rest;
      OneMore(a, [], rest, isNumber);
    } else {
      var x, more := Field(DATA, data[0]), RenderData(data[1..]) + rest;
      FieldLine(DATA, data[0], a, isNumber);
      OneMore(a, x, more, isNumber);
      assert RenderData(data) + rest == x + [LF] + more;
      DataLines(SetField(a, DATA, data[0], isNumber), data[1..], rest, isNumber);
    }
  }

  lemma EventLines(a: Assembly, e: Event, rest: seq<Byte>, isNumber: seq<Byte> -> bool)
    requires a.record == EMPTY && Sendable(e)
    ensures forall l :: l in Lines(Render(e) + rest) ==> l.colon < |l.text|
    ensures forall l :: l in Lines(rest) ==> l.colon < |l.text|
    ensures Assemble(a, Lines(Render(e) + rest), isNumber)
            == Assemble(Assembly(EMPTY, a.sent + Received([e])), Lines(rest), isNumber)
  {
    hide Assemble, OnLine, Lines, FirstColon, Field, OneLine, RenderData;
    var x, y := Field(EVENT, e.name), Field(ID, e.id);
    var r1, r2 := RenderData(e.data) + rest, y + [LF] + (RenderData(e.data) + rest);
    assert Render(e) + rest == x + [LF] + r2;
    FieldLine(EVENT, e.name, a, isNumber);
    OneMore(a, x, r2, isNumber);
    var b := SetField(a, EVENT, e.name, isNumber);
    FieldLine(ID, e.id, b, isNumber);
    OneMore(b, y, r1, isNumber);
    var c := SetField(b, ID, e.id, isNumber);
    DataLines(c, e.data, rest, isNumber);
    assert [e][1..] == [];
    assert c.sent + [Message(c.record.(data := FoldData([], e.data)))] == a.sent + Received([e]);
  }

  lemma {:induction false} AllLines(a: Assembly, es: seq<Event>, isNumber: seq<Byte> -> bool)
    requires a.record == EMPTY && forall e :: e in es ==> Sendable(e)
    ensures forall l :: l in Lines(RenderAll(es)) ==> l.colon < |l.text|
    ensures Assemble(a, Lines(RenderAll(es)), isNumber) == Assembly(EMPTY, a.sent + Received(es))
    decreases |es|
  {
    if es != [] {
      EventLines(a, es[0], RenderAll(es[1..]), isNumber);
      AllLines(Assembly(EMPTY, a.sent + Received([es[0]])), es[1..], isNumber);
      assert a.sent + Received([es[0]]) + Received(es[1..]) == a.sent + Received(es);
    }
  }

  /**
    Every server event arrives in order, with its name and id; the outputs are those
    of the standard, data included, exactly when no event starts with an empty data
    line followed by more.
  */
  lemma EventsArrive(a: Assembly, es: seq<Event>, isNumber: seq<Byte> -> bool)
    requires a.record == EMPTY && forall e :: e in es ==> Sendable(e)
    ensures forall l :: l in Lines(RenderAll(es)) ==> l.colon < |l.text|
    ensures var b := Assemble(a, Lines(RenderAll(es)), isNumber);
            && b == Assembly(EMPTY, a.sent + Received(es))
            && (b == Assembly(EMPTY, a.sent + Standard(es)) <==> forall e <- es :: KeepsData(e))
  {
    AllLines(a, es, isNumber);
    ReceivedIsStandard(es);
    hide *;
    assert (a.sent + Received(es))[|a.sent|..] == Received(es) && (a.sent + Standard(es))[|a.sent|..] == Standard(es);
  }

  /**
    End to end: any chunking of the rendered events yields the same outputs, the
    standard's under the same condition.
  */
  method ReceiveEvents(chunks: seq<seq<Byte>>, ghost es: seq<Event>, isNumber: seq<Byte> -> bool)
    returns (outputs: seq<Output>)
    requires Flatten(chunks) == RenderAll(es) && forall e :: e in es ==> Sendable(e)
    ensures outputs == Received(es)
    ensures outputs == Standard(es) <==> forall e <- es :: KeepsData(e)
  {
    ReceivedIsStandard(es);
    var client := new Client();
    client.Receive(chunks, isNumber);
    EventsArrive(Assembly(EMPTY, []), es, isNumber);
    outputs := client.sent;
  }
}
