/**
  De-chunking of the Inno Setup header stream (tools/inno661/extract_setup0.py)
  and sequential extraction from the solid chunk (tools/inno661/extract_files.py).
  CRC-32 and LZMA are the parameters `crc` and `inflate`.
*/
module SetupChunks {
  import opened Base
  import CallTransform

  const CHUNK: nat := 4096
  const PREFIX: nat := 64 + 4 + 49
  const CALL_OPTIMIZED: nat := 4

  /** Too few bytes to unpack, a chunk checksum mismatch, or a decompressor error. */
  datatype Error = Truncated | BadChunk | BadLzma

  type Checksum = seq<Byte> -> U32
  type Inflate = (U32, seq<Byte>) -> Option<seq<Byte>>

  /** Slicing that clamps at both ends, as the source's slices do. */
  function Slice(s: seq<Byte>, a: nat, b: int): seq<Byte> {
    if b <= a || a >= |s| then [] else s[a..if b <= |s| then b else |s|]
  }

  // ---------------------------------------------------------------------
  // One stored area
  // ---------------------------------------------------------------------

  function Dechunk(s: seq<Byte>, pos: nat, remaining: nat, crc: Checksum): Result<seq<Byte>, Error>
    decreases remaining
  {
    if remaining == 0 then Ok([])
    else if pos + 4 > |s| then Err(Truncated)
    else
      var clen := if remaining - 4 < CHUNK then remaining - 4 else CHUNK;
      var chunk := Slice(s, pos + 4, pos + 4 + clen);
      if crc(chunk) != U32Of(s[pos..pos + 4]) then Err(BadChunk)
      else match Dechunk(s, pos + 4 + clen, remaining - 4 - clen, crc)
        case Err(e) => Err(e)
        case Ok(rest) => Ok(chunk + rest)
  }

  /** Data of any length in checksum-prefixed pieces of at most 4096 bytes. */
  function Encode(data: seq<Byte>, crc: Checksum): seq<Byte> {
    if data == [] then []
    else
      var n := if |data| < 4096 then |data| else 4096;
      Le32(crc(data[..n])) + data[..n] + Encode(data[n..], crc)
  }

  function Appended(blob: seq<Byte>, r: Result<seq<Byte>, Error>): Result<seq<Byte>, Error> {
    match r case Err(e) => Err(e) case Ok(rest) => Ok(blob + rest)
  }

  lemma AppendNothing(r: Result<seq<Byte>, Error>)
    ensures Appended([], r) == r
  {
    assert r.Ok? ==> [] + r.value == r.value;
  }

  lemma AppendedNothing(blob: seq<Byte>)
    ensures Appended(blob, Ok([])) == Ok(blob)
  {
    assert blob + [] == blob;
  }

  lemma DechunkNothing(s: seq<Byte>, pos: nat, crc: Checksum)
    ensures Dechunk(s, pos, 0, crc) == Ok([])
  {
  }

  lemma AppendedError(blob: seq<Byte>, e: Error)
    ensures Appended(blob, Err(e)) == Err(e)
  {
  }

  lemma AppendTwice(a: seq<Byte>, b: seq<Byte>, r: Result<seq<Byte>, Error>)
    ensures Appended(a, Appended(b, r)) == Appended(a + b, r)
  {
    assert r.Ok? ==> a + (b + r.value) == a + b + r.value;
  }

  lemma DechunkStep(s: seq<Byte>, pos: nat, remaining: nat, crc: Checksum)
    requires remaining > 0
    ensures var clen := if remaining - 4 < CHUNK then remaining - 4 else CHUNK;
            var chunk := Slice(s, pos + 4, pos + 4 + clen);
            Dechunk(s, pos, remaining, crc)
            == if pos + 4 > |s| then Err(Truncated)
               else if crc(chunk) != U32Of(s[pos..pos + 4]) then Err(BadChunk)
               else Appended(chunk, Dechunk(s, pos + 4 + clen, remaining - 4 - clen, crc))
  {
  }

  /** One checksum-prefixed piece: its bytes, and how many bytes of the area it took after the checksum. */
  method TakeChunk(s: seq<Byte>, pos: nat, remaining: nat, crc: Checksum)
    returns (r: Result<seq<Byte>, Error>, clen: int)
    requires remaining > 0
    ensures clen == if remaining - 4 < CHUNK then remaining - 4 else CHUNK
    ensures match r
            case Err(e) => Dechunk(s, pos, remaining, crc) == Err(e)
            case Ok(chunk) =>
              Dechunk(s, pos, remaining, crc)
              == Appended(chunk, Dechunk(s, pos + 4 + clen, remaining - 4 - clen, crc))
  {
    DechunkStep(s, pos, remaining, crc);
    hide Dechunk, Slice, Appended, U32Of;
    clen := if remaining - 4 < CHUNK then remaining - 4 else CHUNK;
    if pos + 4 > |s| {
      return Err(Truncated), clen;
    }
    var ccrc := U32Of(s[pos..pos + 4]);
    var chunk := Slice(s, pos + 4, pos + 4 + clen);
    if crc(chunk) != ccrc {
      return Err(BadChunk), clen;
    }
    r := Ok(chunk);
  }

  method DechunkArea(s: seq<Byte>, start: nat, stored: nat, crc: Checksum)
    returns (r: Result<seq<Byte>, Error>, pos: nat)
    ensures r == Dechunk(s, start, stored, crc)
    ensures r.Ok? ==> pos == start + stored
  {
    var blob: seq<Byte> := [];
    var remaining: nat := stored;
    pos := start;
    AppendNothing(Dechunk(s, start, stored, crc));
    DechunkNothing(s, start + stored, crc);
    hide *;
    while remaining > 0
      invariant remaining <= stored && pos == start + stored - remaining
      invariant Dechunk(s, start, stored, crc) == Appended(blob, Dechunk(s, pos, remaining, crc))
    {
      var chunk, clen := TakeChunk(s, pos, remaining, crc);
      if chunk.Err? {
        AppendedError(blob, chunk.error);
        return Err(chunk.error), pos;
      }
      AppendTwice(blob, chunk.value, Dechunk(s, pos + 4 + clen, remaining - 4 - clen, crc));
      blob := blob + chunk.value;
      pos := pos + 4 + clen;
      remaining := remaining - (4 + clen);
    }
    AppendedNothing(blob);
    r := Ok(blob);
  }

  /** `chunk` is a piece that `Encode` cuts off in front of `rest`. */
  predicate CutsOff(chunk: seq<Byte>, rest: seq<Byte>) {
    |chunk| == CHUNK || (0 < |chunk| < CHUNK && rest == [])
  }

  lemma EncodeStep(chunk: seq<Byte>, rest: seq<Byte>, crc: Checksum)
    requires CutsOff(chunk, rest)
    ensures Encode(chunk + rest, crc) == Le32(crc(chunk)) + chunk + Encode(rest, crc)
  {
    var data := chunk + rest;
    assert data[..|chunk|] == chunk && data[|chunk|..] == rest;
  }

  /** Where the parts of an encoded area stand. */
  lemma AreaHead(before: seq<Byte>, head: seq<Byte>, chunk: seq<Byte>, rest: seq<Byte>, after: seq<Byte>)
    requires |head| == 4
    ensures var s, p := before + (head + chunk + rest) + after, |before|;
            && s == before + head + chunk + rest + after && p + 4 <= |s|
            && s[p..p + 4] == head && Slice(s, p + 4, p + 4 + |chunk|) == chunk
  {
  }

  lemma {:induction false} EncodeLength(data: seq<Byte>, crc: Checksum)
    ensures data != [] ==> |Encode(data, crc)| > 4
  {
  }

  /** What `Encode` cuts off first. */
  lemma FirstPiece(data: seq<Byte>, crc: Checksum) returns (chunk: seq<Byte>, rest: seq<Byte>)
    requires data != []
    ensures data == chunk + rest && 0 < |chunk| <= CHUNK && (|chunk| < CHUNK ==> rest == [])
    ensures Encode(data, crc) == Le32(crc(chunk)) + chunk + Encode(rest, crc)
    ensures rest == [] ==> Encode(rest, crc) == []
  {
    var n := if |data| < CHUNK then |data| else CHUNK;
    chunk, rest := data[..n], data[n..];
    EncodeStep(chunk, rest, crc);
    hide Le32;
  }

  /** De-chunking undoes chunking, wherever the area stands. */
  lemma {:induction false} DechunkEncode(before: seq<Byte>, data: seq<Byte>, after: seq<Byte>, crc: Checksum)
    ensures var area := Encode(data, crc);
            Dechunk(before + area + after, |before|, |area|, crc) == Ok(data)
    decreases |data|
  {
    if data != [] {
      hide Slice, Le32, U32Of, Dechunk, Encode, CutsOff;
      var chunk, rest := FirstPiece(data, crc);
      EncodeLength(rest, crc);
      var head, area := Le32(crc(chunk)), Encode(data, crc);
      var s := before + area + after;
      U32OfLe32(crc(chunk));
      AreaHead(before, head, chunk, Encode(rest, crc), after);
      DechunkStep(s, |before|, |area|, crc);
      DechunkEncode(before + head + chunk, rest, after, crc);
    }
  }

  /** The last piece of an area of this size carries at least one byte. */
  predicate NoEmptyPiece(stored: nat) {
    stored % (CHUNK + 4) == 0 || stored % (CHUNK + 4) > 4
  }

  lemma NextPiece(stored: nat)
    requires stored > 0 && NoEmptyPiece(stored)
    ensures var clen := if stored - 4 < CHUNK then stored - 4 else CHUNK;
            0 < clen && 4 + clen <= stored && NoEmptyPiece(stored - 4 - clen) && (clen < CHUNK ==> stored == 4 + clen)
  {
    if stored >= CHUNK + 4 {
      ModUnique(stored - 4 - CHUNK, stored / (CHUNK + 4) - 1, stored % (CHUNK + 4), CHUNK + 4);
    }
  }

  lemma AreaSplit(s: seq<Byte>, pos: nat, clen: nat, stored: nat)
    requires 4 + clen <= stored && pos + stored <= |s|
    ensures Slice(s, pos + 4, pos + 4 + clen) == s[pos + 4..pos + 4 + clen]
    ensures s[pos..pos + stored] == s[pos..pos + 4] + s[pos + 4..pos + 4 + clen] + s[pos + 4 + clen..pos + stored]
  {
  }

  /** One accepted piece: its checksum word, its bytes and the accepted rest. */
  lemma AcceptedPiece(s: seq<Byte>, pos: nat, stored: nat, crc: Checksum) returns (chunk: seq<Byte>, rest: seq<Byte>)
    requires 0 < stored && pos + stored <= |s| && NoEmptyPiece(stored) && Dechunk(s, pos, stored, crc).Ok?
    ensures var tail := pos + 4 + |chunk|;
            var left := stored - 4 - |chunk|;
            && 0 <= left < stored && NoEmptyPiece(left) && CutsOff(chunk, rest)
            && Dechunk(s, tail, left, crc) == Ok(rest) && Dechunk(s, pos, stored, crc) == Ok(chunk + rest)
            && s[pos..pos + stored] == Le32(crc(chunk)) + chunk + s[tail..tail + left]
  {
    NextPiece(stored);
    var clen := if stored - 4 < CHUNK then stored - 4 else CHUNK;
    AreaSplit(s, pos, clen, stored);
    chunk := s[pos + 4..pos + 4 + clen];
    DechunkStep(s, pos, stored, crc);
    DechunkNothing(s, pos + 4 + clen, crc);
    hide Dechunk, Slice, NoEmptyPiece;
    Le32OfU32(s[pos..pos + 4]);
    rest := Dechunk(s, pos + 4 + clen, stored - 4 - clen, crc).value;
  }

  lemma EncodeNothing(crc: Checksum)
    ensures Encode([], crc) == []
  {
  }

  /** Accepting an area whose last piece is not empty reads back its chunked form. */
  lemma {:induction false} AcceptedIsEncoded(s: seq<Byte>, pos: nat, stored: nat, crc: Checksum)
    requires pos + stored <= |s| && NoEmptyPiece(stored)
    ensures var r := Dechunk(s, pos, stored, crc);
            r.Ok? ==> s[pos..pos + stored] == Encode(r.value, crc)
    decreases stored
  {
    hide *;
    if stored == 0 {
      DechunkNothing(s, pos, crc);
      EncodeNothing(crc);
    } else if Dechunk(s, pos, stored, crc).Ok? {
      var chunk, rest := AcceptedPiece(s, pos, stored, crc);
      AcceptedIsEncoded(s, pos + 4 + |chunk|, stored - 4 - |chunk|, crc);
      EncodeStep(chunk, rest, crc);
    }
  }

  /**
    In particular an area inside the data whose last piece is not empty is accepted
    exactly when it is the chunked form of the result.
  */
  lemma AcceptsEncoded(s: seq<Byte>, pos: nat, stored: nat, crc: Checksum, data: seq<Byte>)
    requires pos + stored <= |s| && NoEmptyPiece(stored)
    ensures Dechunk(s, pos, stored, crc) == Ok(data) <==> s[pos..pos + stored] == Encode(data, crc)
  {
    hide Dechunk, Encode;
    AcceptedIsEncoded(s, pos, stored, crc);
    DechunkEncode(s[..pos], data, s[pos + stored..], crc);
    assert s == s[..pos] + s[pos..pos + stored] + s[pos + stored..];
  }

  // ---------------------------------------------------------------------
  // Areas of any size, past the end of the data included
  // ---------------------------------------------------------------------

  /** Where the last piece of an area starts: after as many whole pieces as leave at least one byte. */
  function LastAt(stored: nat): (q: nat)
    ensures stored > 0 ==> q < stored <= q + CHUNK + 4
    ensures stored <= CHUNK + 4 ==> q == 0
    ensures stored > CHUNK + 4 ==> q >= CHUNK + 4
  {
    if stored <= CHUNK + 4 then 0 else CHUNK + 4 + LastAt(stored - CHUNK - 4)
  }

  /** What the input holds of the last piece's bytes: none of an empty piece, fewer when the area runs past the end. */
  function LastOf(s: seq<Byte>, pos: nat, stored: nat): seq<Byte>
    requires stored > 0
  {
    Slice(s, pos + LastAt(stored) + 4, pos + stored)
  }

  /** Before its last piece the area is the chunked form of `front`, and the last piece has its checksum. */
  predicate Fronted(s: seq<Byte>, pos: nat, stored: nat, crc: Checksum, front: seq<Byte>)
    requires stored > 0
  {
    var q := pos + LastAt(stored);
    && q + 4 <= |s| && s[pos..q] == Encode(front, crc)
    && U32Of(s[q..q + 4]) == crc(LastOf(s, pos, stored))
  }

  /** An area of one piece. */
  lemma OnePiece(s: seq<Byte>, pos: nat, stored: nat, crc: Checksum)
    requires 0 < stored <= CHUNK + 4
    ensures Dechunk(s, pos, stored, crc).Ok? <==> Fronted(s, pos, stored, crc, [])
    ensures Fronted(s, pos, stored, crc, []) ==> Dechunk(s, pos, stored, crc) == Ok([] + LastOf(s, pos, stored))
    ensures forall front :: Fronted(s, pos, stored, crc, front) ==> front == []
  {
    DechunkStep(s, pos, stored, crc);
    DechunkNothing(s, pos + stored, crc);
    EncodeNothing(crc);
    var last := Slice(s, pos + 4, pos + stored);
    AppendedNothing(last);
    assert stored <= 4 ==> last == [] && Slice(s, pos + 4, pos + stored) == [];
    assert [] + last == last;
    assert pos + 4 <= |s| ==> s[pos..pos] == [];
    forall front | Fronted(s, pos, stored, crc, front) ensures front == [] {
      EncodeLength(front, crc);
    }
    hide Dechunk, Slice, U32Of, Appended, Encode;
  }

  /** The first whole piece is in order. */
  predicate HeadOk(s: seq<Byte>, pos: nat, crc: Checksum, chunk: seq<Byte>) {
    && |chunk| == CHUNK && pos + CHUNK + 4 <= |s|
    && s[pos..pos + 4] == Le32(crc(chunk)) && s[pos + 4..pos + CHUNK + 4] == chunk
  }

  /** One whole piece more in front. */
  lemma FrontStep(s: seq<Byte>, pos: nat, stored: nat, crc: Checksum, chunk: seq<Byte>, front: seq<Byte>)
    requires stored > CHUNK + 4 && |chunk| == CHUNK
    ensures LastOf(s, pos, stored) == LastOf(s, pos + CHUNK + 4, stored - CHUNK - 4)
    ensures Fronted(s, pos, stored, crc, chunk + front)
            <==> Fronted(s, pos + CHUNK + 4, stored - CHUNK - 4, crc, front) && HeadOk(s, pos, crc, chunk)
  {
    var tail, q := pos + CHUNK + 4, pos + LastAt(stored);
    assert q == tail + LastAt(stored - CHUNK - 4);
    EncodeStep(chunk, front, crc);
    hide Encode, Le32, U32Of, Slice;
    if q + 4 <= |s| {
      ThreeParts(s, pos, CHUNK, q, Le32(crc(chunk)), chunk, Encode(front, crc));
    }
  }

  lemma ThreeParts(s: seq<Byte>, pos: nat, n: nat, q: nat, head: seq<Byte>, chunk: seq<Byte>, rest: seq<Byte>)
    requires pos + 4 + n <= q <= |s| && |head| == 4 && |chunk| == n
    ensures s[pos..q] == head + chunk + rest
            <==> s[pos..pos + 4] == head && s[pos + 4..pos + 4 + n] == chunk && s[pos + 4 + n..q] == rest
  {
    var x, y := s[pos..q], head + chunk + rest;
    assert x == s[pos..pos + 4] + s[pos + 4..pos + 4 + n] + s[pos + 4 + n..q];
    assert x[..4] == s[pos..pos + 4] && x[4..4 + n] == s[pos + 4..pos + 4 + n] && x[4 + n..] == s[pos + 4 + n..q];
    assert y[..4] == head && y[4..4 + n] == chunk && y[4 + n..] == rest;
  }

  lemma ShortFront(front: seq<Byte>, crc: Checksum)
    ensures |front| < CHUNK ==> |Encode(front, crc)| < CHUNK + 4
  {
    if front != [] && |front| < CHUNK {
      assert front[|front|..] == [];
    }
  }

  lemma FrontInside(s: seq<Byte>, pos: nat, stored: nat, crc: Checksum, front: seq<Byte>)
    requires stored > 0 && Fronted(s, pos, stored, crc, front)
    ensures pos + LastAt(stored) + 4 <= |s| && |Encode(front, crc)| == LastAt(stored)
  {
    hide Encode, U32Of, LastOf;
  }

  /** It is what de-chunking an area of more than one piece looks at first. */
  lemma DechunkFirst(s: seq<Byte>, pos: nat, stored: nat, crc: Checksum, chunk: seq<Byte>, rest: seq<Byte>,
          last: seq<Byte>)
    requires stored > CHUNK + 4 && HeadOk(s, pos, crc, chunk)
    requires Dechunk(s, pos + CHUNK + 4, stored - CHUNK - 4, crc) == Ok(rest + last)
    ensures Dechunk(s, pos, stored, crc) == Ok(chunk + rest + last)
  {
    U32OfLe32(crc(chunk));
    DechunkStep(s, pos, stored, crc);
    hide Dechunk, U32Of, Le32;
    assert chunk + (rest + last) == chunk + rest + last;
  }

  lemma FirstIsOk(s: seq<Byte>, pos: nat, stored: nat, crc: Checksum)
    requires stored > CHUNK + 4 && Dechunk(s, pos, stored, crc).Ok? && pos + CHUNK + 4 <= |s|
    ensures HeadOk(s, pos, crc, s[pos + 4..pos + CHUNK + 4])
  {
    Le32OfU32(s[pos..pos + 4]);
    DechunkStep(s, pos, stored, crc);
    hide Dechunk, U32Of, Le32, Appended;
  }

  lemma RestIsOk(s: seq<Byte>, pos: nat, stored: nat, crc: Checksum)
    requires stored > CHUNK + 4 && Dechunk(s, pos, stored, crc).Ok?
    ensures Dechunk(s, pos + CHUNK + 4, stored - CHUNK - 4, crc).Ok?
  {
  }

  /** One accepted piece in front of an accepted rest. */
  lemma AcceptedOn(s: seq<Byte>, pos: nat, stored: nat, crc: Checksum, more: seq<Byte>) returns (front: seq<Byte>)
    requires stored > CHUNK + 4 && Dechunk(s, pos, stored, crc).Ok?
    requires var tail, left := pos + CHUNK + 4, stored - CHUNK - 4;
             Fronted(s, tail, left, crc, more) && Dechunk(s, tail, left, crc) == Ok(more + LastOf(s, tail, left))
    ensures Fronted(s, pos, stored, crc, front) && Dechunk(s, pos, stored, crc) == Ok(front + LastOf(s, pos, stored))
  {
    hide *;
    var tail, left := pos + CHUNK + 4, stored - CHUNK - 4;
    FrontInside(s, tail, left, crc, more);
    FirstIsOk(s, pos, stored, crc);
    var chunk := s[pos + 4..tail];
    front := chunk + more;
    FrontStep(s, pos, stored, crc, chunk, more);
    DechunkFirst(s, pos, stored, crc, chunk, more, LastOf(s, tail, left));
  }

  /** What is accepted has a front. */
  lemma {:induction false} AcceptedHasFront(s: seq<Byte>, pos: nat, stored: nat, crc: Checksum)
    returns (front: seq<Byte>)
    requires stored > 0 && Dechunk(s, pos, stored, crc).Ok?
    ensures Fronted(s, pos, stored, crc, front) && Dechunk(s, pos, stored, crc) == Ok(front + LastOf(s, pos, stored))
    decreases stored
  {
    if stored <= CHUNK + 4 {
      front := [];
      OnePiece(s, pos, stored, crc);
      hide *;
    } else {
      hide *;
      RestIsOk(s, pos, stored, crc);
      var more := AcceptedHasFront(s, pos + CHUNK + 4, stored - CHUNK - 4, crc);
      front := AcceptedOn(s, pos, stored, crc, more);
    }
  }

  /** A front of more than one piece starts with a whole one. */
  lemma FrontPiece(s: seq<Byte>, pos: nat, stored: nat, crc: Checksum, front: seq<Byte>)
    returns (chunk: seq<Byte>, more: seq<Byte>)
    requires stored > CHUNK + 4 && Fronted(s, pos, stored, crc, front)
    ensures |chunk| == CHUNK && front == chunk + more
  {
    FrontInside(s, pos, stored, crc, front);
    ShortFront(front, crc);
    chunk, more := front[..CHUNK], front[CHUNK..];
    hide *;
  }

  /** What has a front is accepted. */
  lemma {:induction false} FrontIsAccepted(s: seq<Byte>, pos: nat, stored: nat, crc: Checksum, front: seq<Byte>)
    requires stored > 0 && Fronted(s, pos, stored, crc, front)
    ensures Dechunk(s, pos, stored, crc) == Ok(front + LastOf(s, pos, stored))
    decreases stored
  {
    if stored <= CHUNK + 4 {
      OnePiece(s, pos, stored, crc);
      hide *;
    } else {
      hide *;
      var chunk, more := FrontPiece(s, pos, stored, crc, front);
      var tail, left := pos + CHUNK + 4, stored - CHUNK - 4;
      FrontStep(s, pos, stored, crc, chunk, more);
      FrontIsAccepted(s, tail, left, crc, more);
      DechunkFirst(s, pos, stored, crc, chunk, more, LastOf(s, tail, left));
    }
  }

  /**
    What de-chunking accepts, for every place and size: exactly the areas whose
    whole pieces before the last are chunked data and whose last piece, empty or cut
    off by the end of the input though it may be, has the checksum of what is there;
    the result is that data and that piece.
  */
  lemma AcceptsExactly(s: seq<Byte>, pos: nat, stored: nat, crc: Checksum, data: seq<Byte>)
    ensures stored == 0 ==> Dechunk(s, pos, stored, crc) == Ok([])
    ensures stored > 0 ==>
      (Dechunk(s, pos, stored, crc) == Ok(data)
       <==> exists front :: Fronted(s, pos, stored, crc, front) && data == front + LastOf(s, pos, stored))
  {
    hide Fronted, LastOf;
    if stored > 0 {
      if Dechunk(s, pos, stored, crc) == Ok(data) {
        var front := AcceptedHasFront(s, pos, stored, crc);
      }
      forall front | Fronted(s, pos, stored, crc, front)
        ensures Dechunk(s, pos, stored, crc) == Ok(front + LastOf(s, pos, stored))
      {
        FrontIsAccepted(s, pos, stored, crc, front);
      }
    }
    hide *;
  }

  // ---------------------------------------------------------------------
  // The whole header stream
  // ---------------------------------------------------------------------

  /** What a block contributes: its bytes, decompressed when the flag says so. */
  function Payload(blob: seq<Byte>, compressed: Byte, inflate: Inflate): Result<seq<Byte>, Error> {
    if compressed == 0 then Ok(blob)
    else if |blob| < 5 then Err(Truncated)
    else match inflate(U32Of(blob[1..5]), blob[5..])
      case None => Err(BadLzma)
      case Some(data) => Ok(data)
  }

  /**
    A block whose flag is zero contributes its bytes; any other is handed to the
    decompressor, with the dictionary size that the second to fifth byte give, lowest
    first, and the bytes after them, and has too few bytes below five.
  */
  lemma PayloadMeans(blob: seq<Byte>, compressed: Byte, inflate: Inflate)
    ensures Payload(blob, 0, inflate) == Ok(blob)
    ensures compressed > 0 && |blob| <= 4 ==> Payload(blob, compressed, inflate) == Err(Truncated)
    ensures compressed > 0 && |blob| > 4 ==>
      var size := blob[1] as nat + 256 * blob[2] as nat + 65536 * blob[3] as nat + 16777216 * blob[4] as nat;
      Payload(blob, compressed, inflate)
      == match inflate(size, blob[5..]) case None => Err(BadLzma) case Some(data) => Ok(data)
  {
    if |blob| > 4 {
      var b := blob[1..5];
      assert b[0] == blob[1] && b[1] == blob[2] && b[2] == blob[3] && b[3] == blob[4];
    }
  }

  /** No header left, the empty header, or a header checksum mismatch: the end of the blocks. */
  predicate EndsAt(s: seq<Byte>, pos: nat, crc: Checksum) {
    || pos + 9 > |s|
    || (U32Of(s[pos + 4..pos + 8]) == 0 && s[pos + 8] == 0)
    || crc(s[pos + 4..pos + 9]) != U32Of(s[pos..pos + 4])
  }

  function Blocks(s: seq<Byte>, pos: nat, crc: Checksum, inflate: Inflate): Result<seq<Byte>, Error>
    decreases if pos <= |s| then |s| - pos else 0
  {
    if EndsAt(s, pos, crc) then Ok([])
    else
      var stored := U32Of(s[pos + 4..pos + 8]);
      match Dechunk(s, pos + 9, stored, crc)
      case Err(e) => Err(e)
      case Ok(blob) =>
        match Payload(blob, s[pos + 8], inflate)
        case Err(e) => Err(e)
        case Ok(data) => Appended(data, Blocks(s, pos + 9 + stored, crc, inflate))
  }

  lemma BlocksStep(s: seq<Byte>, pos: nat, crc: Checksum, inflate: Inflate)
    ensures EndsAt(s, pos, crc) ==> Blocks(s, pos, crc, inflate) == Ok([])
    ensures !EndsAt(s, pos, crc) ==>
      var stored := U32Of(s[pos + 4..pos + 8]);
      var blob := Dechunk(s, pos + 9, stored, crc);
      if blob.Err? then Blocks(s, pos, crc, inflate) == Err(blob.error)
      else
        var data := Payload(blob.value, s[pos + 8], inflate);
        if data.Err? then Blocks(s, pos, crc, inflate) == Err(data.error)
        else Blocks(s, pos, crc, inflate) == Appended(data.value, Blocks(s, pos + 9 + stored, crc, inflate))
  {
  }

  /** One block after its header was accepted: what it contributes and where the next one starts. */
  method TakeBlock(s: seq<Byte>, pos: nat, crc: Checksum, inflate: Inflate)
    returns (r: Result<seq<Byte>, Error>, next: nat)
    requires !EndsAt(s, pos, crc)
    ensures next > pos + 8
    ensures match r
            case Err(e) => Blocks(s, pos, crc, inflate) == Err(e)
            case Ok(data) => Blocks(s, pos, crc, inflate) == Appended(data, Blocks(s, next, crc, inflate))
  {
    BlocksStep(s, pos, crc, inflate);
    hide Dechunk, Payload, Appended, U32Of, Blocks;
    var stored, compressed := U32Of(s[pos + 4..pos + 8]), s[pos + 8];
    var blob, end := DechunkArea(s, pos + 9, stored, crc);
    if blob.Err? {
      return Err(blob.error), pos + 9;
    }
    r, next := Payload(blob.value, compressed, inflate), end;
  }

  lemma EndMeans(s: seq<Byte>, pos: nat, crc: Checksum)
    requires pos + 9 <= |s|
    ensures EndsAt(s, pos, crc)
            <==> (U32Of(s[pos + 4..pos + 8]) == 0 && s[pos + 8] == 0)
                 || crc(s[pos + 4..pos + 9]) != U32Of(s[pos..pos + 4])
  {
  }

  method DechunkSetup0(data: seq<Byte>, base: nat, crc: Checksum, inflate: Inflate)
    returns (r: Result<seq<Byte>, Error>)
    ensures r == Blocks(if base <= |data| then data[base..] else [], PREFIX, crc, inflate)
  {
    var s := if base <= |data| then data[base..] else [];
    var pos := PREFIX;
    var out: seq<Byte> := [];
    ghost var want := Blocks(s, pos, crc, inflate);
    AppendNothing(want);
    hide *;
    while pos + 9 <= |s|
      invariant want == Appended(out, Blocks(s, pos, crc, inflate))
      decreases |s| - pos
    {
      EndMeans(s, pos, crc);
      var hdrCrc := U32Of(s[pos..pos + 4]);
      var stored, compressed := U32Of(s[pos + 4..pos + 8]), s[pos + 8];
      if stored == 0 && compressed == 0 {
        break;
      }
      if crc(s[pos + 4..pos + 9]) != hdrCrc {
        break;
      }
      var piece, next := TakeBlock(s, pos, crc, inflate);
      if piece.Err? {
        AppendedError(out, piece.error);
        return Err(piece.error);
      }
      AppendTwice(out, piece.value, Blocks(s, next, crc, inflate));
      out := out + piece.value;
      pos := next;
    }
    AtEnd(s, pos, crc, inflate);
    AppendedNothing(out);
    r := Ok(out);
  }

  lemma AtEnd(s: seq<Byte>, pos: nat, crc: Checksum, inflate: Inflate)
    ensures pos + 9 > |s| || EndsAt(s, pos, crc) ==> Blocks(s, pos, crc, inflate) == Ok([])
  {
  }

  datatype Block = Block(blob: seq<Byte>, compressed: Byte)

  /** A block the format can carry: its size fits 32 bits and it is not the end marker. */
  predicate Storable(b: Block, crc: Checksum) {
    |Encode(b.blob, crc)| < 0x1_0000_0000 && (b.blob != [] || b.compressed != 0)
  }

  function EncodeBlock(b: Block, crc: Checksum): seq<Byte>
    requires Storable(b, crc)
  {
    var header := Le32(|Encode(b.blob, crc)|) + [b.compressed];
    Le32(crc(header)) + header + Encode(b.blob, crc)
  }

  function EncodeBlocks(bs: seq<Block>, crc: Checksum): seq<Byte>
    requires forall b :: b in bs ==> Storable(b, crc)
  {
    if bs == [] then [] else EncodeBlock(bs[0], crc) + EncodeBlocks(bs[1..], crc)
  }

  function Payloads(bs: seq<Block>, inflate: Inflate): Result<seq<Byte>, Error> {
    if bs == [] then Ok([])
    else match Payload(bs[0].blob, bs[0].compressed, inflate)
      case Err(e) => Err(e)
      case Ok(data) => Appended(data, Payloads(bs[1..], inflate))
  }

  lemma BlockHeader(before: seq<Byte>, b: Block, after: seq<Byte>, crc: Checksum)
    requires Storable(b, crc)
    ensures var s, p := before + EncodeBlock(b, crc) + after, |before|;
            && !EndsAt(s, p, crc)
            && s[p + 8] == b.compressed && U32Of(s[p + 4..p + 8]) == |Encode(b.blob, crc)|
            && s == before + EncodeBlock(b, crc)[..9] + Encode(b.blob, crc) + after
            && |EncodeBlock(b, crc)| == 9 + |Encode(b.blob, crc)|
  {
    var area := Encode(b.blob, crc);
    EncodeLength(b.blob, crc);
    hide Encode;
    var size := Le32(|area|);
    var header := size + [b.compressed];
    var check := Le32(crc(header));
    U32OfLe32(|area|);
    U32OfLe32(crc(header));
    hide Le32, U32Of;
    var s, p := before + EncodeBlock(b, crc) + after, |before|;
    assert EncodeBlock(b, crc)[..9] == check + header;
    assert s == before + check + size + [b.compressed] + area + after;
    assert s[p..p + 4] == check && s[p + 4..p + 8] == size && s[p + 8] == b.compressed;
    assert s[p + 4..p + 9] == header;
  }

  /** De-chunking a stream of blocks returns their payloads, up to any recognised end. */
  lemma {:induction false} BlocksDecode(
    before: seq<Byte>, bs: seq<Block>, trailer: seq<Byte>, crc: Checksum, inflate: Inflate)
    requires (forall b :: b in bs ==> Storable(b, crc)) && EndsAt(trailer, 0, crc)
    ensures Blocks(before + EncodeBlocks(bs, crc) + trailer, |before|, crc, inflate) == Payloads(bs, inflate)
    decreases |bs|
  {
    hide Dechunk, Payload, Encode, U32Of, Blocks;
    var s := before + EncodeBlocks(bs, crc) + trailer;
    if bs == [] {
      BlocksStep(s, |before|, crc, inflate);
      EndShift(before, trailer, crc);
      assert s == before + trailer;
    } else {
      var b, rest := bs[0], EncodeBlocks(bs[1..], crc);
      var area, after, next := Encode(b.blob, crc), rest + trailer, before + EncodeBlock(b, crc);
      assert s == before + EncodeBlock(b, crc) + after && s == next + rest + trailer;
      BlockHeader(before, b, after, crc);
      DechunkEncode(before + EncodeBlock(b, crc)[..9], b.blob, after, crc);
      BlocksStep(s, |before|, crc, inflate);
      hide *;
      BlocksDecode(next, bs[1..], trailer, crc, inflate);
    }
  }

  /**
    The whole stream: 64 bytes of setup id, a checksum of four, the 49-byte
    encryption header, then the blocks up to any recognised end.
  */
  lemma StreamDecodes(id: seq<Byte>, check: seq<Byte>, encryption: seq<Byte>, bs: seq<Block>, trailer: seq<Byte>,
          crc: Checksum, inflate: Inflate)
    requires |id| == 64 && |check| == 4 && |encryption| == 49
    requires (forall b :: b in bs ==> Storable(b, crc)) && EndsAt(trailer, 0, crc)
    ensures Blocks(id + check + encryption + EncodeBlocks(bs, crc) + trailer, PREFIX, crc, inflate)
            == Payloads(bs, inflate)
  {
    BlocksDecode(id + check + encryption, bs, trailer, crc, inflate);
    hide *;
  }

  lemma EndShift(before: seq<Byte>, trailer: seq<Byte>, crc: Checksum)
    requires EndsAt(trailer, 0, crc)
    ensures EndsAt(before + trailer, |before|, crc)
  {
    var s, p := before + trailer, |before|;
    if p + 9 <= |s| {
      assert s[p + 4..p + 8] == trailer[4..8] && s[p + 4..p + 9] == trailer[4..9] && s[p..p + 4] == trailer[0..4];
    }
  }

  // ---------------------------------------------------------------------
  // Files of the solid chunk
  // ---------------------------------------------------------------------

  /** A file to extract: its suboffset in the stream, its stored size and its flags. */
  datatype Target = Target(sub: nat, orig: nat, flags: nat)

  /** The blob of a target as installed on disk. */
  function Installed(blob: seq<Byte>, flags: nat): seq<Byte> {
    if flags / CALL_OPTIMIZED % 2 == 1 then CallTransform.Stored(blob, false, 0) else blob
  }

  /** Call-optimized files, those with the third lowest flag bit, are decoded; all others are installed as stored. */
  lemma InstalledMeans(blob: seq<Byte>, high: nat, low: nat)
    requires low < 8
    ensures Installed(blob, 8 * high + low) == if low >= 4 then CallTransform.Stored(blob, false, 0) else blob
  {
    ModUnique(8 * high + low, 2 * high + low / 4, low % 4, 4);
    ModUnique(2 * high + low / 4, high, low / 4, 2);
  }

  /** The stored sizes of the first `k` targets: where the sequential cutter stands. */
  function Start(targets: seq<Target>, k: nat): nat
    requires k <= |targets|
  {
    if k == 0 then 0 else Start(targets, k - 1) + targets[k - 1].orig
  }

  predicate Tiles(targets: seq<Target>, stream: seq<Byte>) {
    && Start(targets, |targets|) <= |stream|
    && forall k :: 0 <= k < |targets| ==> targets[k].sub == Start(targets, k)
  }

  lemma {:induction false} StartMonotone(targets: seq<Target>, j: nat, k: nat)
    requires j <= k <= |targets|
    ensures Start(targets, j) <= Start(targets, k)
    decreases k
  {
    if j < k { StartMonotone(targets, j, k - 1); }
  }

  lemma FlattenSplit(pieces: seq<seq<Byte>>, k: nat)
    requires k < |pieces|
    ensures Flatten(pieces[k..]) == pieces[k] + Flatten(pieces[k + 1..])
  {
    assert pieces[k..][1..] == pieces[k + 1..];
  }

  /** Everything of the stream from `at` on is in `pending` or in pieces still to come. */
  predicate Standing(stream: seq<Byte>, at: nat, pending: seq<Byte>, pieces: seq<seq<Byte>>, next: nat) {
    at <= |stream| && next <= |pieces| && pending + Flatten(pieces[next..]) == stream[at..]
  }

  /** Fills `pending` until the target fits or the pieces end, and cuts the target off. */
  method TakeFile(t: Target, pending0: seq<Byte>, pieces: seq<seq<Byte>>, next0: nat, ghost stream: seq<Byte>,
          ghost at: nat)
    returns (blob: seq<Byte>, pending: seq<Byte>, next: nat)
    requires Standing(stream, at, pending0, pieces, next0)
    ensures |blob| <= t.orig && (|blob| < t.orig <==> |stream| < at + t.orig)
    ensures |blob| < t.orig ==> at <= |stream| && blob == stream[at..]
    ensures |blob| == t.orig ==> blob == stream[at..at + t.orig] && Standing(stream, at + t.orig, pending, pieces, next)
  {
    pending, next := pending0, next0;
    ghost var rest := stream[at..];
    while |pending| < t.orig && next < |pieces|
      invariant next <= |pieces| && pending + Flatten(pieces[next..]) == rest
    {
      FlattenSplit(pieces, next);
      assert pending + (pieces[next] + Flatten(pieces[next + 1..]))
             == pending + pieces[next] + Flatten(pieces[next + 1..]);
      pending := pending + pieces[next];
      next := next + 1;
    }
    assert next == |pieces| ==> pieces[next..] == [];
    if t.orig <= |pending| {
      blob, pending := pending[..t.orig], pending[t.orig..];
      assert rest[..t.orig] == stream[at..at + t.orig] && rest[t.orig..] == stream[at + t.orig..];
    } else {
      blob, pending := pending, [];
    }
  }

  /** The `k`-th file is the slice at its start, as installed. */
  predicate CutAt(targets: seq<Target>, k: nat, stream: seq<Byte>, file: seq<Byte>)
    requires k < |targets|
  {
    && Start(targets, k) + targets[k].orig <= |stream|
    && file == Installed(stream[Start(targets, k)..Start(targets, k) + targets[k].orig], targets[k].flags)
  }

  /** The stream ends inside the `k`-th file: what is there of it, as installed. */
  predicate ShortAt(targets: seq<Target>, k: nat, stream: seq<Byte>, file: seq<Byte>)
    requires k < |targets|
  {
    && Start(targets, k) <= |stream| < Start(targets, k + 1)
    && file == Installed(stream[Start(targets, k)..], targets[k].flags)
  }

  /** Cuts and decodes the `i`-th target; `short` says the stream ended inside it. */
  method CutFile(targets: seq<Target>, i: nat, pending0: seq<Byte>, pieces: seq<seq<Byte>>, next0: nat,
                 ghost stream: seq<Byte>)
    returns (short: bool, file: seq<Byte>, pending: seq<Byte>, next: nat)
    requires i < |targets| && Standing(stream, Start(targets, i), pending0, pieces, next0)
    ensures short <==> |stream| < Start(targets, i + 1)
    ensures short ==> ShortAt(targets, i, stream, file)
    ensures !short ==> CutAt(targets, i, stream, file) && Standing(stream, Start(targets, i + 1), pending, pieces, next)
  {
    hide Standing, CallTransform.Stored;
    StartStep(targets, i);
    var t := targets[i];
    file, pending, next := TakeFile(t, pending0, pieces, next0, stream, Start(targets, i));
    short := |file| < t.orig;
    if t.flags / CALL_OPTIMIZED % 2 == 1 {
      file := CallTransform.DecodeStored(file, true);
    }
  }

  /**
    Cuts the targets, in order, out of a decompressor's output that arrives in
    arbitrary pieces; `truncated` says the stream ended inside one of them, which is
    then the last file written and holds what there was.
  */
  method ExtractFiles(targets: seq<Target>, pieces: seq<seq<Byte>>)
    returns (files: seq<seq<Byte>>, truncated: bool)
    ensures truncated <==> Start(targets, |targets|) > |Flatten(pieces)|
    ensures !truncated ==>
      |files| == |targets| && (forall k :: 0 <= k < |targets| ==> CutAt(targets, k, Flatten(pieces), files[k]))
    ensures truncated ==>
      && 0 < |files| <= |targets|
      && (forall k :: 0 <= k < |files| - 1 ==> CutAt(targets, k, Flatten(pieces), files[k]))
      && ShortAt(targets, |files| - 1, Flatten(pieces), files[|files| - 1])
    ensures |files| <= |targets|
    ensures Repacked(targets, files)
            == if truncated then Flatten(pieces) else Flatten(pieces)[..Start(targets, |targets|)]
  {
    ghost var stream := Flatten(pieces);
    var pending: seq<Byte> := [];
    var next: nat := 0;
    files, truncated := [], false;
    assert pieces[0..] == pieces && [] + stream == stream && stream[0..] == stream;
    assert Standing(stream, 0, pending, pieces, 0);
    hide *;
    NoneCut(targets, stream);
    StartStep(targets, |targets|);
    for i := 0 to |targets|
      invariant |files| == i && Standing(stream, Start(targets, i), pending, pieces, next)
      invariant AllCut(targets, files, stream) && Start(targets, i) <= |stream|
    {
      var file;
      truncated, file, pending, next := CutFile(targets, i, pending, pieces, next, stream);
      if truncated {
        StartMonotone(targets, i + 1, |targets|);
        AllCutMeans(targets, files, stream);
        TruncatedAreStream(targets, files, stream, file);
        files := files + [file];
        return;
      }
      MoreCut(targets, files, stream, file);
      files := files + [file];
    }
    AllCutMeans(targets, files, stream);
    FilesAreStream(targets, files, stream);
  }

  ghost predicate AllCut(targets: seq<Target>, files: seq<seq<Byte>>, stream: seq<Byte>) {
    |files| <= |targets| && forall k :: 0 <= k < |files| ==> CutAt(targets, k, stream, files[k])
  }

  // ---------------------------------------------------------------------
  // Nothing is lost
  // ---------------------------------------------------------------------

  /** An installed file as it was stored. */
  function Packed(file: seq<Byte>, flags: nat): seq<Byte> {
    if flags / 4 % 2 == 1 then CallTransform.Stored(file, true, 0) else file
  }

  /** The files as they were stored, one after the other. */
  function Repacked(targets: seq<Target>, files: seq<seq<Byte>>): seq<Byte>
    requires |files| <= |targets|
  {
    if files == [] then []
    else
      var n := |files| - 1;
      Repacked(targets, files[..n]) + Packed(files[n], targets[n].flags)
  }

  lemma RepackedMore(targets: seq<Target>, files: seq<seq<Byte>>, file: seq<Byte>)
    requires |files| < |targets|
    ensures Repacked(targets, files + [file]) == Repacked(targets, files) + Packed(file, targets[|files|].flags)
  {
    assert (files + [file])[..|files|] == files;
  }

  lemma PackedInstalled(blob: seq<Byte>, flags: nat)
    ensures Packed(Installed(blob, flags), flags) == blob && |Installed(blob, flags)| == |blob|
  {
    CallTransform.StoredInverse(blob, false, 0);
    hide CallTransform.Stored;
  }

  lemma LastCut(targets: seq<Target>, files: seq<seq<Byte>>, stream: seq<Byte>)
    requires AllCut(targets, files, stream) && files != []
    ensures var n := |files| - 1;
            && AllCut(targets, files[..n], stream) && Start(targets, n) <= Start(targets, n + 1) <= |stream|
            && files[n] == Installed(stream[Start(targets, n)..Start(targets, n + 1)], targets[n].flags)
  {
    assert CutAt(targets, |files| - 1, stream, files[|files| - 1]);
    hide Installed;
  }

  /** Files cut off in order are, put back into their stored form, the stream up to where the cutter stands. */
  lemma {:induction false} FilesAreStream(targets: seq<Target>, files: seq<seq<Byte>>, stream: seq<Byte>)
    requires AllCut(targets, files, stream) && |files| <= |targets| && Start(targets, |files|) <= |stream|
    ensures Repacked(targets, files) == stream[..Start(targets, |files|)]
    decreases |files|
  {
    hide AllCut, Installed, Packed;
    if files == [] {
      assert stream[..0] == [];
    } else {
      var n := |files| - 1;
      LastCut(targets, files, stream);
      var a, e := Start(targets, n), Start(targets, n + 1);
      FilesAreStream(targets, files[..n], stream);
      PackedInstalled(stream[a..e], targets[n].flags);
      assert stream[..a] + stream[a..e] == stream[..e];
    }
  }

  /** Of a stream that ended early the files hold everything. */
  lemma TruncatedAreStream(targets: seq<Target>, files: seq<seq<Byte>>, stream: seq<Byte>, file: seq<Byte>)
    requires AllCut(targets, files, stream) && |files| < |targets| && ShortAt(targets, |files|, stream, file)
    ensures Repacked(targets, files + [file]) == stream
  {
    hide AllCut, Installed, Packed, Repacked;
    FilesAreStream(targets, files, stream);
    RepackedMore(targets, files, file);
    var a := Start(targets, |files|);
    PackedInstalled(stream[a..], targets[|files|].flags);
    assert stream[..a] + stream[a..] == stream;
  }

  lemma NoneCut(targets: seq<Target>, stream: seq<Byte>)
    ensures AllCut(targets, [], stream)
  {
  }

  lemma AllCutMeans(targets: seq<Target>, files: seq<seq<Byte>>, stream: seq<Byte>)
    requires AllCut(targets, files, stream)
    ensures |files| <= |targets| && forall k :: 0 <= k < |files| ==> CutAt(targets, k, stream, files[k])
  {
  }

  lemma StartStep(targets: seq<Target>, i: nat)
    requires i <= |targets|
    ensures Start(targets, 0) == 0
    ensures i < |targets| ==> Start(targets, i + 1) == Start(targets, i) + targets[i].orig
  {
  }

  lemma MoreCut(targets: seq<Target>, files: seq<seq<Byte>>, stream: seq<Byte>, file: seq<Byte>)
    requires AllCut(targets, files, stream) && |files| < |targets| && CutAt(targets, |files|, stream, file)
    ensures AllCut(targets, files + [file], stream)
  {
    hide CutAt;
  }

  /** When the file locations tile the stream, each file is cut at its own location. */
  method ExtractTiled(targets: seq<Target>, pieces: seq<seq<Byte>>) returns (files: seq<seq<Byte>>)
    requires Tiles(targets, Flatten(pieces))
    ensures |files| == |targets| && forall k :: 0 <= k < |targets| ==>
      var t := targets[k];
      && t.sub + t.orig <= |Flatten(pieces)|
      && files[k] == Installed(Flatten(pieces)[t.sub..t.sub + t.orig], t.flags)
  {
    var truncated;
    files, truncated := ExtractFiles(targets, pieces);
    forall k | 0 <= k < |targets|
      ensures targets[k].sub + targets[k].orig <= |Flatten(pieces)|
      ensures files[k] == Installed(Flatten(pieces)[targets[k].sub..targets[k].sub + targets[k].orig], targets[k].flags)
    {
      assert CutAt(targets, k, Flatten(pieces), files[k]) && targets[k].sub == Start(targets, k);
    }
  }
}
