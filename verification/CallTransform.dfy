/**
  The Inno Setup call-instruction transform (tools/inno661/calltransform.py).

  `TransformBlock` is the in-place loop that serves both directions, and
  `DecodeStored` drives it over 64 KB blocks with a wrapping 32-bit offset.
  Both are proved equal to the suffix-recursive specification `Xf`; the laws
  (inverse, same sites, untouched bytes, meaning of one operand, block
  independence) are then lemmas about the specification.
*/
module CallTransform {
  import opened Base

  const BLOCK: nat := 65536
  const W24: nat := 0x100_0000
  const W32: nat := 0x1_0000_0000
  const SIGN24: nat := 0x80_0000

  predicate IsBranch(op: Byte) { op == 0xE8 || op == 0xE9 }

  /** The unsigned value of three little-endian bytes. */
  function Low24(b0: Byte, b1: Byte, b2: Byte): (v: nat)
    ensures v < W24
  {
    b0 as nat + 0x100 * b1 as nat + 0x1_0000 * b2 as nat
  }

  /** Bit 23, the sign of a 24-bit operand. */
  predicate SignBit(rel: nat) { rel / SIGN24 % 2 == 1 }

  /** The four stored bytes of a 24-bit value under a high byte. */
  function Bytes(w: nat, high: Byte): (r: seq<Byte>)
    requires w < W24
    ensures |r| == 4
  {
    [(w % 0x100) as Byte, (w / 0x100 % 0x100) as Byte, (w / 0x1_0000) as Byte, high]
  }

  /** The 24-bit operand moved between relative and absolute form. */
  function Moved(v: nat, encode: bool, addr: nat): (w: nat)
    ensures w < W24
  {
    (if encode then v + addr else v - addr) % W24
  }

  /** The high byte is complemented when the relative form is negative. */
  function Flipped(v: nat, high: Byte, encode: bool, addr: nat): Byte {
    if (if encode then v else Moved(v, false, addr)) >= SIGN24 then 255 - high else high
  }

  /** One operand as stored (four bytes), rewritten for next-instruction address `addr`. */
  function Operand(o: seq<Byte>, encode: bool, addr: nat): (r: seq<Byte>)
    requires |o| == 4
    ensures |r| == 4
  {
    if o[3] != 0x00 && o[3] != 0xFF then o else
    var v := Low24(o[0], o[1], o[2]);
    Bytes(Moved(v, encode, addr), Flipped(v, o[3], encode, addr))
  }

  /** The whole scan over a suffix `s` whose first byte sits at address `addr`. */
  function Xf(s: seq<Byte>, encode: bool, addr: nat): (r: seq<Byte>)
    ensures |r| == |s|
  {
    if |s| < 5 then s
    else if IsBranch(s[0]) then
      [s[0]] + Operand(s[1..5], encode, addr + 5) + Xf(s[5..], encode, addr + 5)
    else
      [s[0]] + Xf(s[1..], encode, addr + 1)
  }

  // ---------------------------------------------------------------------
  // The loop
  // ---------------------------------------------------------------------

  /** The operand rewrite inside the loop: `i` is the first operand byte. */
  method RewriteOperand(buf: array<Byte>, i: nat, encode: bool, addrOffset: nat)
    requires i + 4 <= buf.Length
    modifies buf
    ensures buf[..i] == old(buf[..i]) && buf[i + 4..] == old(buf[i + 4..])
    ensures buf[i..i + 4] == Operand(old(buf[i..i + 4]), encode, addrOffset + i + 4)
  {
    hide Low24, Bytes, Moved, Flipped, SignBit;
    ghost var o := buf[i..i + 4];
    assert o[0] == buf[i] && o[1] == buf[i + 1] && o[2] == buf[i + 2] && o[3] == buf[i + 3];
    if buf[i + 3] == 0x00 || buf[i + 3] == 0xFF {
      var addr := (addrOffset + i + 4) % W24;
      var rel := Low24(buf[i], buf[i + 1], buf[i + 2]);
      MachineArithmetic(rel, buf[i + 3], encode, addrOffset + i + 4);
      if !encode {
        rel := (rel - addr) % W32;
      }
      if SignBit(rel) {
        buf[i + 3] := 255 - buf[i + 3];
      }
      if encode {
        rel := (rel + addr) % W32;
      }
      buf[i] := (rel % 0x100) as Byte;
      buf[i + 1] := (rel / 0x100 % 0x100) as Byte;
      buf[i + 2] := (rel / 0x1_0000 % 0x100) as Byte;
      assert buf[i..i + 4] == [buf[i], buf[i + 1], buf[i + 2], buf[i + 3]];
    }
  }

  lemma ScanStep(s: seq<Byte>, encode: bool, addr: nat)
    ensures |s| < 5 ==> Xf(s, encode, addr) == s
    ensures |s| >= 5 && !IsBranch(s[0]) ==>
      Xf(s, encode, addr) == [s[0]] + Xf(s[1..], encode, addr + 1)
    ensures |s| >= 5 && IsBranch(s[0]) ==>
      Xf(s, encode, addr) == [s[0]] + Operand(s[1..5], encode, addr + 5) + Xf(s[5..], encode, addr + 5)
  {
    hide Operand;
  }

  /** The loop invariant: done up to `i`, and the rest still transforms to the rest. */
  ghost predicate Scanned(b: seq<Byte>, want: seq<Byte>, i: nat, encode: bool, addr: nat) {
    && i <= |b| == |want|
    && b[..i] == want[..i]
    && Xf(b[i..], encode, addr + i) == want[i..]
  }

  lemma Advance(b: seq<Byte>, c: seq<Byte>, want: seq<Byte>, i: nat, encode: bool, addr: nat)
    requires Scanned(b, want, i, encode, addr) && i + 5 <= |b| == |c| && c[..i + 1] == b[..i + 1]
    requires if IsBranch(b[i])
             then c[i + 1..i + 5] == Operand(b[i + 1..i + 5], encode, addr + i + 5) && c[i + 5..] == b[i + 5..]
             else c[i + 1..] == b[i + 1..]
    ensures Scanned(c, want, if IsBranch(b[i]) then i + 5 else i + 1, encode, addr)
  {
    hide Operand, Xf, IsBranch;
    var s, w := b[i..], want[i..];
    ScanStep(s, encode, addr + i);
    assert w[0] == s[0] == c[i];
    if IsBranch(b[i]) {
      SliceShift(b, i, 0);
      SliceShift(want, i, 0);
      assert c[..i + 5] == c[..i] + [c[i]] + c[i + 1..i + 5];
      assert want[..i + 5] == want[..i] + [want[i]] + want[i + 1..i + 5];
      assert s[5..] == b[i + 5..] && w[5..] == want[i + 5..];
    } else {
      assert s[1..] == b[i + 1..] && w[1..] == want[i + 1..];
    }
  }

  lemma SliceOfPrefix(s: seq<Byte>, n: nat, k: nat)
    requires k + 5 <= n <= |s|
    ensures s[..n][k + 1..k + 5] == s[k + 1..k + 5]
  {
  }

  lemma SliceShift(s: seq<Byte>, m: nat, k: nat)
    requires m + k + 5 <= |s|
    ensures s[m + k + 1..m + k + 5] == s[m..][k + 1..k + 5]
  {
  }

  method TransformBlock(buf: array<Byte>, encode: bool, addrOffset: nat)
    modifies buf
    ensures buf[..] == Xf(old(buf[..]), encode, addrOffset)
  {
    ghost var want := Xf(buf[..], encode, addrOffset);
    if buf.Length < 5 {
      return;
    }
    var size := buf.Length - 4;
    var i := 0;
    assert Scanned(buf[..], want, 0, encode, addrOffset) by { assert buf[..][0..] == buf[..]; }
    hide *;
    while i < size
      invariant 0 <= i <= buf.Length
      invariant Scanned(buf[..], want, i, encode, addrOffset)
    {
      ghost var was, at := buf[..], i;
      var op := buf[i];
      if IsBranch(op) {
        i := i + 1;
        RewriteOperand(buf, i, encode, addrOffset);
        i := i + 4;
      } else {
        i := i + 1;
      }
      Advance(was, buf[..], want, at, encode, addrOffset);
    }
    assert buf[..] == want by { ScannedAll(buf[..], want, i, encode, addrOffset); }
  }

  lemma ScannedAll(b: seq<Byte>, want: seq<Byte>, i: nat, encode: bool, addr: nat)
    requires Scanned(b, want, i, encode, addr) && |b| < i + 5
    ensures b == want
  {
    assert b == b[..i] + b[i..] && want == want[..i] + want[i..];
  }

  /** One block of the blockwise driver after another, the address running on unwrapped. */
  function Stored(s: seq<Byte>, encode: bool, addr: nat): (r: seq<Byte>)
    ensures |r| == |s|
  {
    if |s| <= BLOCK then Xf(s, encode, addr)
    else Xf(s[..BLOCK], encode, addr) + Stored(s[BLOCK..], encode, addr + BLOCK)
  }

  method Slice(out: array<Byte>, off: nat, end: nat) returns (block: array<Byte>)
    requires off <= end <= out.Length
    ensures fresh(block) && block[..] == out[off..end]
  {
    block := new Byte[end - off](i requires 0 <= i < end - off reads out => out[off + i]);
  }

  method Store(out: array<Byte>, off: nat, block: array<Byte>)
    requires off + block.Length <= out.Length && out != block
    modifies out
    ensures out[..off] == old(out[..off]) && out[off..off + block.Length] == block[..]
    ensures out[off + block.Length..] == old(out[off + block.Length..])
  {
    forall k | off <= k < off + block.Length {
      out[k] := block[k - off];
    }
  }

  lemma SplitAt(s: seq<Byte>, off: nat, end: nat)
    requires off <= end <= |s|
    ensures s[..end] == s[..off] + s[off..end]
    ensures s[off..][..end - off] == s[off..end] && s[off..][end - off..] == s[end..]
  {
  }

  lemma StoredStep(s: seq<Byte>, encode: bool, addr: nat)
    ensures |s| <= BLOCK ==> Stored(s, encode, addr) == Xf(s, encode, addr)
    ensures |s| > BLOCK ==>
      Stored(s, encode, addr)[..BLOCK] == Xf(s[..BLOCK], encode, addr)
      && Stored(s, encode, addr)[BLOCK..] == Stored(s[BLOCK..], encode, addr + BLOCK)
  {
    hide Xf;
  }

  method DecodeStored(blob: seq<Byte>, callOptimized: bool) returns (r: seq<Byte>)
    ensures r == if callOptimized then Stored(blob, false, 0) else blob
  {
    hide Xf, Stored;
    if !callOptimized {
      return blob;
    }
    ghost var want := Stored(blob, false, 0);
    var out := new Byte[|blob|](i requires 0 <= i < |blob| => blob[i]);
    var addrOffset: nat := 0;
    var off := 0;
    while off < out.Length
      invariant 0 <= off <= out.Length == |want| == |blob|
      invariant addrOffset % W24 == off % W24
      invariant out[..off] == want[..off] && out[off..] == blob[off..]
      invariant Stored(blob[off..], false, off) == want[off..]
    {
      StoredStep(blob[off..], false, off);
      var end := if off + BLOCK < out.Length then off + BLOCK else out.Length;
      var block := Slice(out, off, end);
      ghost var todo := blob[off..];
      assert block[..] == todo[..end - off];
      assert |todo| <= BLOCK ==> todo[..end - off] == todo && want[off..][..end - off] == want[off..];
      AddressWraps(block[..], false, addrOffset, off);
      TransformBlock(block, false, addrOffset);
      Store(out, off, block);
      assert block[..] == want[off..][..end - off];
      WrapKeepsLow24(addrOffset, off, block.Length);
      addrOffset := (addrOffset + block.Length) % W32;
      SplitAt(blob, off, end);
      SplitAt(want, off, end);
      SplitAt(out[..], off, end);
      assert out[..off] == out[..][..off] && out[off..end] == out[..][off..end] && out[..end] == out[..][..end];
      off := end;
    }
    r := out[..];
  }

  // ---------------------------------------------------------------------
  // One operand
  // ---------------------------------------------------------------------

  /** The little-endian signed 32-bit displacement the processor reads. */
  function Displacement(o: seq<Byte>): int
    requires |o| == 4
  {
    var u := Low24(o[0], o[1], o[2]) + W24 * o[3] as nat;
    if u < W32 / 2 then u else u - W32
  }

  lemma Mod32To24(x: int)
    ensures x % W32 % W24 == x % W24
  {
    var q, r := x / W32, x % W32;
    ModUnique(x, 0x100 * q + r / W24, r % W24, W24);
  }

  lemma SignBitIsHigh(x: nat)
    ensures SignBit(x) <==> x % W24 >= SIGN24
  {
    var q, r := x / W24, x % W24;
    var h := if r < SIGN24 then 0 else 1;
    ModUnique(x, 2 * q + h, r - h * SIGN24, SIGN24);
  }

  lemma LowBytes(w: nat, high: Byte)
    ensures [(w % 0x100) as Byte, (w / 0x100 % 0x100) as Byte, (w / 0x1_0000 % 0x100) as Byte, high]
            == Bytes(w % W24, high)
  {
    var q, r := w / W24, w % W24;
    ModUnique(w, 0x1_0000 * q + r / 0x100, r % 0x100, 0x100);
    ModUnique(w / 0x100, 0x100 * q + r / 0x1_0000, r / 0x100 % 0x100, 0x100);
    ModUnique(w, 0x100 * q + r / 0x1_0000, r % 0x1_0000, 0x1_0000);
  }

  /** The 32-bit arithmetic of the loop computes the 24-bit move and the flip. */
  lemma MachineArithmetic(v: nat, high: Byte, encode: bool, addr: nat)
    requires v < W24
    ensures var tested := if encode then v else (v - addr % W24) % W32;
            var rel := if encode then (v + addr % W24) % W32 else tested;
            var hi := if SignBit(tested) then 255 - high else high;
            [(rel % 0x100) as Byte, (rel / 0x100 % 0x100) as Byte, (rel / 0x1_0000 % 0x100) as Byte, hi]
            == Bytes(Moved(v, encode, addr), Flipped(v, high, encode, addr))
  {
    var x := if encode then v + addr % W24 else v - addr % W24;
    var y := if encode then v + addr else v - addr;
    var q := addr / W24;
    ModUnique(y, x / W24 + (if encode then q else -q), x % W24, W24);
    Mod32To24(x);
    var tested := if encode then v else x % W32;
    SignBitIsHigh(tested);
    LowBytes(x % W32, if SignBit(tested) then 255 - high else high);
  }

  /** Reading the four bytes back. */
  lemma BytesOf(w: nat, high: Byte)
    requires w < W24
    ensures var r := Bytes(w, high); Low24(r[0], r[1], r[2]) == w
  {
  }

  lemma BytesUnique(o: seq<Byte>)
    requires |o| == 4
    ensures Bytes(Low24(o[0], o[1], o[2]), o[3]) == o
  {
    var v := Low24(o[0], o[1], o[2]);
    var b0, b1, b2 := o[0] as nat, o[1] as nat, o[2] as nat;
    ModUnique(v, b1 + 0x100 * b2, b0, 0x100);
    ModUnique(b1 + 0x100 * b2, b2, b1, 0x100);
    ModUnique(v, b2, b0 + 0x100 * b1, 0x1_0000);
  }

  lemma MovedBack(v: nat, encode: bool, addr: nat)
    requires v < W24
    ensures Moved(Moved(v, encode, addr), !encode, addr) == v
  {
    var x := if encode then v + addr else v - addr;
    var w := x % W24;
    var back := if encode then w - addr else w + addr;
    ModUnique(back, -(x / W24), v, W24);
  }

  lemma OperandInverse(o: seq<Byte>, encode: bool, addr: nat)
    requires |o| == 4
    ensures Operand(Operand(o, encode, addr), !encode, addr) == o
  {
    if o[3] == 0x00 || o[3] == 0xFF {
      var v := Low24(o[0], o[1], o[2]);
      BytesOf(Moved(v, encode, addr), Flipped(v, o[3], encode, addr));
      MovedBack(v, encode, addr);
      BytesUnique(o);
    }
  }

  /**
    A site stored with high byte 0x00 decodes to the one displacement in
    [-2^23, 2^23) that leads from the next instruction to the stored target.
  */
  lemma DecodedTarget(o: seq<Byte>, addr: nat, d: int)
    requires |o| == 4 && o[3] == 0x00 && -(SIGN24 as int) <= d < SIGN24
    ensures (d + addr) % W24 == Low24(o[0], o[1], o[2]) <==> d == Displacement(Operand(o, false, addr))
  {
    var v := Low24(o[0], o[1], o[2]);
    var w := Moved(v, false, addr);
    BytesOf(w, Flipped(v, 0, false, addr));
    var e := if w < SIGN24 then w else w - W24;
    assert e == Displacement(Operand(o, false, addr)) by { hide Moved, Bytes, Low24; }
    DisplacementUnique(v, w, addr, d);
  }

  lemma DisplacementUnique(v: nat, w: nat, addr: nat, d: int)
    requires v < W24 && w == (v - addr) % W24 && -(SIGN24 as int) <= d < SIGN24
    ensures (d + addr) % W24 == v <==> d == if w < SIGN24 then w else w - W24
  {
    var k := if w < SIGN24 then 0 else 1;
    var e := w - W24 * k;
    var q := (v - addr) / W24;
    ModUnique(e + addr, -k - q, v, W24);
    if (d + addr) % W24 == v {
      var j := (d + addr) / W24;
      assert d - e == W24 * (j + k + q);
    }
  }

  /** Encoding reaches high byte 0x00 on exactly the sign-extended 24-bit operands. */
  lemma EncodedHighByte(o: seq<Byte>, addr: nat)
    requires |o| == 4 && (o[3] == 0x00 || o[3] == 0xFF)
    ensures Operand(o, true, addr)[3] == 0x00 <==> -(SIGN24 as int) <= Displacement(o) < SIGN24
    ensures Operand(o, true, addr)[3] == 0xFF <==> !(-(SIGN24 as int) <= Displacement(o) < SIGN24)
  {
    BytesOf(Moved(Low24(o[0], o[1], o[2]), true, addr), o[3]);
  }

  // ---------------------------------------------------------------------
  // A whole block
  // ---------------------------------------------------------------------

  /** Opcode positions the scan visits, counted from `at`. */
  function Sites(s: seq<Byte>, at: nat): set<nat> {
    if |s| < 5 then {}
    else if IsBranch(s[0]) then {at} + Sites(s[5..], at + 5)
    else Sites(s[1..], at + 1)
  }

  predicate InOperand(sites: set<nat>, k: nat) {
    exists p :: p in sites && p < k <= p + 4
  }

  lemma {:induction false} SitesInside(s: seq<Byte>, at: nat)
    ensures forall p :: p in Sites(s, at) ==> at <= p && p + 5 <= at + |s|
  {
    if |s| >= 5 {
      if IsBranch(s[0]) { SitesInside(s[5..], at + 5); } else { SitesInside(s[1..], at + 1); }
    }
  }

  /** The scan visits exactly the CALL and JMP bytes that no earlier operand covers and that have one behind them. */
  lemma {:induction false} SitesExactly(s: seq<Byte>, at: nat, k: nat)
    requires k < |s|
    ensures at + k in Sites(s, at)
            <==> (s[k] == 0xE8 || s[k] == 0xE9) && k + 4 < |s| && !InOperand(Sites(s, at), at + k)
  {
    if |s| >= 5 {
      var n := if IsBranch(s[0]) then 5 else 1;
      SitesInside(s[n..], at + n);
      var rest := Sites(s[n..], at + n);
      assert IsBranch(s[0]) ==> at in Sites(s, at) && (0 < k <= 4 ==> InOperand(Sites(s, at), at + k));
      if k >= n {
        SitesExactly(s[n..], at + n, k - n);
        assert InOperand(Sites(s, at), at + k) <==> InOperand(rest, at + k) by {
          assert forall p :: p in Sites(s, at) && p != at ==> p in rest;
        }
      }
      hide Sites;
    }
  }

  lemma {:induction false} BlockInverse(s: seq<Byte>, encode: bool, addr: nat)
    ensures Xf(Xf(s, encode, addr), !encode, addr) == s
  {
    if |s| >= 5 {
      var r := Xf(s, encode, addr);
      if IsBranch(s[0]) {
        OperandInverse(s[1..5], encode, addr + 5);
        BlockInverse(s[5..], encode, addr + 5);
        assert r[1..5] == Operand(s[1..5], encode, addr + 5);
        assert r[5..] == Xf(s[5..], encode, addr + 5);
        assert s == [s[0]] + s[1..5] + s[5..];
      } else {
        BlockInverse(s[1..], encode, addr + 1);
        assert r[1..] == Xf(s[1..], encode, addr + 1);
        assert s == [s[0]] + s[1..];
      }
    }
  }

  lemma {:induction false} SameSites(s: seq<Byte>, encode: bool, addr: nat, at: nat)
    ensures Sites(Xf(s, encode, addr), at) == Sites(s, at)
  {
    if |s| >= 5 {
      var r := Xf(s, encode, addr);
      if IsBranch(s[0]) {
        SameSites(s[5..], encode, addr + 5, at + 5);
        assert r[5..] == Xf(s[5..], encode, addr + 5);
      } else {
        SameSites(s[1..], encode, addr + 1, at + 1);
        assert r[1..] == Xf(s[1..], encode, addr + 1);
      }
    }
  }

  /** What the scan does to a visited operand. */
  lemma {:induction false} AtSite(s: seq<Byte>, encode: bool, addr: nat, at: nat, p: nat)
    requires p in Sites(s, at)
    ensures at <= p && p + 5 <= at + |s|
    ensures var k := p - at;
            Xf(s, encode, addr)[k + 1..k + 5] == Operand(s[k + 1..k + 5], encode, addr + k + 5)
  {
    hide Operand, Xf;
    SitesInside(s, at);
    var r, k := Xf(s, encode, addr), p - at;
    ScanStep(s, encode, addr);
    if IsBranch(s[0]) {
      if p > at {
        AtSite(s[5..], encode, addr + 5, at + 5, p);
        assert r[5..] == Xf(s[5..], encode, addr + 5);
        SliceShift(r, 5, k - 5);
        SliceShift(s, 5, k - 5);
      } else {
        SitesInside(s[5..], at + 5);
      }
    } else {
      SitesInside(s[1..], at + 1);
      AtSite(s[1..], encode, addr + 1, at + 1, p);
      assert r[1..] == Xf(s[1..], encode, addr + 1);
      SliceShift(r, 1, k - 1);
      SliceShift(s, 1, k - 1);
    }
  }

  /** Every byte outside a visited operand is kept. */
  lemma {:induction false} OffSite(s: seq<Byte>, encode: bool, addr: nat, at: nat, k: nat)
    requires k < |s| && !InOperand(Sites(s, at), at + k)
    ensures Xf(s, encode, addr)[k] == s[k]
  {
    if |s| >= 5 && k > 0 {
      if IsBranch(s[0]) {
        assert at in Sites(s, at);
        OffSite(s[5..], encode, addr + 5, at + 5, k - 5);
      } else {
        OffSite(s[1..], encode, addr + 1, at + 1, k - 1);
      }
    }
  }

  lemma SameLow24(a: int, b: int, k: int)
    requires a % W24 == b % W24
    ensures (a + k) % W24 == (b + k) % W24 && (k - a) % W24 == (k - b) % W24
  {
    var d := a / W24 - b / W24;
    ModUnique(a + k, d + (b + k) / W24, (b + k) % W24, W24);
    ModUnique(k - a, (k - b) / W24 - d, (k - b) % W24, W24);
  }

  lemma SameLow24Operand(o: seq<Byte>, encode: bool, a: nat, b: nat)
    requires |o| == 4 && a % W24 == b % W24
    ensures Operand(o, encode, a) == Operand(o, encode, b)
  {
    hide Bytes, Low24;
    var v := Low24(o[0], o[1], o[2]);
    SameLow24(a, b, v);
  }

  /** Only the low 24 bits of the running address matter, so a 2^32 wrap is invisible. */
  lemma {:induction false} AddressWraps(s: seq<Byte>, encode: bool, a: nat, b: nat)
    requires a % W24 == b % W24
    ensures Xf(s, encode, a) == Xf(s, encode, b)
  {
    if |s| >= 5 {
      if IsBranch(s[0]) {
        SameLow24(a, b, 5);
        SameLow24Operand(s[1..5], encode, a + 5, b + 5);
        AddressWraps(s[5..], encode, a + 5, b + 5);
      } else {
        SameLow24(a, b, 1);
        AddressWraps(s[1..], encode, a + 1, b + 1);
      }
    }
  }

  lemma WrapKeepsLow24(a: nat, off: nat, n: nat)
    requires a % W24 == off % W24
    ensures (a + n) % W32 % W24 == (off + n) % W24
  {
    Mod32To24(a + n);
    SameLow24(a, off, n);
  }

  // ---------------------------------------------------------------------
  // Whole files, block by block
  // ---------------------------------------------------------------------

  /** Opcode positions visited in a whole file: the scan restarts at every block. */
  function FileSites(s: seq<Byte>, at: nat): set<nat> {
    if |s| <= BLOCK then Sites(s, at)
    else Sites(s[..BLOCK], at) + FileSites(s[BLOCK..], at + BLOCK)
  }

  lemma {:induction false} FileSitesInside(s: seq<Byte>, at: nat)
    ensures forall p :: p in FileSites(s, at) ==> at <= p && p + 5 <= at + |s|
    decreases |s|
  {
    if |s| <= BLOCK {
      SitesInside(s, at);
    } else {
      SitesInside(s[..BLOCK], at);
      FileSitesInside(s[BLOCK..], at + BLOCK);
    }
  }

  /**
    In a whole file: a position is visited exactly if it holds a CALL or JMP byte, no
    visited operand covers it, and four more bytes follow in its block of 65536.
  */
  lemma {:induction false} VisitedExactly(s: seq<Byte>, at: nat, k: nat)
    requires k < |s|
    ensures var last := if (k / 65536 + 1) * 65536 < |s| then (k / 65536 + 1) * 65536 else |s|;
            at + k in FileSites(s, at)
            <==> (s[k] == 0xE8 || s[k] == 0xE9) && k + 4 < last && !InOperand(FileSites(s, at), at + k)
    decreases |s|
  {
    if |s| <= BLOCK {
      SitesExactly(s, at, k);
    } else {
      var first, rest := Sites(s[..BLOCK], at), FileSites(s[BLOCK..], at + BLOCK);
      SitesInside(s[..BLOCK], at);
      FileSitesInside(s[BLOCK..], at + BLOCK);
      assert FileSites(s, at) == first + rest;
      hide FileSites, Sites;
      if k < BLOCK {
        SitesExactly(s[..BLOCK], at, k);
        assert InOperand(first + rest, at + k) <==> InOperand(first, at + k);
      } else {
        VisitedExactly(s[BLOCK..], at + BLOCK, k - BLOCK);
        assert InOperand(first + rest, at + k) <==> InOperand(rest, at + k);
      }
    }
  }

  /** Decoding and encoding a stored file are inverse bijections on files of every length. */
  lemma {:induction false} StoredInverse(s: seq<Byte>, encode: bool, addr: nat)
    ensures Stored(Stored(s, encode, addr), !encode, addr) == s
  {
    if |s| <= BLOCK {
      BlockInverse(s, encode, addr);
    } else {
      var r := Stored(s, encode, addr);
      BlockInverse(s[..BLOCK], encode, addr);
      StoredInverse(s[BLOCK..], encode, addr + BLOCK);
      assert r[..BLOCK] == Xf(s[..BLOCK], encode, addr);
      assert r[BLOCK..] == Stored(s[BLOCK..], encode, addr + BLOCK);
      assert s == s[..BLOCK] + s[BLOCK..];
    }
  }

  /**
    The operand of the opcode at absolute index `p` is rewritten for the
    address `p + 5` of the next instruction, whichever block it falls in.
  */
  lemma {:induction false} FileAtSite(s: seq<Byte>, encode: bool, at: nat, p: nat)
    requires p in FileSites(s, at)
    ensures at <= p && p + 5 <= at + |s|
    ensures Stored(s, encode, at)[p - at + 1..p - at + 5] == Operand(s[p - at + 1..p - at + 5], encode, p + 5)
  {
    hide Operand, Xf, Stored, Sites;
    var k := p - at;
    StoredStep(s, encode, at);
    if |s| <= BLOCK {
      AtSite(s, encode, at, at, p);
    } else {
      var r := Stored(s, encode, at);
      if p in Sites(s[..BLOCK], at) {
        AtSite(s[..BLOCK], encode, at, at, p);
        SliceOfPrefix(r, BLOCK, k);
        SliceOfPrefix(s, BLOCK, k);
      } else {
        FileAtSite(s[BLOCK..], encode, at + BLOCK, p);
        SliceShift(r, BLOCK, k - BLOCK);
        SliceShift(s, BLOCK, k - BLOCK);
      }
    }
  }

  /** Bytes of a file outside every visited operand are kept. */
  lemma {:induction false} FileOffSite(s: seq<Byte>, encode: bool, at: nat, k: nat)
    requires k < |s| && !InOperand(FileSites(s, at), at + k)
    ensures Stored(s, encode, at)[k] == s[k]
  {
    if |s| <= BLOCK {
      OffSite(s, encode, at, at, k);
    } else if k < BLOCK {
      OffSite(s[..BLOCK], encode, at, at, k);
    } else {
      FileOffSite(s[BLOCK..], encode, at + BLOCK, k - BLOCK);
    }
  }

  /** Decoding then scanning again visits the same opcodes: the basis of the inverse. */
  lemma {:induction false} FileSameSites(s: seq<Byte>, encode: bool, at: nat)
    ensures FileSites(Stored(s, encode, at), at) == FileSites(s, at)
  {
    if |s| <= BLOCK {
      SameSites(s, encode, at, at);
    } else {
      var r := Stored(s, encode, at);
      SameSites(s[..BLOCK], encode, at, at);
      FileSameSites(s[BLOCK..], encode, at + BLOCK);
      assert r[..BLOCK] == Xf(s[..BLOCK], encode, at);
      assert r[BLOCK..] == Stored(s[BLOCK..], encode, at + BLOCK);
    }
  }
}
