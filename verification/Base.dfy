/** Types shared by every component: bytes, optional values and failures. */
module Base {
  newtype Byte = x: int | 0 <= x < 256

  datatype Option<+T> = None | Some(value: T)

  datatype Result<+R, +E> = Ok(value: R) | Err(error: E)

  /** The concatenation of a sequence of pieces. */
  function Flatten<T>(pieces: seq<seq<T>>): seq<T> {
    if pieces == [] then [] else pieces[0] + Flatten(pieces[1..])
  }

  lemma ModUnique(x: int, q: int, r: int, m: nat)
    requires 0 <= r < m && x == m * q + r
    ensures x % m == r && x / m == q
  {
    var d := x / m - q;
    assert m * d == r - x % m;
    assert m * d >= m || m * d <= -(m as int) || d == 0;
  }

  // ---------------------------------------------------------------------
  // Little-endian 32-bit words
  // ---------------------------------------------------------------------

  type U32 = x: nat | x < 0x1_0000_0000

  function U32Of(b: seq<Byte>): U32
    requires |b| == 4
  {
    b[0] as nat + 0x100 * b[1] as nat + 0x1_0000 * b[2] as nat + 0x100_0000 * b[3] as nat
  }

  function Le32(v: U32): (b: seq<Byte>)
    ensures |b| == 4
  {
    [(v % 0x100) as Byte, (v / 0x100 % 0x100) as Byte, (v / 0x1_0000 % 0x100) as Byte, (v / 0x100_0000) as Byte]
  }

  lemma U32OfLe32(v: U32)
    ensures U32Of(Le32(v)) == v
  {
    var x := v / 0x100;
    var y := x / 0x100;
    ModUnique(v, y, 0x100 * (x % 0x100) + v % 0x100, 0x1_0000);
    ModUnique(v, y / 0x100, 0x1_0000 * (y % 0x100) + 0x100 * (x % 0x100) + v % 0x100, 0x100_0000);
  }

  lemma Le32OfU32(b: seq<Byte>)
    requires |b| == 4
    ensures Le32(U32Of(b)) == b
  {
    var v, b0, b1, b2, b3 := U32Of(b), b[0] as nat, b[1] as nat, b[2] as nat, b[3] as nat;
    ModUnique(v, b1 + 0x100 * b2 + 0x1_0000 * b3, b0, 0x100);
    ModUnique(b1 + 0x100 * b2 + 0x1_0000 * b3, b2 + 0x100 * b3, b1, 0x100);
    ModUnique(v, b2 + 0x100 * b3, b0 + 0x100 * b1, 0x1_0000);
    ModUnique(b2 + 0x100 * b3, b3, b2, 0x100);
    ModUnique(v, b3, b0 + 0x100 * b1 + 0x1_0000 * b2, 0x100_0000);
  }
}
