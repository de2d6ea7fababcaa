/** Fixed-width integer sample types and their native (little-endian)
    two's-complement byte encoding, as numpy lays them out in a raw file. */
module Samples {
  import Arith

  type byte = x: int | 0 <= x < 256

  datatype Dtype = Int8 | UInt8 | Int16 | UInt16 | Int32 | UInt32 | Int64 | UInt64

  /** Bytes per element (numpy's `itemsize`). */
  function ItemSize(d: Dtype): (n: nat)
    ensures n == 1 || n == 2 || n == 4 || n == 8
  {
    match d
    case Int8 | UInt8 => 1
    case Int16 | UInt16 => 2
    case Int32 | UInt32 => 4
    case Int64 | UInt64 => 8
  }

  predicate Signed(d: Dtype)
  {
    d.Int8? || d.Int16? || d.Int32? || d.Int64?
  }

  /** 256 to the power `n`. */
  function Pow256(n: nat): (p: nat)
    ensures p > 0
  {
    if n == 0 then 1 else 256 * Pow256(n - 1)
  }

  /** Number of distinct values of the type. */
  function Modulus(d: Dtype): (m: nat)
    ensures m == Pow256(ItemSize(d))
  {
    match d
    case Int8 | UInt8 => 0x100
    case Int16 | UInt16 => 0x1_0000
    case Int32 | UInt32 => 0x1_0000_0000
    case Int64 | UInt64 => 0x1_0000_0000_0000_0000
  }

  function MinValue(d: Dtype): int
  {
    if Signed(d) then -(Modulus(d) / 2) else 0
  }

  function MaxValue(d: Dtype): int
  {
    if Signed(d) then Modulus(d) / 2 - 1 else Modulus(d) - 1
  }

  predicate InRange(v: int, d: Dtype)
  {
    MinValue(d) <= v <= MaxValue(d)
  }

  /** The integer-to-integer cast of numpy's `astype`: the value is reduced
      modulo the type's size into the type's range (two's-complement
      wrap-around). */
  function Cast(v: int, d: Dtype): (r: int)
    ensures InRange(r, d)
    ensures (r - v) % Modulus(d) == 0
    ensures InRange(v, d) ==> r == v
  {
    var m := Modulus(d);
    var u := v % m;
    Arith.DivModUnique(u - v, m, -(v / m), 0);
    Arith.DivModUnique(u - m - v, m, -(v / m) - 1, 0);
    if Signed(d) && u >= m / 2 then u - m else u
  }

  /** The `n` low-order base-256 digits of `u`, least significant first. */
  function LittleEndian(u: nat, n: nat): (bs: seq<byte>)
    ensures |bs| == n
  {
    if n == 0 then [] else [u % 256] + LittleEndian(u / 256, n - 1)
  }

  function FromLittleEndian(bs: seq<byte>): (u: nat)
    ensures u < Pow256(|bs|)
  {
    if bs == [] then 0 else bs[0] + 256 * FromLittleEndian(bs[1..])
  }

  lemma {:induction false} LittleEndianRoundTrip(u: nat, n: nat)
    requires u < Pow256(n)
    ensures FromLittleEndian(LittleEndian(u, n)) == u
  {
    if n > 0 {
      LittleEndianRoundTrip(u / 256, n - 1);
      assert LittleEndian(u, n)[1..] == LittleEndian(u / 256, n - 1);
    }
  }

  /** The bytes numpy stores for element value `v` of type `d` (after the
      cast into the type). */
  function EncodeSample(v: int, d: Dtype): (bs: seq<byte>)
    ensures |bs| == ItemSize(d)
  {
    LittleEndian(Cast(v, d) % Modulus(d), ItemSize(d))
  }

  /** The element value that `ItemSize(d)` bytes denote under type `d`. */
  function DecodeSample(bs: seq<byte>, d: Dtype): (v: int)
    requires |bs| == ItemSize(d)
    ensures InRange(v, d)
  {
    var u := FromLittleEndian(bs);
    if Signed(d) && u >= Modulus(d) / 2 then u - Modulus(d) else u
  }

  /** Decoding the stored bytes of a value of the type gives the value. */
  lemma SampleRoundTrip(v: int, d: Dtype)
    requires InRange(v, d)
    ensures DecodeSample(EncodeSample(v, d), d) == v
  {
    var m := Modulus(d);
    LittleEndianRoundTrip(v % m, ItemSize(d));
  }
}
