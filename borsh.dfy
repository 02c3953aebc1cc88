/** Primitive Borsh encoding: bytes, fixed-width integers (little-endian),
    booleans and 32-byte keys, with their round-trip lemmas. */
module Borsh {

  import opened Wrappers

  type Byte = b: int | 0 <= b < 256

  const KEY_LEN: nat := 32
  /** A `Pubkey` or a `[u8; 32]` key. */
  type Key = s: seq<Byte> | |s| == KEY_LEN witness Zeros(32)

  /** `Pubkey::default()`: the all-zero key, also the system program's id. */
  const ZERO_KEY: Key := Zeros(32)

  const U32_LIMIT: nat := 0x1_0000_0000
  const U64_LIMIT: nat := 0x1_0000_0000_0000_0000
  const I64_HALF: nat := 0x8000_0000_0000_0000

  type U32 = x: int | 0 <= x < U32_LIMIT
  type U64 = x: int | 0 <= x < U64_LIMIT
  type I64 = x: int | -0x8000_0000_0000_0000 <= x < 0x8000_0000_0000_0000

  /** A `Vec<u8>`: Borsh prefixes its length as a u32, so it holds fewer than 2^32 bytes. */
  type ByteVec = s: seq<Byte> | |s| < U32_LIMIT

  function Zeros(n: nat): (r: seq<Byte>)
    ensures |r| == n
    ensures forall i :: 0 <= i < n ==> r[i] == 0
  {
    seq(n, _ => 0)
  }

  function Pow256(n: nat): (r: nat)
    ensures r > 0
  {
    if n == 0 then 1 else 256 * Pow256(n - 1)
  }

  lemma Pow256Widths()
    ensures Pow256(4) == U32_LIMIT
    ensures Pow256(8) == U64_LIMIT
  {
    assert Pow256(1) == 256;
    assert Pow256(2) == 0x1_0000;
    assert Pow256(3) == 0x100_0000;
    assert Pow256(4) == 0x1_0000_0000;
    assert Pow256(5) == 0x100_0000_0000;
    assert Pow256(6) == 0x1_0000_0000_0000;
    assert Pow256(7) == 0x100_0000_0000_0000;
  }

  /** The `n` little-endian bytes of `x` (least significant byte first). */
  function LeBytes(x: nat, n: nat): (r: seq<Byte>)
    ensures |r| == n
  {
    if n == 0 then [] else [x % 256] + LeBytes(x / 256, n - 1)
  }

  /** The unsigned value of little-endian bytes; always below 256^|s|. */
  function LeValue(s: seq<Byte>): (r: nat)
    ensures r < Pow256(|s|)
  {
    if s == [] then 0
    else
      var rest := LeValue(s[1..]);
      assert 256 * rest <= 256 * (Pow256(|s| - 1) - 1);
      s[0] + 256 * rest
  }

  lemma {:induction false} LeValueOfLeBytes(x: nat, n: nat)
    requires x < Pow256(n)
    ensures LeValue(LeBytes(x, n)) == x
  {
    if n > 0 {
      var s := LeBytes(x, n);
      assert s[1..] == LeBytes(x / 256, n - 1);
      LeValueOfLeBytes(x / 256, n - 1);
    }
  }

  lemma {:induction false} LeBytesOfLeValue(s: seq<Byte>)
    ensures LeBytes(LeValue(s), |s|) == s
  {
    if s != [] {
      var v := LeValue(s);
      var rest := LeValue(s[1..]);
      assert v % 256 == s[0] && v / 256 == rest;
      LeBytesOfLeValue(s[1..]);
      assert LeBytes(v, |s|) == [s[0]] + s[1..];
    }
  }

  lemma {:induction false} LeValueOfZeros(n: nat)
    ensures LeValue(Zeros(n)) == 0
  {
    if n > 0 {
      assert Zeros(n)[1..] == Zeros(n - 1);
      LeValueOfZeros(n - 1);
    }
  }

  /** Peeling the last field off a record: when the first |a| + |b| bytes of
      `s` are `a + b`, the first |a| bytes are `a` and the next |b| are `b`. */
  lemma SplitField(a: seq<Byte>, b: seq<Byte>, s: seq<Byte>)
    requires |a| + |b| <= |s| && s[..|a| + |b|] == a + b
    ensures s[..|a|] == a && s[|a|..|a| + |b|] == b
  {
    assert s[..|a|] == s[..|a| + |b|][..|a|];
    assert s[|a|..|a| + |b|] == s[..|a| + |b|][|a|..];
  }

  /** The converse of `SplitField`: a prefix `a` followed by a field `b`
      makes up the first |a| + |b| bytes. */
  lemma JoinField(a: seq<Byte>, b: seq<Byte>, s: seq<Byte>)
    requires |a| + |b| <= |s| && s[..|a|] == a && s[|a|..|a| + |b|] == b
    ensures s[..|a| + |b|] == a + b
  {
    assert s[..|a| + |b|] == s[..|a|] + s[|a|..|a| + |b|];
  }

  /** Two's-complement encoding of an `i64`, as Borsh writes it. */
  function I64Bytes(x: I64): (r: seq<Byte>)
    ensures |r| == 8
  {
    LeBytes(if x < 0 then x + U64_LIMIT else x, 8)
  }

  function I64Value(s: seq<Byte>): I64
    requires |s| == 8
  {
    Pow256Widths();
    var v := LeValue(s);
    if v >= I64_HALF then v - U64_LIMIT else v
  }

  lemma I64RoundTrip(x: I64)
    ensures I64Value(I64Bytes(x)) == x
  {
    Pow256Widths();
    LeValueOfLeBytes(if x < 0 then x + U64_LIMIT else x, 8);
  }

  lemma I64Canonical(s: seq<Byte>)
    requires |s| == 8
    ensures I64Bytes(I64Value(s)) == s
  {
    Pow256Widths();
    LeBytesOfLeValue(s);
  }

  function U64Bytes(x: U64): (r: seq<Byte>)
    ensures |r| == 8
  {
    LeBytes(x, 8)
  }

  function U64Value(s: seq<Byte>): U64
    requires |s| == 8
  {
    Pow256Widths();
    LeValue(s)
  }

  lemma U64RoundTrip(x: U64)
    ensures U64Value(U64Bytes(x)) == x
  {
    Pow256Widths();
    LeValueOfLeBytes(x, 8);
  }

  lemma U64Canonical(s: seq<Byte>)
    requires |s| == 8
    ensures U64Bytes(U64Value(s)) == s
  {
    LeBytesOfLeValue(s);
  }

  function U32Bytes(x: U32): (r: seq<Byte>)
    ensures |r| == 4
  {
    LeBytes(x, 4)
  }

  function U32Value(s: seq<Byte>): U32
    requires |s| == 4
  {
    Pow256Widths();
    LeValue(s)
  }

  lemma U32RoundTrip(x: U32)
    ensures U32Value(U32Bytes(x)) == x
  {
    Pow256Widths();
    LeValueOfLeBytes(x, 4);
  }

  lemma U32Canonical(s: seq<Byte>)
    requires |s| == 4
    ensures U32Bytes(U32Value(s)) == s
  {
    LeBytesOfLeValue(s);
  }

  /** Borsh writes `true` as 1 and `false` as 0 ... */
  function BoolByte(b: bool): Byte
  {
    if b then 1 else 0
  }

  /** ... and refuses any other byte when reading a `bool`. */
  function ByteBool(b: Byte): (r: Option<bool>)
    ensures r.Some? <==> b < 2
    ensures r.Some? ==> BoolByte(r.value) == b
  {
    if b == 0 then Some(false) else if b == 1 then Some(true) else None
  }
}
