/** The C++ `Keccak256` hasher: a 25-lane state, a 136-byte rate buffer filled
    byte by byte, pad10*1 padding with the Keccak domain byte 0x01, and a
    32-byte squeeze. The permutation is the one the code computes, which its
    own comment calls simplified; no claim of equality with Keccak-f[1600] as
    standardised in FIPS 202 is made. */
module Keccak {

  const LANES: nat := 25
  const RATE_BYTES: nat := 136
  const RATE_LANES: nat := 17
  const HASH_SIZE: nat := 32
  const ROUNDS: nat := 24

  /** The 24 round constants of the Iota step. */
  const RC: seq<bv64> := [
    0x0000000000000001, 0x0000000000008082, 0x800000000000808a,
    0x8000000080008000, 0x000000000000808b, 0x0000000080000001,
    0x8000000080008081, 0x8000000000008009, 0x000000000000008a,
    0x0000000000000088, 0x0000000080008009, 0x000000008000000a,
    0x000000008000808b, 0x800000000000008b, 0x8000000000008089,
    0x8000000000008003, 0x8000000000008002, 0x8000000000000080,
    0x000000000000800a, 0x800000008000000a, 0x8000000080008081,
    0x8000000000008080, 0x0000000080000001, 0x8000000080008008]

  // ---------------------------------------------------------------------------
  // Rotation

  /** `value << shift` on a lane; a shift of 64 or more gives 0. */
  function ShiftLeft(v: bv64, shift: bv8): bv64
  {
    if shift < 64 then v << shift else 0
  }

  /** `value >> shift` on a lane; a shift of 64 or more gives 0. */
  function ShiftRight(v: bv64, shift: bv8): bv64
  {
    if shift < 64 then v >> shift else 0
  }

  function Or(a: bv64, b: bv64): bv64
  {
    a | b
  }

  /** `rotateLeft(value, shift)`, for shifts below 64. For a shift of 0 the
      C++ expression shifts right by 64, which C++ leaves undefined; here that
      shift gives 0, so the rotation by 0 is the identity. */
  function RotateLeft(v: bv64, shift: bv8): (r: bv64)
  {
    Or(ShiftLeft(v, shift), ShiftRight(v, 64 - shift))
  }

  /** Rotating by 0 changes nothing; rotating by 1 is the builtin rotation. */
  lemma RotateLeftSmall(v: bv64)
    ensures RotateLeft(v, 0) == v
    ensures RotateLeft(v, 1) == v.RotateLeft(1)
  {
  }

  // ---------------------------------------------------------------------------
  // The permutation, step by step, on a state of 25 lanes (lane x + 5y).

  /** `a ^ b` on two lanes. The lane operations of the permutation are named
      functions, shared by its definition and by the methods that compute it. */
  function Xor(a: bv64, b: bv64): bv64
  {
    a ^ b
  }

  /** `(~a) & b`, the nonlinear part of Chi. */
  function AndNot(a: bv64, b: bv64): bv64
  {
    !a & b
  }

  /** The position of lane (x, y) in the state; x and y can be read back. */
  function Idx(x: nat, y: nat): (k: nat)
    requires x < 5 && y < 5
    ensures k < LANES && k % 5 == x && k / 5 == y
  {
    x + 5 * y
  }

  /** The parity of column x. */
  function Column(a: seq<bv64>, x: nat): bv64
    requires |a| == LANES && x < 5
  {
    Xor(Xor(Xor(Xor(a[x], a[x + 5]), a[x + 10]), a[x + 15]), a[x + 20])
  }

  function ThetaD(a: seq<bv64>, x: nat): bv64
    requires |a| == LANES && x < 5
  {
    Xor(Column(a, (x + 4) % 5), RotateLeft(Column(a, (x + 1) % 5), 1))
  }

  /** Lane k after Theta. */
  function ThetaLane(a: seq<bv64>, k: nat): bv64
    requires |a| == LANES && k < LANES
  {
    Xor(a[k], ThetaD(a, k % 5))
  }

  /** The first n lanes after Theta. */
  function ThetaLanes(a: seq<bv64>, n: nat): (r: seq<bv64>)
    requires |a| == LANES && n <= LANES
    ensures |r| == n
  {
    if n == 0 then [] else ThetaLanes(a, n - 1) + [ThetaLane(a, n - 1)]
  }

  lemma {:induction false} ThetaLanesAt(a: seq<bv64>, n: nat, k: nat)
    requires |a| == LANES && k < n <= LANES
    ensures ThetaLanes(a, n)[k] == ThetaLane(a, k)
  {
    if k < n - 1 {
      ThetaLanesAt(a, n - 1, k);
    }
  }

  function Theta(a: seq<bv64>): (r: seq<bv64>)
    requires |a| == LANES
    ensures |r| == LANES
  {
    ThetaLanes(a, LANES)
  }

  /** The rotation applied to lane (x, y); it is 0 only at (0, 0). */
  function Offset(x: nat, y: nat): (r: nat)
    ensures r < 64
  {
    ((x + 3 * y) * (x + 3 * y + 1) / 2) % 64
  }

  /** Where lane (x, y) goes: (y, (2x + 3y) mod 5). */
  function Dest(x: nat, y: nat): (r: nat)
    requires x < 5 && y < 5
    ensures r < LANES
  {
    y + 5 * ((2 * x + 3 * y) % 5)
  }

  /** Which lane lands on lane k = X + 5Y: (X + 3Y mod 5, X). */
  function SrcX(k: nat): nat
  {
    (k % 5 + 3 * (k / 5)) % 5
  }

  function SrcY(k: nat): nat
  {
    k % 5
  }

  /** Pi moves every lane: lane (x, y) is where SrcX and SrcY of its
      destination point back to. */
  lemma {:induction false} SourceOfDest(x: nat, y: nat)
    requires x < 5 && y < 5
    ensures SrcX(Dest(x, y)) == x && SrcY(Dest(x, y)) == y
  {
    var q, z := (2 * x + 3 * y) / 5, (2 * x + 3 * y) % 5;
    assert 2 * x + 3 * y == 5 * q + z;
    ModFive(y, z);
    assert Dest(x, y) == y + 5 * z;
    assert SrcX(Dest(x, y)) == (y + 3 * z) % 5;
    assert y + 3 * z == x + 5 * (x + 2 * y - 3 * q);
    ModFive(x, x + 2 * y - 3 * q);
  }

  /** ... and every lane is the destination of its source, so Pi is a
      permutation of the 25 lanes. */
  lemma {:induction false} DestOfSource(k: nat)
    requires k < LANES
    ensures SrcX(k) < 5 && SrcY(k) < 5 && Dest(SrcX(k), SrcY(k)) == k
  {
    var r, c := k % 5, k / 5;
    var p, x := (r + 3 * c) / 5, (r + 3 * c) % 5;
    assert k == r + 5 * c && c < 5;
    assert SrcX(k) == x && SrcY(k) == r;
    assert 2 * x + 3 * r == c + 5 * (r + c - 2 * p);
    ModFive(c, r + c - 2 * p);
  }

  lemma ModFive(c: int, m: int)
    requires 0 <= c < 5
    ensures (c + 5 * m) % 5 == c && (c + 5 * m) / 5 == m
  {
  }

  /** Lane k after Rho and Pi: its source lane, rotated by the source's offset. */
  function RhoPiLane(a: seq<bv64>, k: nat): bv64
    requires |a| == LANES && k < LANES
  {
    RotateLeft(a[SrcX(k) + 5 * SrcY(k)], Offset(SrcX(k), SrcY(k)) as bv8)
  }

  /** Progress of the Rho-Pi loop over (x, y), x-major: a lane whose source
      has been visited holds its Rho-Pi value, any other lane its old value. */
  ghost predicate RhoPiProgress(s: seq<bv64>, a: seq<bv64>, x: nat, y: nat)
    requires |s| == LANES && |a| == LANES
  {
    forall k :: 0 <= k < LANES ==>
      s[k] == if SrcX(k) < x || (SrcX(k) == x && SrcY(k) < y) then RhoPiLane(a, k) else a[k]
  }

  /** Moving lane (x, y) to Dest(x, y), rotated by its offset, advances the
      loop by one: the destination now holds its Rho-Pi value, ... */
  lemma RhoPiProgressStepDest(a: seq<bv64>, x: nat, y: nat)
    requires |a| == LANES && x < 5 && y < 5
    ensures RotateLeft(a[x + 5 * y], Offset(x, y) as bv8) == RhoPiLane(a, Dest(x, y))
  {
    SourceOfDest(x, y);
  }

  /** ... and every other lane keeps its state, ... */
  lemma RhoPiProgressStepAt(s: seq<bv64>, a: seq<bv64>, x: nat, y: nat, k: nat)
    requires |s| == LANES && |a| == LANES && x < 5 && y < 5 && k < LANES && k != Dest(x, y)
    requires RhoPiProgress(s, a, x, y)
    ensures s[k] == if SrcX(k) < x || (SrcX(k) == x && SrcY(k) < y + 1) then RhoPiLane(a, k) else a[k]
  {
    DestOfSource(k);
    assert !(SrcX(k) == x && SrcY(k) == y);
  }

  /** ... and so at every lane. */
  lemma RhoPiProgressStep(s: seq<bv64>, a: seq<bv64>, x: nat, y: nat)
    requires |s| == LANES && |a| == LANES && x < 5 && y < 5
    requires RhoPiProgress(s, a, x, y)
    ensures RhoPiProgress(s[Dest(x, y) := RhoPiLane(a, Dest(x, y))], a, x, y + 1)
  {
    var t := s[Dest(x, y) := RhoPiLane(a, Dest(x, y))];
    forall k | 0 <= k < LANES
      ensures t[k] == if SrcX(k) < x || (SrcX(k) == x && SrcY(k) < y + 1) then RhoPiLane(a, k) else a[k]
    {
      if k == Dest(x, y) {
        SourceOfDest(x, y);
      } else {
        RhoPiProgressStepAt(s, a, x, y, k);
      }
    }
  }

  lemma RhoPiProgressRow(s: seq<bv64>, a: seq<bv64>, x: nat)
    requires |s| == LANES && |a| == LANES && RhoPiProgress(s, a, x, 5)
    ensures RhoPiProgress(s, a, x + 1, 0)
  {
  }

  lemma RhoPiProgressDone(s: seq<bv64>, a: seq<bv64>)
    requires |s| == LANES && |a| == LANES && RhoPiProgress(s, a, 5, 0)
    ensures s == RhoPi(a)
  {
    forall k | 0 <= k < LANES
      ensures s[k] == RhoPi(a)[k]
    {
      DestOfSource(k);
      RhoPiLanesAt(a, LANES, k);
    }
  }

  /** The first n lanes after Rho and Pi. */
  function RhoPiLanes(a: seq<bv64>, n: nat): (r: seq<bv64>)
    requires |a| == LANES && n <= LANES
    ensures |r| == n
  {
    if n == 0 then [] else RhoPiLanes(a, n - 1) + [RhoPiLane(a, n - 1)]
  }

  lemma {:induction false} RhoPiLanesAt(a: seq<bv64>, n: nat, k: nat)
    requires |a| == LANES && k < n <= LANES
    ensures RhoPiLanes(a, n)[k] == RhoPiLane(a, k)
  {
    if k < n - 1 {
      RhoPiLanesAt(a, n - 1, k);
    }
  }

  function RhoPi(a: seq<bv64>): (r: seq<bv64>)
    requires |a| == LANES
    ensures |r| == LANES
  {
    RhoPiLanes(a, LANES)
  }

  /** Lane (x, y) after Chi: combined with the next two lanes of its row. */
  function ChiLane(a: seq<bv64>, x: nat, y: nat): bv64
    requires |a| == LANES && x < 5 && y < 5
  {
    Xor(a[x + 5 * y], AndNot(a[(x + 1) % 5 + 5 * y], a[(x + 2) % 5 + 5 * y]))
  }

  function Chi(a: seq<bv64>): (r: seq<bv64>)
    requires |a| == LANES
    ensures |r| == LANES
  {
    seq(LANES, k requires 0 <= k < LANES => ChiLane(a, k % 5, k / 5))
  }

  function Iota(a: seq<bv64>, round: nat): (r: seq<bv64>)
    requires |a| == LANES && round < ROUNDS
    ensures |r| == LANES
  {
    a[0 := Xor(a[0], RC[round])]
  }

  function Round(a: seq<bv64>, round: nat): (r: seq<bv64>)
    requires |a| == LANES && round < ROUNDS
    ensures |r| == LANES
  {
    Iota(Chi(RhoPi(Theta(a))), round)
  }

  /** The first n rounds. */
  function Rounds(a: seq<bv64>, n: nat): (r: seq<bv64>)
    requires |a| == LANES && n <= ROUNDS
    ensures |r| == LANES
  {
    if n == 0 then a else Round(Rounds(a, n - 1), n - 1)
  }

  function Permutation(a: seq<bv64>): (r: seq<bv64>)
    requires |a| == LANES
    ensures |r| == LANES
  {
    Rounds(a, ROUNDS)
  }

  // ---------------------------------------------------------------------------
  // Lanes and bytes

  /** Eight bytes read as a little-endian 64-bit lane. */
  function Lane(b: seq<bv8>): bv64
    requires |b| == 8
  {
    (b[0] as bv64) | ((b[1] as bv64) << 8) | ((b[2] as bv64) << 16) | ((b[3] as bv64) << 24)
    | ((b[4] as bv64) << 32) | ((b[5] as bv64) << 40) | ((b[6] as bv64) << 48) | ((b[7] as bv64) << 56)
  }

  /** Byte j of a lane, least significant first. */
  function ByteOf(v: bv64, j: bv8): bv8
    requires j < 8
  {
    ((v >> (j * 8)) & 0xFF) as bv8
  }

  function LaneBytes(v: bv64): (r: seq<bv8>)
    ensures |r| == 8
  {
    seq(8, j requires 0 <= j < 8 => ByteOf(v, j as bv8))
  }

  /** Storing a lane as bytes and loading it back gives the lane. */
  lemma LaneOfLaneBytes(v: bv64)
    ensures Lane(LaneBytes(v)) == v
  {
    var b := LaneBytes(v);
    assert b[0] == ByteOf(v, 0) && b[1] == ByteOf(v, 1) && b[2] == ByteOf(v, 2) && b[3] == ByteOf(v, 3);
    assert b[4] == ByteOf(v, 4) && b[5] == ByteOf(v, 5) && b[6] == ByteOf(v, 6) && b[7] == ByteOf(v, 7);
  }

  /** Byte j of a loaded lane is byte j of the input. */
  lemma ByteOfLane(b: seq<bv8>, j: bv8)
    requires |b| == 8 && j < 8
    ensures ByteOf(Lane(b), j) == b[j]
  {
  }

  /** Loading eight bytes as a lane and storing it gives the bytes. */
  lemma LaneBytesOfLane(b: seq<bv8>)
    requires |b| == 8
    ensures LaneBytes(Lane(b)) == b
  {
    forall j | 0 <= j < 8
      ensures LaneBytes(Lane(b))[j] == b[j]
    {
      ByteOfLane(b, j as bv8);
    }
  }

  /** The low j bytes of a lane, the others cleared. */
  function LowBytes(v: bv64, j: bv8): bv64
    requires j <= 8
  {
    v & (((1 as bv64) << (j * 8)) - 1)
  }

  /** ORing byte j into place extends the low bytes by one. */
  lemma LowBytesStep(v: bv64, j: bv8)
    requires j < 8
    ensures LowBytes(v, j) | ((ByteOf(v, j) as bv64) << (j * 8)) == LowBytes(v, j + 1)
  {
  }

  /** Lane i of a 136-byte block. */
  function BlockLane(block: seq<bv8>, i: nat): bv64
    requires |block| == RATE_BYTES && i < RATE_LANES
  {
    Lane(block[8 * i .. 8 * i + 8])
  }

  function AbsorbedLane(a: seq<bv64>, block: seq<bv8>, k: nat): bv64
    requires |a| == LANES && |block| == RATE_BYTES && k < LANES
  {
    if k < RATE_LANES then Xor(a[k], BlockLane(block, k)) else a[k]
  }

  /** The first 17 lanes XORed with the block's lanes; lanes 17 to 24 (the
      capacity) are left alone. */
  function XorBlock(a: seq<bv64>, block: seq<bv8>): (r: seq<bv64>)
    requires |a| == LANES && |block| == RATE_BYTES
    ensures |r| == LANES
  {
    seq(LANES, k requires 0 <= k < LANES => AbsorbedLane(a, block, k))
  }

  /** `absorb`: XOR a full block in, then permute. */
  function AbsorbBlock(a: seq<bv64>, block: seq<bv8>): (r: seq<bv64>)
    requires |a| == LANES && |block| == RATE_BYTES
    ensures |r| == LANES
  {
    Permutation(XorBlock(a, block))
  }

  // ---------------------------------------------------------------------------
  // The sponge as values: the lanes and the bytes waiting in the buffer.

  datatype Sponge = Sponge(lanes: seq<bv64>, pending: seq<bv8>)

  ghost predicate WellFormed(sp: Sponge)
  {
    |sp.lanes| == LANES && |sp.pending| < RATE_BYTES
  }

  function Initial(): (r: Sponge)
    ensures WellFormed(r)
  {
    Sponge(seq(LANES, _ => 0), [])
  }

  /** One input byte: buffered, and a full buffer is absorbed and emptied. */
  function Push(sp: Sponge, b: bv8): (r: Sponge)
    requires WellFormed(sp)
    ensures WellFormed(r)
    ensures |r.pending| == (|sp.pending| + 1) % RATE_BYTES
  {
    var pending := sp.pending + [b];
    if |pending| == RATE_BYTES then Sponge(AbsorbBlock(sp.lanes, pending), []) else Sponge(sp.lanes, pending)
  }

  /** `update(data)`: the bytes pushed one at a time, in order. */
  function Feed(sp: Sponge, data: seq<bv8>): (r: Sponge)
    requires WellFormed(sp)
    ensures WellFormed(r)
    decreases |data|
  {
    if data == [] then sp else Feed(Push(sp, data[0]), data[1..])
  }

  /** Feeding in two pieces is feeding the whole. */
  lemma {:induction false} FeedAppend(sp: Sponge, a: seq<bv8>, b: seq<bv8>)
    requires WellFormed(sp)
    ensures Feed(sp, a + b) == Feed(Feed(sp, a), b)
    decreases |a|
  {
    if a == [] {
      assert a + b == b;
    } else {
      assert (a + b)[1..] == a[1..] + b;
      FeedAppend(Push(sp, a[0]), a[1..], b);
    }
  }

  /** Input that fits in the buffer is only buffered. */
  lemma {:induction false} FeedBuffers(sp: Sponge, data: seq<bv8>)
    requires WellFormed(sp) && |sp.pending| + |data| < RATE_BYTES
    ensures Feed(sp, data) == Sponge(sp.lanes, sp.pending + data)
    decreases |data|
  {
    if data != [] {
      FeedBuffers(Push(sp, data[0]), data[1..]);
      assert sp.pending + [data[0]] + data[1..] == sp.pending + data;
    }
  }

  /** The padded last block: pad10*1 with the domain byte 0x01, so a single
      free byte becomes 0x81. */
  function Pad(pending: seq<bv8>): (r: seq<bv8>)
    requires |pending| < RATE_BYTES
    ensures |r| == RATE_BYTES
    ensures r[..|pending|] == pending
    ensures |pending| < RATE_BYTES - 1 ==> r[|pending|] == 0x01 && r[RATE_BYTES - 1] == 0x80
    ensures |pending| == RATE_BYTES - 1 ==> r[RATE_BYTES - 1] == 0x81
    ensures forall k :: |pending| < k < RATE_BYTES - 1 ==> r[k] == 0
  {
    var filled := pending + [0x01] + seq(RATE_BYTES - |pending| - 1, _ => 0);
    filled[RATE_BYTES - 1 := filled[RATE_BYTES - 1] | 0x80]
  }

  /** The bytes of the first n lanes, least significant byte first. */
  function SqueezeLanes(a: seq<bv64>, n: nat): (r: seq<bv8>)
    requires |a| == LANES && n <= 4
    ensures |r| == 8 * n
  {
    if n == 0 then [] else SqueezeLanes(a, n - 1) + LaneBytes(a[n - 1])
  }

  /** The 32 output bytes: lanes 0 to 3. */
  function Squeeze(a: seq<bv64>): (r: seq<bv8>)
    requires |a| == LANES
    ensures |r| == HASH_SIZE
  {
    SqueezeLanes(a, 4)
  }

  /** `finalize`: pad, absorb the last block, squeeze. */
  function Digest(sp: Sponge): (r: seq<bv8>)
    requires WellFormed(sp)
    ensures |r| == HASH_SIZE
  {
    Squeeze(AbsorbBlock(sp.lanes, Pad(sp.pending)))
  }

  // ---------------------------------------------------------------------------
  // Hex

  const HEX_DIGITS: string := "0123456789abcdef"

  /** `bytesToHex`: two lowercase digits per byte, high nibble first. */
  function Hex(bytes: seq<bv8>): (r: string)
    ensures |r| == 2 * |bytes|
    ensures forall i :: 0 <= i < |r| ==> r[i] in HEX_DIGITS
  {
    if bytes == [] then []
    else [HEX_DIGITS[bytes[0] as int / 16], HEX_DIGITS[bytes[0] as int % 16]] + Hex(bytes[1..])
  }

  /** One more byte adds its two digits at the end. */
  lemma {:induction false} HexAppend(bytes: seq<bv8>, b: bv8)
    ensures Hex(bytes + [b]) == Hex(bytes) + [HEX_DIGITS[b as int / 16], HEX_DIGITS[b as int % 16]]
  {
    if bytes != [] {
      assert (bytes + [b])[1..] == bytes[1..] + [b];
      HexAppend(bytes[1..], b);
    } else {
      assert Hex([b]) == [HEX_DIGITS[b as int / 16], HEX_DIGITS[b as int % 16]] + Hex([]);
    }
  }

  function DigitValue(c: char): (r: nat)
    requires c in HEX_DIGITS
    ensures r < 16 && HEX_DIGITS[r] == c
  {
    if '0' <= c <= '9' then c as int - '0' as int else c as int - 'a' as int + 10
  }

  /** The byte written as two digits, high nibble first. */
  function DigitsByte(hi: char, lo: char): bv8
    requires hi in HEX_DIGITS && lo in HEX_DIGITS
  {
    (DigitValue(hi) * 16 + DigitValue(lo)) as bv8
  }

  /** Reading the digits back. */
  function Unhex(s: string): (r: seq<bv8>)
    requires |s| % 2 == 0
    requires forall i :: 0 <= i < |s| ==> s[i] in HEX_DIGITS
    ensures |r| == |s| / 2
  {
    if s == [] then []
    else [DigitsByte(s[0], s[1])] + Unhex(s[2..])
  }

  /** The two digits of a byte read back as that byte. */
  lemma DigitsOfByte(b: bv8)
    ensures DigitsByte(HEX_DIGITS[b as int / 16], HEX_DIGITS[b as int % 16]) == b
  {
    var hi, lo := b as int / 16, b as int % 16;
    DigitIndex(hi, DigitValue(HEX_DIGITS[hi]));
    DigitIndex(lo, DigitValue(HEX_DIGITS[lo]));
    assert hi * 16 + lo == b as int;
  }

  lemma {:induction false} HexRoundTrip(bytes: seq<bv8>)
    ensures Unhex(Hex(bytes)) == bytes
  {
    if bytes != [] {
      var h := Hex(bytes);
      DigitsOfByte(bytes[0]);
      assert h[2..] == Hex(bytes[1..]);
      HexRoundTrip(bytes[1..]);
    }
  }

  /** The sixteen digits are distinct. */
  lemma DigitIndex(i: nat, j: nat)
    requires i < 16 && j < 16 && HEX_DIGITS[i] == HEX_DIGITS[j]
    ensures i == j
  {
  }

  /** Byte j of a lane is entry j of its little-endian bytes. */
  lemma LaneBytesAt(v: bv64, j: bv8)
    requires j < 8
    ensures LaneBytes(v)[j] == ByteOf(v, j)
  {
  }

  /** Progress of Theta's loop over (x, y), x-major: a visited lane holds its
      Theta value, any other lane its old value. */
  ghost predicate ThetaProgress(s: seq<bv64>, a: seq<bv64>, x: nat, y: nat)
    requires |s| == LANES && |a| == LANES
  {
    forall k :: 0 <= k < LANES ==>
      s[k] == if k % 5 < x || (k % 5 == x && k / 5 < y) then ThetaLane(a, k) else a[k]
  }

  /** XORing lane (x, y) with D[x] gives its Theta value, ... */
  lemma ThetaProgressStepDest(s: seq<bv64>, a: seq<bv64>, x: nat, y: nat, dx: bv64)
    requires |s| == LANES && |a| == LANES && x < 5 && y < 5 && dx == ThetaD(a, x)
    requires ThetaProgress(s, a, x, y)
    ensures Xor(s[x + 5 * y], dx) == ThetaLane(a, x + 5 * y)
  {
    ModFive(x, y);
    assert s[x + 5 * y] == a[x + 5 * y];
  }

  /** ... every other lane keeps its state, ... */
  lemma ThetaProgressStepAt(s: seq<bv64>, a: seq<bv64>, x: nat, y: nat, k: nat)
    requires |s| == LANES && |a| == LANES && x < 5 && y < 5 && k < LANES && k != x + 5 * y
    requires ThetaProgress(s, a, x, y)
    ensures s[k] == if k % 5 < x || (k % 5 == x && k / 5 < y + 1) then ThetaLane(a, k) else a[k]
  {
    assert !(k % 5 == x && k / 5 == y);
  }

  /** ... and so the loop advances by one. */
  lemma ThetaProgressStep(s: seq<bv64>, a: seq<bv64>, x: nat, y: nat, dx: bv64)
    requires |s| == LANES && |a| == LANES && x < 5 && y < 5 && dx == ThetaD(a, x)
    requires ThetaProgress(s, a, x, y)
    ensures ThetaProgress(s[x + 5 * y := Xor(s[x + 5 * y], dx)], a, x, y + 1)
  {
    var t := s[x + 5 * y := Xor(s[x + 5 * y], dx)];
    forall k | 0 <= k < LANES
      ensures t[k] == if k % 5 < x || (k % 5 == x && k / 5 < y + 1) then ThetaLane(a, k) else a[k]
    {
      if k == x + 5 * y {
        ThetaProgressStepDest(s, a, x, y, dx);
        ModFive(x, y);
      } else {
        ThetaProgressStepAt(s, a, x, y, k);
      }
    }
  }

  lemma ThetaProgressDone(s: seq<bv64>, a: seq<bv64>)
    requires |s| == LANES && |a| == LANES && ThetaProgress(s, a, 5, 0)
    ensures s == Theta(a)
  {
    forall k | 0 <= k < LANES
      ensures s[k] == Theta(a)[k]
    {
      ThetaLanesAt(a, LANES, k);
    }
  }

  /** Lanes below i have taken in the block, the others are untouched. */
  ghost predicate AbsorbProgress(s: seq<bv64>, a: seq<bv64>, block: seq<bv8>, i: nat)
    requires |s| == LANES && |a| == LANES && |block| == RATE_BYTES
  {
    forall k :: 0 <= k < LANES ==> s[k] == if k < i then AbsorbedLane(a, block, k) else a[k]
  }

  lemma AbsorbProgressStep(s: seq<bv64>, a: seq<bv64>, block: seq<bv8>, i: nat)
    requires |s| == LANES && |a| == LANES && |block| == RATE_BYTES && i < RATE_LANES
    requires AbsorbProgress(s, a, block, i)
    ensures AbsorbProgress(s[i := AbsorbedLane(a, block, i)], a, block, i + 1)
  {
  }

  lemma AbsorbProgressDone(s: seq<bv64>, a: seq<bv64>, block: seq<bv8>)
    requires |s| == LANES && |a| == LANES && |block| == RATE_BYTES
    requires AbsorbProgress(s, a, block, RATE_LANES)
    ensures s == XorBlock(a, block)
  {
  }

  // ---------------------------------------------------------------------------
  // The hasher object

  /** `Keccak256`: the state lanes and the rate buffer are fixed-size arrays
      updated in place; `bufferSize` counts the buffered bytes. */
  class Keccak256 {
    const state: array<bv64>
    const buffer: array<bv8>
    var bufferSize: nat

    /** The arrays have the sizes the header declares. */
    ghost predicate Shaped()
      reads this
    {
      state.Length == LANES && buffer.Length == RATE_BYTES
    }

    /** Between calls fewer than 136 bytes wait in the buffer. */
    ghost predicate Valid()
      reads this
    {
      Shaped() && bufferSize < RATE_BYTES
    }

    /** The sponge this object stands for. */
    ghost function Abs(): (r: Sponge)
      requires Valid()
      reads this, state, buffer
      ensures WellFormed(r)
    {
      Sponge(state[..], buffer[..bufferSize])
    }

    /** Theta, first loop: `C[x]`, the parity of each column. */
    method ColumnParities() returns (c: array<bv64>)
      requires Shaped()
      ensures fresh(c) && c.Length == 5
      ensures forall x :: 0 <= x < 5 ==> c[x] == Column(state[..], x)
    {
      ghost var a := state[..];
      c := new bv64[5];
      for x := 0 to 5
        invariant forall x' :: 0 <= x' < x ==> c[x'] == Column(a, x')
      {
        c[x] := Xor(Xor(Xor(Xor(state[x], state[x + 5]), state[x + 10]), state[x + 15]), state[x + 20]);
      }
    }

    /** Theta, second loop: `D[x]`, what is XORed into column x. */
    static method ColumnEffects(c: array<bv64>, ghost a: seq<bv64>) returns (d: array<bv64>)
      requires c.Length == 5 && |a| == LANES
      requires forall x :: 0 <= x < 5 ==> c[x] == Column(a, x)
      ensures fresh(d) && d.Length == 5
      ensures forall x :: 0 <= x < 5 ==> d[x] == ThetaD(a, x)
    {
      d := new bv64[5];
      for x := 0 to 5
        invariant forall x' :: 0 <= x' < x ==> d[x'] == ThetaD(a, x')
      {
        d[x] := Xor(c[(x + 4) % 5], RotateLeft(c[(x + 1) % 5], 1));
      }
    }

    /** Theta: XOR every lane with the parities of two neighbouring columns. */
    method ThetaStep()
      requires Shaped()
      modifies state
      ensures state[..] == Theta(old(state[..]))
    {
      ghost var a := state[..];
      var c := ColumnParities();
      var d := ColumnEffects(c, a);
      for x := 0 to 5
        modifies state
        invariant forall x' :: 0 <= x' < 5 ==> d[x'] == ThetaD(a, x')
        invariant ThetaProgress(state[..], a, x, 0)
      {
        for y := 0 to 5
          modifies state
          invariant forall x' :: 0 <= x' < 5 ==> d[x'] == ThetaD(a, x')
          invariant ThetaProgress(state[..], a, x, y)
        {
          ghost var before := state[..];
          XorLane(d, x, y);
          ThetaProgressStep(before, a, x, y, d[x]);
        }
      }
      ThetaProgressDone(state[..], a);
    }

    /** Theta's loop body: lane (x, y) is XORed with `D[x]`. */
    method XorLane(d: array<bv64>, x: nat, y: nat)
      requires Shaped() && d.Length == 5 && x < 5 && y < 5
      modifies state
      ensures state[..] == old(state[..])[x + 5 * y := Xor(old(state[x + 5 * y]), d[x])]
    {
      state[x + 5 * y] := Xor(state[x + 5 * y], d[x]);
    }

    /** Rho and Pi: lane (x, y), rotated, moves to (y, (2x + 3y) mod 5). */
    method RhoPiStep()
      requires Shaped()
      modifies state
      ensures state[..] == RhoPi(old(state[..]))
    {
      var temp := new bv64[LANES];
      forall i | 0 <= i < LANES {
        temp[i] := state[i];
      }
      ghost var a := temp[..];
      assert a == old(state[..]);
      for x := 0 to 5
        modifies state
        invariant temp[..] == a && RhoPiProgress(state[..], a, x, 0)
      {
        for y := 0 to 5
          modifies state
          invariant temp[..] == a && RhoPiProgress(state[..], a, x, y)
        {
          ghost var before := state[..];
          MoveLane(temp, x, y);
          RhoPiProgressStep(before, a, x, y);
        }
        RhoPiProgressRow(state[..], a, x);
      }
      RhoPiProgressDone(state[..], a);
    }

    /** The body of the Rho-Pi loop: lane (x, y) of the copy, rotated by its
        offset, is written to (y, (2x + 3y) mod 5). */
    method MoveLane(temp: array<bv64>, x: nat, y: nat)
      requires Shaped() && temp.Length == LANES && temp != state && x < 5 && y < 5
      modifies state
      ensures state[..] == old(state[..])[Dest(x, y) := RhoPiLane(temp[..], Dest(x, y))]
    {
      var newX := y;
      var newY := (2 * x + 3 * y) % 5;
      var shift := Offset(x, y);
      RhoPiProgressStepDest(temp[..], x, y);
      state[newX + 5 * newY] := RotateLeft(temp[x + 5 * y], shift as bv8);
    }

    /** Chi: each lane combined with the next two of its row. */
    method ChiStep()
      requires Shaped()
      modifies state
      ensures state[..] == Chi(old(state[..]))
    {
      var temp := state[..];
      for y := 0 to 5
        invariant forall x', y' :: 0 <= x' < 5 && 0 <= y' < 5 ==>
          state[Idx(x', y')] == if y' < y then ChiLane(temp, x', y') else temp[Idx(x', y')]
      {
        for x := 0 to 5
          invariant forall x', y' :: 0 <= x' < 5 && 0 <= y' < 5 ==>
            state[Idx(x', y')] == if y' < y || (y' == y && x' < x) then ChiLane(temp, x', y') else temp[Idx(x', y')]
        {
          assert x + 5 * y == Idx(x, y);
          state[x + 5 * y] := Xor(temp[x + 5 * y], AndNot(temp[(x + 1) % 5 + 5 * y], temp[(x + 2) % 5 + 5 * y]));
        }
      }
      forall k | 0 <= k < LANES
        ensures state[k] == Chi(temp)[k]
      {
        assert k == Idx(k % 5, k / 5);
      }
    }

    /** Iota: the round constant into lane 0. */
    method IotaStep(round: nat)
      requires Shaped() && round < ROUNDS
      modifies state
      ensures state[..] == Iota(old(state[..]), round)
    {
      state[0] := Xor(state[0], RC[round]);
    }

    /** `keccakF`: 24 rounds in place. */
    method KeccakF()
      requires Shaped()
      modifies state
      ensures state[..] == Permutation(old(state[..]))
    {
      for round := 0 to ROUNDS
        invariant state[..] == Rounds(old(state[..]), round)
      {
        RoundStep(round);
      }
    }

    /** The body of the round loop of `keccakF`. */
    method RoundStep(round: nat)
      requires Shaped() && round < ROUNDS
      modifies state
      ensures state[..] == Round(old(state[..]), round)
    {
      ThetaStep();
      RhoPiStep();
      ChiStep();
      IotaStep(round);
    }

    /** `reset`: zero lanes, an empty zeroed buffer. */
    method Reset()
      requires Shaped()
      modifies this, state, buffer
      ensures Valid() && Abs() == Initial()
      ensures buffer[..] == seq(RATE_BYTES, _ => 0)
    {
      forall i | 0 <= i < LANES {
        state[i] := 0;
      }
      forall i | 0 <= i < RATE_BYTES {
        buffer[i] := 0;
      }
      bufferSize := 0;
    }

    /** A new hasher is reset. */
    constructor ()
      ensures Valid() && Abs() == Initial()
      ensures fresh(state) && fresh(buffer)
    {
      state := new bv64[LANES];
      buffer := new bv8[RATE_BYTES];
      bufferSize := 0;
      new;
      Reset();
    }

    /** The inner loop of `absorb`: lane i of the buffer, assembled byte by
        byte, least significant first. */
    method LoadLane(i: nat) returns (value: bv64)
      requires Shaped() && i < RATE_LANES
      ensures value == BlockLane(buffer[..], i)
    {
      ghost var b := buffer[8 * i .. 8 * i + 8];
      value := 0;
      var j: bv8 := 0;
      while j < 8
        invariant j <= 8
        invariant value == LowBytes(Lane(b), j)
      {
        assert buffer[i * 8 + j as int] == b[j];
        ByteOfLane(b, j);
        LowBytesStep(Lane(b), j);
        value := value | ((buffer[i * 8 + j as int] as bv64) << (j * 8));
        j := j + 1;
      }
    }

    /** `absorb`: XOR the full buffer into the first 17 lanes, each loaded
        little-endian, then permute. */
    method Absorb()
      requires Shaped()
      modifies state
      ensures state[..] == AbsorbBlock(old(state[..]), buffer[..])
    {
      ghost var a := state[..];
      ghost var block := buffer[..];
      for i := 0 to RATE_LANES
        invariant AbsorbProgress(state[..], a, block, i)
      {
        var value := LoadLane(i);
        ghost var before := state[..];
        assert before[i] == a[i];
        state[i] := Xor(state[i], value);
        assert state[..] == before[i := AbsorbedLane(a, block, i)];
        AbsorbProgressStep(before, a, block, i);
      }
      AbsorbProgressDone(state[..], a, block);
      KeccakF();
    }

    /** `update`: append the bytes to the buffer, absorbing each time it
        fills. */
    method Update(data: seq<bv8>)
      requires Valid()
      modifies this, state, buffer
      ensures Valid() && Abs() == Feed(old(Abs()), data)
    {
      ghost var start := Abs();
      for i := 0 to |data|
        invariant Valid() && Abs() == Feed(start, data[..i])
      {
        ghost var before := Abs();
        buffer[bufferSize] := data[i];
        bufferSize := bufferSize + 1;
        assert buffer[..bufferSize] == before.pending + [data[i]];
        if bufferSize == RATE_BYTES {
          assert buffer[..] == buffer[..bufferSize];
          Absorb();
          bufferSize := 0;
        }
        assert Abs() == Push(before, data[i]);
        FeedAppend(start, data[..i], [data[i]]);
        assert data[..i + 1] == data[..i] + [data[i]];
      }
      assert data[..|data|] == data;
    }

    /** `finalize`: pad the buffer, absorb it and write lanes 0 to 3 out as
        32 bytes. The buffer is left full, so the hasher must be reset
        before it is used again. */
    method Finalize(hash: array<bv8>)
      requires Valid() && hash.Length == HASH_SIZE && hash != buffer
      modifies this, state, buffer, hash
      ensures hash[..] == Digest(old(Abs()))
      ensures Shaped() && bufferSize == RATE_BYTES
      ensures buffer[..] == Pad(old(Abs()).pending)
      ensures state[..] == AbsorbBlock(old(Abs()).lanes, Pad(old(Abs()).pending))
    {
      ghost var sp := Abs();
      PadBuffer();
      Absorb();
      SqueezeInto(hash);
    }

    /** `finalize`, last part: the first four lanes written out as bytes. */
    method SqueezeInto(hash: array<bv8>)
      requires Shaped() && hash.Length == HASH_SIZE
      modifies hash
      ensures hash[..] == Squeeze(state[..])
    {
      for i := 0 to 4
        invariant hash[..8 * i] == SqueezeLanes(state[..], i)
      {
        StoreLane(hash, i);
      }
      assert hash[..] == hash[..8 * 4];
    }

    /** `finalize`, first part: the domain byte 0x01 after the buffered
        bytes, zeros up to the end of the block, and 0x80 ORed into its last
        byte. */
    method PadBuffer()
      requires Valid()
      modifies this, buffer
      ensures Shaped() && bufferSize == RATE_BYTES
      ensures buffer[..] == Pad(old(buffer[..bufferSize]))
    {
      ghost var pending := buffer[..bufferSize];
      buffer[bufferSize] := 0x01;
      bufferSize := bufferSize + 1;
      while bufferSize < RATE_BYTES
        invariant |pending| < bufferSize <= RATE_BYTES
        invariant buffer[..bufferSize] == pending + [0x01] + seq(bufferSize - |pending| - 1, _ => 0)
        decreases RATE_BYTES - bufferSize
      {
        buffer[bufferSize] := 0x00;
        bufferSize := bufferSize + 1;
      }
      assert buffer[..] == buffer[..bufferSize];
      buffer[RATE_BYTES - 1] := buffer[RATE_BYTES - 1] | 0x80;
    }

    /** `finalize`, squeeze loop body: output bytes 8i to 8i + 7 are the bytes
        of lane i, least significant first. */
    method StoreLane(hash: array<bv8>, i: nat)
      requires Shaped() && hash.Length == HASH_SIZE && i < 4
      modifies hash
      ensures hash[..8 * i + 8] == old(hash[..8 * i]) + LaneBytes(state[i])
    {
      var j: bv8 := 0;
      while j < 8
        invariant j <= 8
        invariant hash[..8 * i] == old(hash[..8 * i])
        invariant forall m :: 0 <= m < j as int ==> hash[8 * i + m] == LaneBytes(state[i])[m]
      {
        LaneBytesAt(state[i], j);
        hash[i * 8 + j as int] := ByteOf(state[i], j);
        j := j + 1;
      }
    }

    /** `hash`: a fresh hasher fed the whole input, finalized, and the
        digest written as hex. */
    static method Hash(input: seq<bv8>) returns (hex: string)
      ensures hex == Hex(Digest(Feed(Initial(), input)))
    {
      var hasher := new Keccak256();
      hasher.Update(input);
      ghost var fed := hasher.Abs();
      assert fed == Feed(Initial(), input);
      var hash := new bv8[HASH_SIZE];
      assert hasher.Valid() && hasher.Abs() == fed;
      hasher.Finalize(hash);
      hex := BytesToHex(hash[..]);
    }

    /** `bytesToHex`: two zero-padded lowercase digits per byte; the bytes
        are read only, so they are passed as a value. */
    static method BytesToHex(bytes: seq<bv8>) returns (s: string)
      ensures s == Hex(bytes)
    {
      s := "";
      for i := 0 to |bytes|
        invariant s == Hex(bytes[..i])
      {
        var v := bytes[i] as int;
        s := s + [HEX_DIGITS[v / 16], HEX_DIGITS[v % 16]];
        HexAppend(bytes[..i], bytes[i]);
        assert bytes[..i + 1] == bytes[..i] + [bytes[i]];
      }
      assert bytes[..|bytes|] == bytes;
    }
  }
}
