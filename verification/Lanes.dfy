/** Blocks of 32 values as 16 bytes of two nibbles, or as 32 signed bytes. */
module Lanes {

  type Block = b: seq<real> | |b| == 32 witness seq(32, _ => 0.0)

  type NibbleBytes = b: seq<bv8> | |b| == 16 witness seq(16, _ => 0)

  type SignedBytes = b: seq<bv8> | |b| == 32 witness seq(32, _ => 0)

  newtype nibble = x: int | 0 <= x < 16

  newtype i8 = x: int | -128 <= x < 128

  /** Each lane of a block on its own. */
  function Image(f: real -> real, block: Block): Block {
    seq(32, i requires 0 <= i < 32 => f(block[i]))
  }

  // ---- nibbles ----

  function Nibbles(low: nibble, high: nibble): bv8 {
    (low as bv8) | ((high as bv8) << 4)
  }

  function LowNibble(b: bv8): nibble { (b & 0x0f) as nibble }

  function HighNibble(b: bv8): nibble { (b >> 4) as nibble }

  lemma NibblesSplit(low: nibble, high: nibble)
    ensures LowNibble(Nibbles(low, high)) == low && HighNibble(Nibbles(low, high)) == high
  {
    NibbleBits(low as bv8, high as bv8);
  }

  lemma NibbleBits(l: bv8, h: bv8)
    requires l < 16 && h < 16
    ensures (l | (h << 4)) & 0x0f == l && (l | (h << 4)) >> 4 == h
  {
  }

  /** Lanes 0 to 15 go to the low nibbles and lanes 16 to 31 to the high nibbles of the same bytes. */
  ghost predicate PacksLanes(code: real -> nibble, block: Block, qs: NibbleBytes) {
    forall i :: 0 <= i < 16 ==> qs[i] == Nibbles(code(block[i]), code(block[i + 16]))
  }

  /** The code of lane i, as the unpackers read it. */
  function LaneCode(qs: NibbleBytes, i: nat): nibble
    requires i < 32
  {
    if i < 16 then LowNibble(qs[i % 16]) else HighNibble(qs[i % 16])
  }

  lemma LaneOfPacked(code: real -> nibble, block: Block, qs: NibbleBytes, i: nat)
    requires PacksLanes(code, block, qs) && i < 32
    ensures LaneCode(qs, i) == code(block[i])
  {
    var k := i % 16;
    NibblesSplit(code(block[k]), code(block[k + 16]));
  }

  method PackLanes(code: real -> nibble, block: Block) returns (qs: NibbleBytes)
    ensures PacksLanes(code, block, qs)
  {
    var bytes := new bv8[16];
    for i := 0 to 16
      invariant forall k :: 0 <= k < i ==> bytes[k] == Nibbles(code(block[k]), code(block[k + 16]))
    {
      bytes[i] := Nibbles(code(block[i]), code(block[i + 16]));
    }
    qs := bytes[..];
  }

  function ReadLanes(value: nibble -> real, qs: NibbleBytes): Block {
    seq(32, i requires 0 <= i < 32 => value(LaneCode(qs, i)))
  }

  /** Reading packed lanes is a lane-by-lane image of the block. */
  lemma ReadOfPacked(code: real -> nibble, value: nibble -> real, f: real -> real, block: Block, qs: NibbleBytes)
    requires PacksLanes(code, block, qs)
    requires forall i :: 0 <= i < 32 ==> value(code(block[i])) == f(block[i])
    ensures ReadLanes(value, qs) == Image(f, block)
  {
    forall i | 0 <= i < 32 ensures ReadLanes(value, qs)[i] == Image(f, block)[i] {
      LaneOfPacked(code, block, qs, i);
    }
  }

  // ---- signed bytes ----

  function SignedByte(n: i8): bv8 {
    if n >= 0 then n as bv8 else (n as int + 256) as bv8
  }

  function ByteSigned(b: bv8): i8 { if b < 128 then b as i8 else (b as int - 256) as i8 }

  lemma SignedRoundTrip(n: i8)
    ensures ByteSigned(SignedByte(n)) == n
  {
    ByteValue(if n >= 0 then n as int else n as int + 256);
  }

  lemma ByteValue(n: nat)
    requires n < 256
    ensures (n as bv8) as int == n
    ensures n as bv8 < 128 <==> n < 128
  {
  }

  ghost predicate PacksBytes(code: real -> i8, block: Block, qs: SignedBytes) {
    forall i :: 0 <= i < 32 ==> qs[i] == SignedByte(code(block[i]))
  }

  method PackBytes(code: real -> i8, block: Block) returns (qs: SignedBytes)
    ensures PacksBytes(code, block, qs)
  {
    qs := seq(32, i requires 0 <= i < 32 => SignedByte(code(block[i])));
  }

  function ReadBytes(value: i8 -> real, qs: SignedBytes): Block {
    seq(32, i requires 0 <= i < 32 => value(ByteSigned(qs[i])))
  }

  lemma ReadOfBytes(code: real -> i8, value: i8 -> real, f: real -> real, block: Block, qs: SignedBytes)
    requires PacksBytes(code, block, qs)
    requires forall i :: 0 <= i < 32 ==> value(code(block[i])) == f(block[i])
    ensures ReadBytes(value, qs) == Image(f, block)
  {
    forall i | 0 <= i < 32 ensures ReadBytes(value, qs)[i] == Image(f, block)[i] {
      SignedRoundTrip(code(block[i]));
    }
  }

  // ---- halves ----

  /** A 16-bit half in its two bytes, low byte first. */
  function HalfBytes(half: bv16): (b: seq<bv8>)
    ensures |b| == 2
  {
    [(half & 0xff) as bv8, (half >> 8) as bv8]
  }

  function BytesHalf(b: seq<bv8>): bv16
    requires |b| == 2
  {
    (b[0] as bv16) | ((b[1] as bv16) << 8)
  }

  lemma HalfRoundTrip(half: bv16)
    ensures BytesHalf(HalfBytes(half)) == half
  {
  }
}
