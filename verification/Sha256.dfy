/** The streaming SHA-256 of the logit runner, against FIPS 180-4.

    `Fips180` is written from the standard: sections 4.1.2 (functions), 4.2.2 (constants), 5.1.1 (padding),
    5.2.1 (blocks), 5.3.3 (initial value) and 6.2.2 (computation).  `Sha256` is the runner's class: a 64-byte
    block, a fill count and a bit counter that wraps at 2^64.
  */
module Fips180 {
  import opened Bytes

  newtype word = x: int | 0 <= x < TWO32

  // ---- 4.1.2: functions on 32-bit words ----

  /** Addition modulo 2^32. */
  function Add(x: bv32, y: bv32): bv32 { x + y }

  function Ch(x: bv32, y: bv32, z: bv32): bv32 { (x & y) ^ (!x & z) }

  function Maj(x: bv32, y: bv32, z: bv32): bv32 { (x & y) ^ (x & z) ^ (y & z) }

  function BigSigma0(x: bv32): bv32 { x.RotateRight(2) ^ x.RotateRight(13) ^ x.RotateRight(22) }

  function BigSigma1(x: bv32): bv32 { x.RotateRight(6) ^ x.RotateRight(11) ^ x.RotateRight(25) }

  function SmallSigma0(x: bv32): bv32 { x.RotateRight(7) ^ x.RotateRight(18) ^ (x >> 3) }

  function SmallSigma1(x: bv32): bv32 { x.RotateRight(17) ^ x.RotateRight(19) ^ (x >> 10) }

  // ---- 4.2.2 and 5.3.3: constants ----

  const ROUND_CONSTANTS: seq<word> := [
    0x428a2f98, 0x71374491, 0xb5c0fbcf, 0xe9b5dba5, 0x3956c25b, 0x59f111f1, 0x923f82a4, 0xab1c5ed5,
    0xd807aa98, 0x12835b01, 0x243185be, 0x550c7dc3, 0x72be5d74, 0x80deb1fe, 0x9bdc06a7, 0xc19bf174,
    0xe49b69c1, 0xefbe4786, 0x0fc19dc6, 0x240ca1cc, 0x2de92c6f, 0x4a7484aa, 0x5cb0a9dc, 0x76f988da,
    0x983e5152, 0xa831c66d, 0xb00327c8, 0xbf597fc7, 0xc6e00bf3, 0xd5a79147, 0x06ca6351, 0x14292967,
    0x27b70a85, 0x2e1b2138, 0x4d2c6dfc, 0x53380d13, 0x650a7354, 0x766a0abb, 0x81c2c92e, 0x92722c85,
    0xa2bfe8a1, 0xa81a664b, 0xc24b8b70, 0xc76c51a3, 0xd192e819, 0xd6990624, 0xf40e3585, 0x106aa070,
    0x19a4c116, 0x1e376c08, 0x2748774c, 0x34b0bcb5, 0x391c0cb3, 0x4ed8aa4a, 0x5b9cca4f, 0x682e6ff3,
    0x748f82ee, 0x78a5636f, 0x84c87814, 0x8cc70208, 0x90befffa, 0xa4506ceb, 0xbef9a3f7, 0xc67178f2
  ]

  const INITIAL: seq<word> := [
    0x6a09e667, 0xbb67ae85, 0x3c6ef372, 0xa54ff53a, 0x510e527f, 0x9b05688c, 0x1f83d9ab, 0x5be0cd19
  ]

  function K(t: nat): bv32
    requires t < 64
  {
    ROUND_CONSTANTS[t] as bv32
  }

  function InitialHash(): (h: seq<bv32>)
    ensures |h| == 8
  {
    seq(8, i requires 0 <= i < 8 => INITIAL[i] as bv32)
  }

  // ---- 5.2.1, 6.2.2: blocks, message schedule, rounds ----

  datatype Working = Working(a: bv32, b: bv32, c: bv32, d: bv32, e: bv32, f: bv32, g: bv32, h: bv32)

  function BlockWord(block: seq<byte>, t: nat): bv32
    requires |block| == 64 && t < 16
  {
    Join(block[4 * t] as bv32, block[4 * t + 1] as bv32, block[4 * t + 2] as bv32, block[4 * t + 3] as bv32)
  }

  function Join(b0: bv32, b1: bv32, b2: bv32, b3: bv32): bv32 {
    (b0 << 24) | (b1 << 16) | (b2 << 8) | b3
  }

  /** The standard adds these four in the opposite order, which is the same modulo 2^32. */
  function ExpandedWord(w16: bv32, w15: bv32, w7: bv32, w2: bv32): bv32 {
    Add(Add(Add(w16, SmallSigma0(w15)), w7), SmallSigma1(w2))
  }

  /** The first n words of the message schedule. */
  function Schedule(block: seq<byte>, n: nat): (w: seq<bv32>)
    requires |block| == 64 && 16 <= n
    ensures |w| == n
  {
    if n == 16 then seq(16, t requires 0 <= t < 16 => BlockWord(block, t))
    else
      var w := Schedule(block, n - 1);
      w + [ExpandedWord(w[n - 17], w[n - 16], w[n - 8], w[n - 3])]
  }

  function Round(v: Working, k: bv32, w: bv32): Working {
    var t1 := Add(Add(Add(Add(v.h, BigSigma1(v.e)), Ch(v.e, v.f, v.g)), k), w);
    var t2 := Add(BigSigma0(v.a), Maj(v.a, v.b, v.c));
    Working(Add(t1, t2), v.a, v.b, v.c, Add(v.d, t1), v.e, v.f, v.g)
  }

  function Rounds(v: Working, w: seq<bv32>, t: nat): Working
    requires |w| == 64 && t <= 64
  {
    if t == 0 then v else Round(Rounds(v, w, t - 1), K(t - 1), w[t - 1])
  }

  function Spread(h: seq<bv32>): Working
    requires |h| == 8
  {
    Working(h[0], h[1], h[2], h[3], h[4], h[5], h[6], h[7])
  }

  function Compress(h: seq<bv32>, block: seq<byte>): (r: seq<bv32>)
    requires |h| == 8 && |block| == 64
    ensures |r| == 8
  {
    var w := Schedule(block, |block|);  // as many words as bytes: 64
    var v := Rounds(Spread(h), w, |w|);
    [Add(h[0], v.a), Add(h[1], v.b), Add(h[2], v.c), Add(h[3], v.d),
     Add(h[4], v.e), Add(h[5], v.f), Add(h[6], v.g), Add(h[7], v.h)]
  }

  /** The intermediate hash value after all 64-byte blocks of the data, H(N) of 6.2.2. */
  function HashBlocks(data: seq<byte>): (h: seq<bv32>)
    requires |data| % 64 == 0
    ensures |h| == 8
    decreases |data|
  {
    if data == [] then InitialHash() else Compress(HashBlocks(data[..|data| - 64]), data[|data| - 64..])
  }

  // ---- 5.1.1: padding ----

  predicate FillsBlock(l: nat, k: nat) { (l + 1 + k) % 512 == 448 }

  /** The least k >= 0 with l + 1 + k = 448 (mod 512). */
  function ZeroBits(l: nat): (k: nat)
    ensures FillsBlock(l, k)
    ensures forall j: nat :: FillsBlock(l, j) ==> k <= j
  {
    (447 - l) % 512
  }

  function BigEndian64(n: nat): (s: seq<byte>)
    ensures |s| == 8
  {
    seq(8, i requires 0 <= i < 8 => (n / PowerOf256(7 - i) % 256) as byte)
  }

  lemma ZeroBitsAreBytes(n: nat)
    ensures ZeroBits(8 * n) == 8 * ((55 - n) % 64) + 7
  {
    var q, r := (55 - n) / 64, (55 - n) % 64;
    assert 447 - 8 * n == 512 * q + (8 * r + 7);
  }

  /** A message of whole bytes with its padding up to the length field: the bit 1 and k zero bits are the byte
      0x80 and (k - 7) / 8 zero bytes. */
  function PaddedToLength(message: seq<byte>): (p: seq<byte>)
    ensures |p| % 64 == 56
  {
    ZeroBitsAreBytes(|message|);
    message + [0x80] + Zeros((ZeroBits(8 * |message|) - 7) / 8)
  }

  function Padded(message: seq<byte>, lengthField: nat): (p: seq<byte>)
    ensures |p| % 64 == 0
  {
    PaddedToLength(message) + BigEndian64(lengthField)
  }

  // ---- 6.2.2: the digest, printed as 64 hexadecimal digits ----

  function HexDigit(d: nat): char
    requires d < 16
  {
    "0123456789abcdef"[d]
  }

  /** The `width` low hexadecimal digits of n, most significant first. */
  function HexFixed(n: nat, width: nat): string {
    if width == 0 then "" else HexFixed(n / 16, width - 1) + [HexDigit(n % 16)]
  }

  function HexWords(h: seq<bv32>): string {
    if h == [] then "" else HexWords(h[..|h| - 1]) + HexFixed(h[|h| - 1] as int, 8)
  }

  /** The digest for a given length field; the standard's is the length in bits, below 2^64. */
  function DigestWithLength(message: seq<byte>, lengthField: nat): string {
    HexWords(HashBlocks(Padded(message, lengthField)))
  }

  function Digest(message: seq<byte>): string
    requires 8 * |message| < TWO64
  {
    DigestWithLength(message, 8 * |message|)
  }
}

/** The runner's class. */
module StreamingSha256 {
  import opened Bytes
  import opened Sequences
  import opened Fips180

  /** A mark: the methods below see the hash of whole blocks as an unknown function, and only where this is
      mentioned is it looked into. */
  predicate LookInto(data: seq<byte>) { true }

  ghost predicate IsHash(hashOf: seq<byte> -> seq<bv32>) {
    forall data {:trigger LookInto(data)} ::
      LookInto(data) && |data| % 64 == 0 ==> hashOf(data) == HashBlocks(data)
  }

  function WholeHash(): seq<byte> -> seq<bv32> {
    data => if |data| % 64 == 0 then HashBlocks(data) else []
  }

  lemma WholeHashIsHash()
    ensures IsHash(WholeHash()) && WholeHash()([]) == InitialHash()
  {
  }

  lemma WholeBlocksAppend(data: seq<byte>, block: seq<byte>)
    requires |data| % 64 == 0 && |block| == 64
    ensures |data + block| % 64 == 0
  {
  }

  lemma HashBlocksAppend(data: seq<byte>, h: seq<bv32>, block: seq<byte>)
    requires |data| % 64 == 0 && |data + block| % 64 == 0 && h == HashBlocks(data) && |block| == 64
    ensures HashBlocks(data + block) == Compress(h, block)
  {
    assert (data + block)[..|data + block| - 64] == data;
    assert (data + block)[|data + block| - 64..] == block;
  }

  lemma HashOfAppend(hashOf: seq<byte> -> seq<bv32>, data: seq<byte>, h: seq<bv32>, block: seq<byte>)
    requires IsHash(hashOf) && |data| % 64 == 0 && h == hashOf(data) && |block| == 64
    ensures |h| == 8 && hashOf(data + block) == Compress(h, block)
  {
    WholeBlocksAppend(data, block);
    assert LookInto(data);
    HashBlocksAppend(data, h, block);
    assert LookInto(data + block);
  }

  method HashNextBlock(ghost hashOf: seq<byte> -> seq<bv32>, ghost hashed: seq<byte>, state: seq<bv32>,
                       block: seq<byte>)
    returns (r: seq<bv32>)
    requires IsHash(hashOf) && |hashed| % 64 == 0 && state == hashOf(hashed) && |block| == 64
    ensures |r| == 8 && r == hashOf(hashed + block)
  {
    HashOfAppend(hashOf, hashed, state, block);
    r := CompressBlock(state, block);
  }

  lemma HashIsDigest(hashOf: seq<byte> -> seq<bv32>, message: seq<byte>, lengthField: nat)
    requires IsHash(hashOf)
    ensures HexWords(hashOf(Padded(message, lengthField))) == DigestWithLength(message, lengthField)
  {
    assert LookInto(Padded(message, lengthField));
  }

  /** The zeros the two branches of Final write, from the fill of the open block. */
  lemma ZerosOfPadding(message: seq<byte>, fill: nat)
    requires fill < 64 && (|message| - fill) % 64 == 0
    ensures PaddedToLength(message) == message + [0x80] + Zeros(if fill < 56 then 55 - fill else 119 - fill)
  {
    ZeroBitsAreBytes(|message|);
    ZeroBytes(|message|, fill, (|message| - fill) / 64);
  }

  lemma ZeroBytes(n: nat, fill: nat, q: int)
    requires fill < 64 && n == 64 * q + fill
    ensures (55 - n) % 64 == if fill < 56 then 55 - fill else 119 - fill
  {
    assert 55 - n == 64 * (-q) + (55 - fill) == 64 * (-q - 1) + (119 - fill);
  }

  class Sha256 {
    const state: array<bv32>
    const block: array<byte>
    var blockSize: nat
    var bitLength: nat
    ghost const hashOf: seq<byte> -> seq<bv32>
    ghost var hashed: seq<byte>   // the whole blocks compressed so far
    ghost var message: seq<byte>  // all bytes passed to Update

    ghost predicate Hashing()
      reads this, state, block
    {
      && state.Length == 8 && block.Length == 64 && IsHash(hashOf)
      && |hashed| % 64 == 0 && state[..] == hashOf(hashed)
    }

    ghost predicate Valid()
      reads this, state, block
    {
      && Hashing() && blockSize < 64
      && message == hashed + block[..blockSize]
      && bitLength == 8 * |message| % TWO64
    }

    constructor ()
      ensures Valid() && message == []
      ensures fresh(state) && fresh(block)
    {
      state := new bv32[8](i requires 0 <= i < 8 => INITIAL[i] as bv32);
      block := new byte[64](_ => 0);
      blockSize, bitLength := 0, 0;
      hashOf := WholeHash();
      hashed, message := [], [];
      new;
      WholeHashIsHash();
      assert state[..] == InitialHash();
    }

    method Update(data: seq<byte>)
      requires Valid()
      modifies this, state, block
      ensures Valid() && message == old(message) + data
    {
      CountBits(|data|);
      var rest := data;
      message := message + data;
      ghost var bits := bitLength;
      while |rest| > 0
        invariant Hashing() && blockSize < 64 && bitLength == bits
        invariant message == old(message) + data == hashed + block[..blockSize] + rest
      {
        var take := Min(|rest|, block.Length - blockSize);
        Absorb(rest[..take]);
        assert rest == rest[..take] + rest[take..];
        rest := rest[take..];
      }
    }

    /** One turn of the loop of Update. */
    method Absorb(piece: seq<byte>)
      requires Hashing() && blockSize + |piece| <= 64
      modifies this`blockSize, this`hashed, state, block
      ensures Hashing() && blockSize < 64
      ensures hashed + block[..blockSize] == old(hashed + block[..blockSize]) + piece
    {
      FillBlock(piece);
      if blockSize == block.Length {
        Transform();
        blockSize := 0;
      }
    }

    /** The counter is 64 bits wide, and so is the product that is added to it. */
    method CountBits(size: nat)
      requires bitLength == 8 * |message| % TWO64
      modifies this`bitLength
      ensures bitLength == 8 * (|message| + size) % TWO64
    {
      bitLength := (bitLength + size * 8 % TWO64) % TWO64;
    }

    /** The copy of the next bytes behind those already in the block. */
    method FillBlock(piece: seq<byte>)
      requires Hashing() && blockSize + |piece| <= 64
      modifies this`blockSize, block
      ensures Hashing() && blockSize == old(blockSize) + |piece|
      ensures block[..blockSize] == old(block[..blockSize]) + piece
    {
      forall i | 0 <= i < |piece| {
        block[blockSize + i] := piece[i];
      }
      blockSize := blockSize + |piece|;
    }

    method Transform()
      requires Hashing()
      modifies this`hashed, state
      ensures Hashing() && hashed == old(hashed) + block[..]
      ensures block[..] == old(block[..])
    {
      var h := HashNextBlock(hashOf, hashed, state[..], block[..]);
      hashed := hashed + block[..];
      forall i | 0 <= i < 8 {
        state[i] := h[i];
      }
      assert state[..] == h && block[..] == old(block[..]);
    }

    /** Pads, compresses the last block or the last two, and prints the hash. */
    method Final() returns (digest: string)
      requires Valid()
      modifies this`blockSize, this`hashed, state, block
      ensures digest == DigestWithLength(message, 8 * |message| % TWO64)
    {
      ghost var field := 8 * |message| % TWO64;
      assert bitLength == field;
      CloseMessage();
      HashIsDigest(hashOf, message, field);
      digest := Print(state[..]);
    }

    method CloseMessage()
      requires Valid()
      modifies this`blockSize, this`hashed, state, block
      ensures Hashing() && hashed == Padded(message, bitLength)
    {
      MarkEnd();
      FillZeros(56);
      PutLength();
      Transform();
    }

    /** The byte 0x80, and a block of its own for what then leaves no room for the length. */
    method MarkEnd()
      requires Valid()
      modifies this`blockSize, this`hashed, state, block
      ensures Hashing() && blockSize <= 56
      ensures hashed + block[..blockSize] + Zeros(56 - blockSize) == PaddedToLength(message)
    {
      FillBlock([0x80]);
      if blockSize > 56 {
        FillZeros(64);
        assert block[..] == block[..64];
        Transform();
        blockSize := 0;
      }
      ZerosOfPadding(message, old(blockSize));
    }

    /** Zeros from the fill point up to the mark. */
    method FillZeros(mark: nat)
      requires Hashing() && blockSize <= mark <= 64
      modifies block
      ensures Hashing() && block[..mark] == old(block[..blockSize]) + Zeros(mark - blockSize)
    {
      forall i | blockSize <= i < mark {
        block[i] := 0;
      }
    }

    /** The bit count, most significant byte first, in the last eight bytes. */
    method PutLength()
      requires Hashing()
      modifies block
      ensures Hashing() && block[..] == old(block[..56]) + BigEndian64(bitLength)
    {
      for i := 0 to 8
        invariant block[..56] == old(block[..56])
        invariant forall j :: 64 - i <= j < 64 ==> block[j] == BigEndian64(bitLength)[j - 56]
      {
        block[63 - i] := (bitLength / PowerOf256(i) % 256) as byte;
      }
    }
  }

  /** Each word as a hexadecimal number filled with zeros to width 8. */
  method Print(words: seq<bv32>) returns (out: string)
    ensures out == HexWords(words)
  {
    out := "";
    for i := 0 to |words|
      invariant out == HexWords(words[..i])
    {
      FilledIsFixed(words[i] as int, 8);
      out := out + Filled(HexNumber(words[i] as int), 8);
      assert words[..i + 1][..i] == words[..i];
    }
    assert words[..|words|] == words;
  }

  function HexNumber(n: nat): string {
    if n < 16 then [HexDigit(n)] else HexNumber(n / 16) + [HexDigit(n % 16)]
  }

  function Filled(s: string, width: nat): string {
    seq(if |s| < width then width - |s| else 0, _ => '0') + s
  }

  function PowerOf16(k: nat): nat { if k == 0 then 1 else 16 * PowerOf16(k - 1) }

  lemma {:induction false} FilledIsFixed(n: nat, width: nat)
    requires width > 0 && n < PowerOf16(width)
    ensures |HexNumber(n)| <= width
    ensures Filled(HexNumber(n), width) == HexFixed(n, width)
  {
    if n < 16 {
      ZerosAreZero(width - 1);
    } else {
      FilledIsFixed(n / 16, width - 1);
      FilledAppend(HexNumber(n / 16), HexDigit(n % 16), width - 1);
    }
  }

  lemma FilledAppend(s: string, c: char, width: nat)
    requires |s| <= width
    ensures Filled(s + [c], width + 1) == Filled(s, width) + [c]
  {
  }

  lemma {:induction false} ZerosAreZero(width: nat)
    ensures HexFixed(0, width) == seq(width, _ => '0')
  {
    if width > 0 {
      ZerosAreZero(width - 1);
    }
  }

  function Concat(pieces: seq<seq<byte>>): seq<byte> {
    if pieces == [] then [] else Concat(pieces[..|pieces| - 1]) + pieces[|pieces| - 1]
  }

  /** The checkpoint hash: the file arrives in pieces, and the digest is that of the whole.  Past 2^64 bits the
      length field wraps. */
  method HashPieces(pieces: seq<seq<byte>>) returns (digest: string)
    ensures digest == DigestWithLength(Concat(pieces), 8 * |Concat(pieces)| % TWO64)
    ensures 8 * |Concat(pieces)| < TWO64 ==> digest == Digest(Concat(pieces))
  {
    var hash := AbsorbPieces(pieces);
    digest := hash.Final();
    FieldIsLength(Concat(pieces));
  }

  lemma FieldIsLength(message: seq<byte>)
    ensures 8 * |message| < TWO64 ==> 8 * |message| % TWO64 == 8 * |message|
  {
  }

  method AbsorbPieces(pieces: seq<seq<byte>>) returns (hash: Sha256)
    ensures fresh(hash) && fresh(hash.state) && fresh(hash.block)
    ensures hash.Valid() && hash.message == Concat(pieces)
  {
    hash := new Sha256();
    for i := 0 to |pieces|
      invariant hash.Valid() && hash.message == Concat(pieces[..i])
      invariant fresh(hash) && fresh(hash.state) && fresh(hash.block)
    {
      assert pieces[..i + 1][..i] == pieces[..i];
      if |pieces[i]| > 0 {
        hash.Update(pieces[i]);
      }
    }
    assert pieces[..|pieces|] == pieces;
  }

  /** Rotation by two shifts, as the runner writes it, is rotation. */
  lemma SigmaForms(x: bv32)
    ensures ((x >> 2) | (x << 30)) ^ ((x >> 13) | (x << 19)) ^ ((x >> 22) | (x << 10)) == BigSigma0(x)
    ensures ((x >> 6) | (x << 26)) ^ ((x >> 11) | (x << 21)) ^ ((x >> 25) | (x << 7)) == BigSigma1(x)
    ensures ((x >> 7) | (x << 25)) ^ ((x >> 18) | (x << 14)) ^ (x >> 3) == SmallSigma0(x)
    ensures ((x >> 17) | (x << 15)) ^ ((x >> 19) | (x << 13)) ^ (x >> 10) == SmallSigma1(x)
  {
  }

  /** The rounds, on the eight working variables. */
  method CompressBlock(state: seq<bv32>, block: seq<byte>) returns (r: seq<bv32>)
    requires |state| == 8 && |block| == 64
    ensures r == Compress(state, block)
  {
    var w := ExpandBlock(block);
    var a, b, c, d := state[0], state[1], state[2], state[3];
    var e, f, g, h := state[4], state[5], state[6], state[7];
    for i := 0 to |w|
      invariant Working(a, b, c, d, e, f, g, h) == Rounds(Spread(state), w, i)
    {
      a, b, c, d, e, f, g, h := MixRound(a, b, c, d, e, f, g, h, K(i), w[i]);
    }
    r := [Add(state[0], a), Add(state[1], b), Add(state[2], c), Add(state[3], d),
          Add(state[4], e), Add(state[5], f), Add(state[6], g), Add(state[7], h)];
  }

  method ExpandBlock(block: seq<byte>) returns (w: seq<bv32>)
    requires |block| == 64
    ensures w == Schedule(block, |block|)
  {
    w := FirstWords(block);
    for i := 16 to |block|
      invariant w == Schedule(block, i)
    {
      var next := ExtendWord(w[i - 16], w[i - 15], w[i - 7], w[i - 2]);
      w := w + [next];
    }
  }

  method FirstWords(block: seq<byte>) returns (w: seq<bv32>)
    requires |block| == 64
    ensures w == Schedule(block, 16)
  {
    w := [];
    for i := 0 to 16
      invariant |w| == i && forall j :: 0 <= j < i ==> w[j] == BlockWord(block, j)
    {
      var word := LoadWord(block, i);
      w := w + [word];
    }
  }

  method LoadWord(block: seq<byte>, i: nat) returns (word: bv32)
    requires |block| == 64 && i < 16
    ensures word == BlockWord(block, i)
  {
    var b0, b1 := block[i * 4] as bv32, block[i * 4 + 1] as bv32;
    var b2, b3 := block[i * 4 + 2] as bv32, block[i * 4 + 3] as bv32;
    word := (b0 << 24) | (b1 << 16) | (b2 << 8) | b3;
  }

  method ExtendWord(w16: bv32, w15: bv32, w7: bv32, w2: bv32) returns (w: bv32)
    ensures w == ExpandedWord(w16, w15, w7, w2)
  {
    var s0 := ((w15 >> 7) | (w15 << 25)) ^ ((w15 >> 18) | (w15 << 14)) ^ (w15 >> 3);
    var s1 := ((w2 >> 17) | (w2 << 15)) ^ ((w2 >> 19) | (w2 << 13)) ^ (w2 >> 10);
    w := Add(Add(Add(w16, s0), w7), s1);
    SigmaForms(w15);
    SigmaForms(w2);
  }

  method MixRound(a0: bv32, b0: bv32, c0: bv32, d0: bv32, e0: bv32, f0: bv32, g0: bv32, h0: bv32, k: bv32, w: bv32)
    returns (a: bv32, b: bv32, c: bv32, d: bv32, e: bv32, f: bv32, g: bv32, h: bv32)
    ensures Working(a, b, c, d, e, f, g, h) == Round(Working(a0, b0, c0, d0, e0, f0, g0, h0), k, w)
  {
    a, b, c, d, e, f, g, h := a0, b0, c0, d0, e0, f0, g0, h0;
    var sum1 := ((e >> 6) | (e << 26)) ^ ((e >> 11) | (e << 21)) ^ ((e >> 25) | (e << 7));
    var choose := (e & f) ^ (!e & g);
    var temp1 := Add(Add(Add(Add(h, sum1), choose), k), w);
    var sum0 := ((a >> 2) | (a << 30)) ^ ((a >> 13) | (a << 19)) ^ ((a >> 22) | (a << 10));
    var majority := (a & b) ^ (a & c) ^ (b & c);
    var temp2 := Add(sum0, majority);
    h := g;
    g := f;
    f := e;
    e := Add(d, temp1);
    d := c;
    c := b;
    b := a;
    a := Add(temp1, temp2);
    SigmaForms(e0);
    SigmaForms(a0);
  }
}
