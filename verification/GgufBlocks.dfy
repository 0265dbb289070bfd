/** The GGUF block formats Q4_0, Q4_1 and Q8_0 over the reals: packers, unpackers and the reference round trips. */
module GgufBlocks {
  import opened Wrappers
  import opened Rounding
  import opened Sequences
  import opened Lanes

  datatype Error = NotWholeBlocks | WrongSize

  const BLOCK: nat := 32

  /** How a real number is stored in 16 bits, and the value of what is stored; nothing else is known of it. */
  datatype Halves = Halves(bits: real -> bv16, value: bv16 -> real)
  {
    /** The value a real number has after it was stored. */
    function Stored(): real -> real { x => value(bits(x)) }
  }

  lemma PartsOf(a: seq<bv8>, b: seq<bv8>)
    ensures (a + b)[..|a|] == a && (a + b)[|a|..] == b
  {
  }

  /** A block as it is read: the values of its stored halves, and its codes. */
  datatype Block40 = Block40(scale: real, qs: NibbleBytes)
  datatype Block41 = Block41(scale: real, minimum: real, qs: NibbleBytes)
  datatype Block80 = Block80(scale: real, qs: SignedBytes)

  function Blocks(values: seq<real>): seq<Block> { Chunks(values, BLOCK) }

  /** As many chunks of bytes as there are blocks of weights, and nothing more. */
  ghost predicate Packed(packed: seq<bv8>, size: nat, weights: seq<real>)
    requires size > 0
  {
    |Chunks(packed, size)| == |Blocks(weights)| && |packed| == SizeOfChunks(|Blocks(weights)|, size)
  }

  /** Images of related elements concatenate to the same sequence. */
  lemma {:induction false} FlatMapSame<A, B, C>(f: A -> seq<C>, xs: seq<A>, g: B -> seq<C>, ys: seq<B>)
    requires |xs| == |ys| && forall j :: 0 <= j < |xs| ==> f(xs[j]) == g(ys[j])
    ensures FlatMap(f, xs) == FlatMap(g, ys)
  {
    if xs != [] {
      FlatMapSame(f, xs[1..], g, ys[1..]);
    }
  }

  // ---- Q4_0 ----

  function Scale40(block: Block): (s: real)
    ensures s >= 0.0
  {
    if MaxAbs(block) > 0.0 then MaxAbs(block) / 7.0 else 0.0
  }

  function Quant40(inv: real, x: real): int { Clamp(Round(x * inv), -8, 7) }

  function Code40(inv: real): real -> nibble { x => (Quant40(inv, x) + 8) as nibble }

  function Value40(scale: real): nibble -> real { n => Steps(n as int - 8, scale) }

  function Through40(inv: real, stored: real): real -> real { x => Steps(Quant40(inv, x), stored) }

  ghost predicate Packs40(f16: real -> real, block: Block, b: Block40) {
    b.scale == f16(Scale40(block)) && PacksLanes(Code40(Inverse(Scale40(block))), block, b.qs)
  }

  function Unpack40(b: Block40): seq<real> { ReadLanes(Value40(b.scale), b.qs) }

  function Reference40(f16: real -> real): Block -> seq<real> {
    (block: Block) => Image(Through40(Inverse(Scale40(block)), f16(Scale40(block))), block)
  }

  const SIZE40: nat := 18

  /** The 18 bytes of a block: the stored scale, then the lanes. */
  ghost predicate Bytes40(h: Halves, block: Block, b: seq<bv8>) {
    && |b| == SIZE40 && b[..2] == HalfBytes(h.bits(Scale40(block)))
    && PacksLanes(Code40(Inverse(Scale40(block))), block, b[2..])
  }

  function Read40(h: Halves, b: seq<bv8>): Block40
    requires |b| == SIZE40
  {
    Block40(h.value(BytesHalf(b[..2])), b[2..])
  }

  function ReadAll40(h: Halves, packed: seq<bv8>): seq<Block40> {
    var chunks := Chunks(packed, SIZE40);
    seq(|chunks|, j requires 0 <= j < |chunks| => Read40(h, chunks[j]))
  }

  lemma ReadOfBytes40(h: Halves, block: Block, b: seq<bv8>)
    requires Bytes40(h, block, b)
    ensures Packs40(h.Stored(), block, Read40(h, b))
  {
    HalfRoundTrip(h.bits(Scale40(block)));
  }

  method PackBlock40(h: Halves, block: Block) returns (bytes: seq<bv8>)
    ensures Bytes40(h, block, bytes)
  {
    var amax := FindMaxAbs(block);
    var scale := if amax > 0.0 then amax / 7.0 else 0.0;
    var qs := PackLanes(Code40(Inverse(scale)), block);
    assert scale == Scale40(block);
    bytes := HalfBytes(h.bits(scale)) + qs;
    PartsOf(HalfBytes(h.bits(scale)), qs);
  }

  method PackQ40(h: Halves, weights: seq<real>) returns (r: Result<seq<bv8>, Error>)
    ensures |weights| % BLOCK != 0 ==> r == Err(NotWholeBlocks)
    ensures |weights| % BLOCK == 0 ==> r.Ok? && Packed(r.value, SIZE40, weights)
    ensures r.Ok? ==>
              forall j :: 0 <= j < |Blocks(weights)| ==> Bytes40(h, Blocks(weights)[j], Chunks(r.value, SIZE40)[j])
  {
    if |weights| % BLOCK != 0 {
      return Err(NotWholeBlocks);
    }
    var out, blocks := [], Blocks(weights);
    for j := 0 to |blocks|
      invariant |out| == SizeOfChunks(j, SIZE40) && |Chunks(out, SIZE40)| == j
      invariant forall k :: 0 <= k < j ==> Bytes40(h, blocks[k], Chunks(out, SIZE40)[k])
    {
      var bytes := PackBlock40(h, blocks[j]);
      ChunksAppend(out, SIZE40, j, bytes);
      out := out + bytes;
    }
    return Ok(out);
  }

  method DequantQ40(h: Halves, packed: seq<bv8>, numel: nat) returns (r: Result<seq<real>, Error>)
    ensures numel % BLOCK != 0 ==> r == Err(NotWholeBlocks)
    ensures numel % BLOCK == 0 && |packed| != numel / BLOCK * SIZE40 ==> r == Err(WrongSize)
    ensures numel % BLOCK == 0 && |packed| == numel / BLOCK * SIZE40 ==>
              r == Ok(FlatMap(Unpack40, ReadAll40(h, packed))) && |ReadAll40(h, packed)| == numel / BLOCK
  {
    if numel % BLOCK != 0 {
      return Err(NotWholeBlocks);
    }
    var count := numel / BLOCK;
    if |packed| != count * SIZE40 {
      return Err(WrongSize);
    }
    SizeIsProduct(count, SIZE40);
    ChunkCount(packed, SIZE40, count);
    ghost var blocks := ReadAll40(h, packed);
    var out := [];
    for j := 0 to count
      invariant out == FlatMap(Unpack40, blocks[..j])
    {
      SizeIsProduct(j, SIZE40);
      ChunkAt(packed, SIZE40, j);
      FlatMapStep(Unpack40, blocks, j);
      var lanes := DequantBlock40(Read40(h, packed[j * SIZE40..j * SIZE40 + SIZE40]));
      out := out + lanes;
    }
    assert blocks[..count] == blocks;
    return Ok(out);
  }

  method DequantBlock40(b: Block40) returns (lanes: seq<real>)
    ensures lanes == Unpack40(b)
  {
    lanes := [];
    for i := 0 to BLOCK
      invariant |lanes| == i && forall k :: 0 <= k < i ==> lanes[k] == Unpack40(b)[k]
    {
      var byte := b.qs[i % 16];
      var code := if i < 16 then LowNibble(byte) else HighNibble(byte);
      assert code == LaneCode(b.qs, i) && Unpack40(b)[i] == Value40(b.scale)(code);
      lanes := lanes + [Steps(code as int - 8, b.scale)];
    }
  }

  /** Unpacking a packed block gives the reference round trip of the block. */
  lemma UnpackOfPack40(f16: real -> real, block: Block, b: Block40)
    requires Packs40(f16, block, b)
    ensures Unpack40(b) == Reference40(f16)(block)
  {
    var inv := Inverse(Scale40(block));
    ReadOfPacked(Code40(inv), Value40(b.scale), Through40(inv, b.scale), block, b.qs);
  }

  /** Packing a tensor and reading it back is the independent reference round trip of the tensor. */
  lemma TensorRoundTrip40(h: Halves, weights: seq<real>, packed: seq<bv8>)
    requires Packed(packed, SIZE40, weights)
    requires forall j :: 0 <= j < |Blocks(weights)| ==> Bytes40(h, Blocks(weights)[j], Chunks(packed, SIZE40)[j])
    ensures FlatMap(Unpack40, ReadAll40(h, packed)) == FlatMap(Reference40(h.Stored()), Blocks(weights))
  {
    var blocks := ReadAll40(h, packed);
    forall j | 0 <= j < |blocks| ensures Unpack40(blocks[j]) == Reference40(h.Stored())(Blocks(weights)[j]) {
      ReadOfBytes40(h, Blocks(weights)[j], Chunks(packed, SIZE40)[j]);
      UnpackOfPack40(h.Stored(), Blocks(weights)[j], blocks[j]);
    }
    FlatMapSame(Unpack40, blocks, Reference40(h.Stored()), Blocks(weights));
  }

  lemma ElementBound40(block: Block, i: nat)
    requires i < BLOCK
    ensures Abs(block[i]) <= 7.0 * Scale40(block)
  {
    MaxAbsBounds(block);
    assert block[i] in block;
  }

  /** The clamp never changes a value. */
  lemma NeverClamps40(block: Block, i: nat)
    requires i < BLOCK
    ensures Quant40(Inverse(Scale40(block)), block[i]) == Round(block[i] * Inverse(Scale40(block)))
  {
    ElementBound40(block, i);
    ScalarExact40(block[i], Scale40(block));
  }

  lemma ScalarExact40(x: real, s: real)
    requires s >= 0.0 && Abs(x) <= 7.0 * s
    ensures Quant40(Inverse(s), x) == Round(x * Inverse(s))
  {
    RoundBetween(x, s, -7, 7);
  }

  /** The error is at most half a step and seven times the error of the stored scale. */
  lemma Error40(f16: real -> real, block: Block, b: Block40, i: nat)
    requires Packs40(f16, block, b) && i < BLOCK
    ensures Near(Unpack40(b)[i], block[i], Spread(Scale40(block), b.scale, 7))
  {
    UnpackOfPack40(f16, block, b);
    ElementBound40(block, i);
    ScalarError40(block[i], Scale40(block), b.scale);
  }

  lemma ScalarError40(x: real, s: real, t: real)
    requires s >= 0.0 && Abs(x) <= 7.0 * s
    ensures Near(Through40(Inverse(s), t)(x), x, Spread(s, t, 7))
  {
    ScalarExact40(x, s);
    QuantizationError(x, s, t, 7);
  }

  // ---- Q4_1 ----

  function Scale41(block: Block): (s: real)
    ensures s >= 0.0
  {
    if Greatest(block) > Least(block) then (Greatest(block) - Least(block)) / 15.0 else 0.0
  }

  function Level41(inv: real, minimum: real, x: real): int { Round((x - minimum) * inv) }

  function Quant41(inv: real, minimum: real, x: real): int { Clamp(Level41(inv, minimum, x), 0, 15) }

  function Code41(inv: real, minimum: real): real -> nibble { x => Quant41(inv, minimum, x) as nibble }

  function Value41(scale: real, minimum: real): nibble -> real { n => Steps(n as int, scale) + minimum }

  function Through41(inv: real, minimum: real, storedScale: real, storedMinimum: real): real -> real {
    x => Steps(Quant41(inv, minimum, x), storedScale) + storedMinimum
  }

  ghost predicate Packs41(f16: real -> real, block: Block, b: Block41) {
    && b.scale == f16(Scale41(block)) && b.minimum == f16(Least(block))
    && PacksLanes(Code41(Inverse(Scale41(block)), Least(block)), block, b.qs)
  }

  function Unpack41(b: Block41): seq<real> { ReadLanes(Value41(b.scale, b.minimum), b.qs) }

  function Reference41(f16: real -> real): Block -> seq<real> {
    (block: Block) =>
      Image(Through41(Inverse(Scale41(block)), Least(block), f16(Scale41(block)), f16(Least(block))), block)
  }

  const SIZE41: nat := 20

  /** The 20 bytes of a block: the stored scale, the stored minimum, then the lanes. */
  ghost predicate Bytes41(h: Halves, block: Block, b: seq<bv8>) {
    && |b| == SIZE41 && b[..2] == HalfBytes(h.bits(Scale41(block))) && b[2..4] == HalfBytes(h.bits(Least(block)))
    && PacksLanes(Code41(Inverse(Scale41(block)), Least(block)), block, b[4..])
  }

  function Read41(h: Halves, b: seq<bv8>): Block41
    requires |b| == SIZE41
  {
    Block41(h.value(BytesHalf(b[..2])), h.value(BytesHalf(b[2..4])), b[4..])
  }

  function ReadAll41(h: Halves, packed: seq<bv8>): seq<Block41> {
    var chunks := Chunks(packed, SIZE41);
    seq(|chunks|, j requires 0 <= j < |chunks| => Read41(h, chunks[j]))
  }

  lemma ReadOfBytes41(h: Halves, block: Block, b: seq<bv8>)
    requires Bytes41(h, block, b)
    ensures Packs41(h.Stored(), block, Read41(h, b))
  {
    HalfRoundTrip(h.bits(Scale41(block)));
    HalfRoundTrip(h.bits(Least(block)));
  }

  method PackBlock41(h: Halves, block: Block) returns (bytes: seq<bv8>)
    ensures Bytes41(h, block, bytes)
  {
    var minimum, maximum := FindExtremes(block);
    var scale := if maximum > minimum then (maximum - minimum) / 15.0 else 0.0;
    var qs := PackLanes(Code41(Inverse(scale), minimum), block);
    assert scale == Scale41(block);
    bytes := HalfBytes(h.bits(scale)) + HalfBytes(h.bits(minimum)) + qs;
    PartsOf(HalfBytes(h.bits(scale)), HalfBytes(h.bits(minimum)));
    PartsOf(HalfBytes(h.bits(scale)) + HalfBytes(h.bits(minimum)), qs);
    assert bytes[..4][..2] == bytes[..2] && bytes[..4][2..] == bytes[2..4];
  }

  method PackQ41(h: Halves, weights: seq<real>) returns (r: Result<seq<bv8>, Error>)
    ensures |weights| % BLOCK != 0 ==> r == Err(NotWholeBlocks)
    ensures |weights| % BLOCK == 0 ==> r.Ok? && Packed(r.value, SIZE41, weights)
    ensures r.Ok? ==>
              forall j :: 0 <= j < |Blocks(weights)| ==> Bytes41(h, Blocks(weights)[j], Chunks(r.value, SIZE41)[j])
  {
    if |weights| % BLOCK != 0 {
      return Err(NotWholeBlocks);
    }
    var out, blocks := [], Blocks(weights);
    for j := 0 to |blocks|
      invariant |out| == SizeOfChunks(j, SIZE41) && |Chunks(out, SIZE41)| == j
      invariant forall k :: 0 <= k < j ==> Bytes41(h, blocks[k], Chunks(out, SIZE41)[k])
    {
      var bytes := PackBlock41(h, blocks[j]);
      ChunksAppend(out, SIZE41, j, bytes);
      out := out + bytes;
    }
    return Ok(out);
  }

  lemma UnpackOfPack41(f16: real -> real, block: Block, b: Block41)
    requires Packs41(f16, block, b)
    ensures Unpack41(b) == Reference41(f16)(block)
  {
    var inv, m := Inverse(Scale41(block)), Least(block);
    ReadOfPacked(Code41(inv, m), Value41(b.scale, b.minimum), Through41(inv, m, b.scale, b.minimum), block, b.qs);
  }

  lemma TensorRoundTrip41(h: Halves, weights: seq<real>, packed: seq<bv8>)
    requires Packed(packed, SIZE41, weights)
    requires forall j :: 0 <= j < |Blocks(weights)| ==> Bytes41(h, Blocks(weights)[j], Chunks(packed, SIZE41)[j])
    ensures FlatMap(Unpack41, ReadAll41(h, packed)) == FlatMap(Reference41(h.Stored()), Blocks(weights))
  {
    var blocks := ReadAll41(h, packed);
    forall j | 0 <= j < |blocks| ensures Unpack41(blocks[j]) == Reference41(h.Stored())(Blocks(weights)[j]) {
      ReadOfBytes41(h, Blocks(weights)[j], Chunks(packed, SIZE41)[j]);
      UnpackOfPack41(h.Stored(), Blocks(weights)[j], blocks[j]);
    }
    FlatMapSame(Unpack41, blocks, Reference41(h.Stored()), Blocks(weights));
  }

  lemma ElementBound41(block: Block, i: nat)
    requires i < BLOCK
    ensures 0.0 <= block[i] - Least(block) <= 15.0 * Scale41(block)
  {
    ExtremesBound(block);
    assert block[i] in block;
  }

  lemma NeverClamps41(block: Block, i: nat)
    requires i < BLOCK
    ensures var s, m := Scale41(block), Least(block);
            Quant41(Inverse(s), m, block[i]) == Level41(Inverse(s), m, block[i])
  {
    ElementBound41(block, i);
    ScalarExact41(block[i], Least(block), Scale41(block));
  }

  lemma ScalarExact41(x: real, m: real, s: real)
    requires s >= 0.0 && 0.0 <= x - m <= 15.0 * s
    ensures Quant41(Inverse(s), m, x) == Level41(Inverse(s), m, x)
  {
    RoundBetween(x - m, s, 0, 15);
  }

  /** The error is at most half a step, fifteen times the error of the stored scale and the error of the minimum. */
  lemma Error41(f16: real -> real, block: Block, b: Block41, i: nat)
    requires Packs41(f16, block, b) && i < BLOCK
    ensures Near(Unpack41(b)[i], block[i], Spread(Scale41(block), b.scale, 15) + Abs(b.minimum - Least(block)))
  {
    UnpackOfPack41(f16, block, b);
    ElementBound41(block, i);
    ScalarError41(block[i], Least(block), Scale41(block), b.scale, b.minimum);
  }

  lemma LevelError41(x: real, m: real, s: real, t: real)
    requires s >= 0.0 && 0.0 <= x - m <= 15.0 * s
    ensures Near(Steps(Level41(Inverse(s), m, x), t), x - m, Spread(s, t, 15))
  {
    var d := x - m;
    assert Level41(Inverse(s), m, x) == Round(d * Inverse(s));
    QuantizationError(d, s, t, 15);
  }

  lemma ScalarError41(x: real, m: real, s: real, t: real, n: real)
    requires s >= 0.0 && 0.0 <= x - m <= 15.0 * s
    ensures Near(Through41(Inverse(s), m, t, n)(x), x, Spread(s, t, 15) + Abs(n - m))
  {
    ScalarExact41(x, m, s);
    LevelError41(x, m, s, t);
    NearShifted(Steps(Level41(Inverse(s), m, x), t), x, m, n, Spread(s, t, 15));
  }

  // ---- Q8_0 ----

  function Scale80(block: Block): (s: real)
    ensures s >= 0.0
  {
    if MaxAbs(block) > 0.0 then MaxAbs(block) / 127.0 else 0.0
  }

  function Quant80(inv: real, x: real): int { Clamp(Round(x * inv), -127, 127) }

  function Code80(inv: real): real -> i8 { x => Quant80(inv, x) as i8 }

  function Value80(scale: real): i8 -> real { n => Steps(n as int, scale) }

  function Through80(inv: real, stored: real): real -> real { x => Steps(Quant80(inv, x), stored) }

  ghost predicate Packs80(f16: real -> real, block: Block, b: Block80) {
    b.scale == f16(Scale80(block)) && PacksBytes(Code80(Inverse(Scale80(block))), block, b.qs)
  }

  function Unpack80(b: Block80): seq<real> { ReadBytes(Value80(b.scale), b.qs) }

  function Reference80(f16: real -> real): Block -> seq<real> {
    (block: Block) => Image(Through80(Inverse(Scale80(block)), f16(Scale80(block))), block)
  }

  const SIZE80: nat := 34

  /** The 34 bytes of a block: the stored scale, then a signed byte for each lane. */
  ghost predicate Bytes80(h: Halves, block: Block, b: seq<bv8>) {
    && |b| == SIZE80 && b[..2] == HalfBytes(h.bits(Scale80(block)))
    && PacksBytes(Code80(Inverse(Scale80(block))), block, b[2..])
  }

  function Read80(h: Halves, b: seq<bv8>): Block80
    requires |b| == SIZE80
  {
    Block80(h.value(BytesHalf(b[..2])), b[2..])
  }

  function ReadAll80(h: Halves, packed: seq<bv8>): seq<Block80> {
    var chunks := Chunks(packed, SIZE80);
    seq(|chunks|, j requires 0 <= j < |chunks| => Read80(h, chunks[j]))
  }

  lemma ReadOfBytes80(h: Halves, block: Block, b: seq<bv8>)
    requires Bytes80(h, block, b)
    ensures Packs80(h.Stored(), block, Read80(h, b))
  {
    HalfRoundTrip(h.bits(Scale80(block)));
  }

  method PackBlock80(h: Halves, block: Block) returns (bytes: seq<bv8>)
    ensures Bytes80(h, block, bytes)
  {
    var amax := FindMaxAbs(block);
    var scale := if amax > 0.0 then amax / 127.0 else 0.0;
    var qs := PackBytes(Code80(Inverse(scale)), block);
    assert scale == Scale80(block);
    bytes := HalfBytes(h.bits(scale)) + qs;
    PartsOf(HalfBytes(h.bits(scale)), qs);
  }

  method PackQ80(h: Halves, weights: seq<real>) returns (r: Result<seq<bv8>, Error>)
    ensures |weights| % BLOCK != 0 ==> r == Err(NotWholeBlocks)
    ensures |weights| % BLOCK == 0 ==> r.Ok? && Packed(r.value, SIZE80, weights)
    ensures r.Ok? ==>
              forall j :: 0 <= j < |Blocks(weights)| ==> Bytes80(h, Blocks(weights)[j], Chunks(r.value, SIZE80)[j])
  {
    if |weights| % BLOCK != 0 {
      return Err(NotWholeBlocks);
    }
    var out, blocks := [], Blocks(weights);
    for j := 0 to |blocks|
      invariant |out| == SizeOfChunks(j, SIZE80) && |Chunks(out, SIZE80)| == j
      invariant forall k :: 0 <= k < j ==> Bytes80(h, blocks[k], Chunks(out, SIZE80)[k])
    {
      var bytes := PackBlock80(h, blocks[j]);
      ChunksAppend(out, SIZE80, j, bytes);
      out := out + bytes;
    }
    return Ok(out);
  }

  lemma UnpackOfPack80(f16: real -> real, block: Block, b: Block80)
    requires Packs80(f16, block, b)
    ensures Unpack80(b) == Reference80(f16)(block)
  {
    var inv := Inverse(Scale80(block));
    ReadOfBytes(Code80(inv), Value80(b.scale), Through80(inv, b.scale), block, b.qs);
  }

  lemma TensorRoundTrip80(h: Halves, weights: seq<real>, packed: seq<bv8>)
    requires Packed(packed, SIZE80, weights)
    requires forall j :: 0 <= j < |Blocks(weights)| ==> Bytes80(h, Blocks(weights)[j], Chunks(packed, SIZE80)[j])
    ensures FlatMap(Unpack80, ReadAll80(h, packed)) == FlatMap(Reference80(h.Stored()), Blocks(weights))
  {
    var blocks := ReadAll80(h, packed);
    forall j | 0 <= j < |blocks| ensures Unpack80(blocks[j]) == Reference80(h.Stored())(Blocks(weights)[j]) {
      ReadOfBytes80(h, Blocks(weights)[j], Chunks(packed, SIZE80)[j]);
      UnpackOfPack80(h.Stored(), Blocks(weights)[j], blocks[j]);
    }
    FlatMapSame(Unpack80, blocks, Reference80(h.Stored()), Blocks(weights));
  }

  lemma ElementBound80(block: Block, i: nat)
    requires i < BLOCK
    ensures Abs(block[i]) <= 127.0 * Scale80(block)
  {
    MaxAbsBounds(block);
    assert block[i] in block;
  }

  /** The clamp never changes a value. */
  lemma NeverClamps80(block: Block, i: nat)
    requires i < BLOCK
    ensures Quant80(Inverse(Scale80(block)), block[i]) == Round(block[i] * Inverse(Scale80(block)))
  {
    ElementBound80(block, i);
    ScalarExact80(block[i], Scale80(block));
  }

  lemma ScalarExact80(x: real, s: real)
    requires s >= 0.0 && Abs(x) <= 127.0 * s
    ensures Quant80(Inverse(s), x) == Round(x * Inverse(s))
  {
    RoundBetween(x, s, -127, 127);
  }

  /** The error is at most half a step and 127 times the error of the stored scale. */
  lemma Error80(f16: real -> real, block: Block, b: Block80, i: nat)
    requires Packs80(f16, block, b) && i < BLOCK
    ensures Near(Unpack80(b)[i], block[i], Spread(Scale80(block), b.scale, 127))
  {
    UnpackOfPack80(f16, block, b);
    ElementBound80(block, i);
    ScalarError80(block[i], Scale80(block), b.scale);
  }

  lemma ScalarError80(x: real, s: real, t: real)
    requires s >= 0.0 && Abs(x) <= 127.0 * s
    ensures Near(Through80(Inverse(s), t)(x), x, Spread(s, t, 127))
  {
    ScalarExact80(x, s);
    QuantizationError(x, s, t, 127);
  }

  // ---- the reference round trips ----

  method GgufQ40RoundTrip(f16: real -> real, values: seq<real>) returns (output: seq<real>)
    requires |values| % BLOCK == 0
    ensures output == FlatMap(Reference40(f16), Blocks(values))
  {
    output := [];
    var blocks := Blocks(values);
    for j := 0 to |blocks|
      invariant output == FlatMap(Reference40(f16), blocks[..j])
    {
      FlatMapStep(Reference40(f16), blocks, j);
      var block := blocks[j];
      var amax := FindMaxAbs(block);
      var packingScale := if amax > 0.0 then amax / 7.0 else 0.0;
      var lanes := Image(Through40(Inverse(packingScale), f16(packingScale)), block);
      assert packingScale == Scale40(block);
      assert lanes == Reference40(f16)(block);
      output := output + lanes;
    }
    assert blocks[..|blocks|] == blocks;
  }

  method GgufQ41RoundTrip(f16: real -> real, values: seq<real>) returns (output: seq<real>)
    requires |values| % BLOCK == 0
    ensures output == FlatMap(Reference41(f16), Blocks(values))
  {
    output := [];
    var blocks := Blocks(values);
    for j := 0 to |blocks|
      invariant output == FlatMap(Reference41(f16), blocks[..j])
    {
      FlatMapStep(Reference41(f16), blocks, j);
      var minimum, maximum := FindExtremes(blocks[j]);
      var packingScale := if maximum > minimum then (maximum - minimum) / 15.0 else 0.0;
      output := output + Image(Through41(Inverse(packingScale), minimum, f16(packingScale), f16(minimum)), blocks[j]);
    }
    assert blocks[..|blocks|] == blocks;
  }

  method GgufQ80RoundTrip(f16: real -> real, values: seq<real>) returns (output: seq<real>)
    requires |values| % BLOCK == 0
    ensures output == FlatMap(Reference80(f16), Blocks(values))
  {
    output := [];
    var blocks := Blocks(values);
    for j := 0 to |blocks|
      invariant output == FlatMap(Reference80(f16), blocks[..j])
    {
      FlatMapStep(Reference80(f16), blocks, j);
      var block := blocks[j];
      var amax := FindMaxAbs(block);
      var packingScale := if amax > 0.0 then amax / 127.0 else 0.0;
      var lanes := Image(Through80(Inverse(packingScale), f16(packingScale)), block);
      assert packingScale == Scale80(block);
      assert lanes == Reference80(f16)(block);
      output := output + lanes;
    }
    assert blocks[..|blocks|] == blocks;
  }
}
