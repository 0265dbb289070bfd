/** GGUF tensor types, sizes, values and inspection limits. */
module GgufTypes {
  import opened Bytes
  import opened Wrappers
  import opened Division

  /** Elements and bytes of one block; a plain type has blocks of one element. */
  datatype BlockLayout = BlockLayout(elements: nat, bytes: nat)

  function LayoutOf(code: nat): (l: Option<BlockLayout>)
    ensures l.Some? ==> code < 40 && l.value.elements in {1, 32, 256} && 0 < l.value.bytes < 512
  {
    match code
    case 0 => Some(BlockLayout(1, 4))      // F32
    case 1 => Some(BlockLayout(1, 2))      // F16
    case 2 => Some(BlockLayout(32, 18))    // Q4_0
    case 3 => Some(BlockLayout(32, 20))    // Q4_1
    case 6 => Some(BlockLayout(32, 22))    // Q5_0
    case 7 => Some(BlockLayout(32, 24))    // Q5_1
    case 8 => Some(BlockLayout(32, 34))    // Q8_0
    case 9 => Some(BlockLayout(32, 36))    // Q8_1
    case 10 => Some(BlockLayout(256, 84))  // Q2_K
    case 11 => Some(BlockLayout(256, 110)) // Q3_K
    case 12 => Some(BlockLayout(256, 144)) // Q4_K
    case 13 => Some(BlockLayout(256, 176)) // Q5_K
    case 14 => Some(BlockLayout(256, 210)) // Q6_K
    case 15 => Some(BlockLayout(256, 292)) // Q8_K
    case 16 => Some(BlockLayout(256, 66))  // IQ2_XXS
    case 17 => Some(BlockLayout(256, 74))  // IQ2_XS
    case 18 => Some(BlockLayout(256, 98))  // IQ3_XXS
    case 19 => Some(BlockLayout(256, 50))  // IQ1_S
    case 20 => Some(BlockLayout(32, 18))   // IQ4_NL
    case 21 => Some(BlockLayout(256, 110)) // IQ3_S
    case 22 => Some(BlockLayout(256, 82))  // IQ2_S
    case 23 => Some(BlockLayout(256, 136)) // IQ4_XS
    case 24 => Some(BlockLayout(1, 1))     // I8
    case 25 => Some(BlockLayout(1, 2))     // I16
    case 26 => Some(BlockLayout(1, 4))     // I32
    case 27 => Some(BlockLayout(1, 8))     // I64
    case 28 => Some(BlockLayout(1, 8))     // F64
    case 29 => Some(BlockLayout(256, 56))  // IQ1_M
    case 30 => Some(BlockLayout(1, 2))     // BF16
    case 34 => Some(BlockLayout(256, 54))  // TQ1_0
    case 35 => Some(BlockLayout(256, 66))  // TQ2_0
    case 39 => Some(BlockLayout(32, 17))   // MXFP4
    case _ => None
  }

  /** The product of the dimensions, unless it leaves 64 bits on the way. */
  function CheckedNumel(shape: seq<nat>, acc: nat): Option<nat> {
    if shape == [] then Some(acc)
    else if acc * shape[0] > U64_MAX then None
    else CheckedNumel(shape[1..], acc * shape[0])
  }

  function NbytesForShape(code: nat, shape: seq<nat>): (n: Option<nat>)
    ensures n.Some? ==> n.value <= U64_MAX
  {
    match (CheckedNumel(shape, 1), LayoutOf(code))
    case (Some(numel), Some(layout)) =>
      if numel % layout.elements != 0 then None
      else if numel / layout.elements * layout.bytes > U64_MAX then None
      else Some(numel / layout.elements * layout.bytes)
    case _ => None
  }

  /** The number of elements, without a bound. */
  function Product(shape: seq<nat>): nat {
    if shape == [] then 1 else Product(shape[..|shape| - 1]) * shape[|shape| - 1]
  }

  /** No product of leading dimensions leaves 64 bits, even if a later dimension is 0. */
  ghost predicate LeadingFit(shape: seq<nat>) {
    forall k :: 0 <= k <= |shape| ==> Product(shape[..k]) <= U64_MAX
  }

  lemma {:induction false} NumelFrom(shape: seq<nat>, i: nat)
    requires i <= |shape| && forall k :: 0 <= k <= i ==> Product(shape[..k]) <= U64_MAX
    ensures CheckedNumel(shape[i..], Product(shape[..i])) ==
            if LeadingFit(shape) then Some(Product(shape)) else None
    decreases |shape| - i
  {
    if i == |shape| {
      assert shape[..i] == shape;
    } else {
      assert shape[..i + 1][..i] == shape[..i];
      assert shape[i..][0] == shape[i] && shape[i..][1..] == shape[i + 1..];
      if Product(shape[..i + 1]) <= U64_MAX {
        NumelFrom(shape, i + 1);
      }
    }
  }

  /** The size of a tensor: that of its blocks, if the type is known, the elements fill whole blocks, and no product
      leaves 64 bits. */
  lemma NbytesIs(code: nat, shape: seq<nat>, n: nat)
    ensures NbytesForShape(code, shape) == Some(n) <==>
            && LayoutOf(code).Some? && LeadingFit(shape)
            && var layout := LayoutOf(code).value;
               exists blocks: nat :: HasBlocks(shape, layout, blocks) && n == blocks * layout.bytes <= U64_MAX
  {
    NumelFrom(shape, 0);
    assert shape[0..] == shape && Product(shape[..0]) == 1;
    if LayoutOf(code).Some? {
      var layout := LayoutOf(code).value;
      assert Product(shape) % layout.elements == 0 ==> HasBlocks(shape, layout, Product(shape) / layout.elements);
      forall blocks: nat | HasBlocks(shape, layout, blocks)
        ensures Product(shape) % layout.elements == 0 && Product(shape) / layout.elements == blocks
      {
        DivisionIsUnique(Product(shape), layout.elements, blocks, 0);
      }
    }
  }

  /** The elements fill exactly so many blocks. */
  predicate HasBlocks(shape: seq<nat>, layout: BlockLayout, blocks: nat) {
    Product(shape) == blocks * layout.elements
  }

  datatype Limits = Limits(maxTensorCount: nat, maxMetadataEntries: nat, maxKeyLen: nat, maxShapeRank: nat, maxDim: nat)
  {
    /** The limits are themselves 64-bit numbers. */
    predicate Valid() {
      maxTensorCount <= U64_MAX && maxMetadataEntries <= U64_MAX && maxKeyLen <= U64_MAX
      && maxShapeRank <= U64_MAX && maxDim <= U64_MAX
    }

    predicate ShapeOk(shape: seq<nat>) {
      |shape| <= maxShapeRank && forall d :: d in shape ==> d <= maxDim
    }
  }

  /** Metadata values; a float is its bit pattern. */
  datatype Json = Null | Bool(b: bool) | Int(n: int) | Float32(bits: nat) | Float64(bits: nat) | Str(s: string)
                | Arr(items: seq<Json>)

  function Signed(n: nat, k: nat): int {
    if n < PowerOf256(k) / 2 then n else n - PowerOf256(k)
  }

  function Float32Json(bits: nat): Json {
    if bits / 0x80_0000 % 256 == 255 then Null else Float32(bits)
  }

  function Float64Json(bits: nat): Json {
    if bits / 0x10_0000_0000_0000 % 2048 == 2047 then Null else Float64(bits)
  }

  const ALIGNMENT_DEFAULT := 32

  /** The declared alignment, if it is a number that is not negative. */
  function AlignmentOf(metadata: map<string, Json>): nat {
    if "general.alignment" in metadata then
      match metadata["general.alignment"]
      case Int(n) => if n >= 0 then n else ALIGNMENT_DEFAULT
      case _ => ALIGNMENT_DEFAULT
    else ALIGNMENT_DEFAULT
  }

  function AlignUp(value: nat, align: nat): (r: nat)
    ensures value <= r
    ensures align > 0 ==> r % align == 0 && r < value + align
  {
    if align == 0 then value
    else
      var up := (value + align - 1) / align * align;
      DivisionIsUnique(up, align, (value + align - 1) / align, 0);
      up
  }

  /** The smallest multiple: no multiple of the alignment lies between. */
  lemma AlignUpIsLeast(value: nat, align: nat, m: nat)
    requires align > 0 && value <= m && m % align == 0
    ensures AlignUp(value, align) <= m
  {
    var r := AlignUp(value, align);
    MultiplesApart(m, r, align);
  }

  /** Below 2^63 no alignment of 64 bits overflows. */
  lemma AlignUpFits(value: nat, align: nat)
    requires value < TWO64 / 2 && align <= U64_MAX
    ensures AlignUp(value, align) <= U64_MAX
  {
    if align >= value && value > 0 {
      AlignUpIsLeast(value, align, align);
    }
  }
}
