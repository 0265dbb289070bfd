/** Reading back what the writer wrote. */
module GgufRoundTrip {
  import opened Bytes
  import opened Wrappers
  import opened Ordering
  import opened GgufTypes
  import opened GgufReader
  import opened GgufWriter
  import Utf8

  /** A mark: bytes are compared only at the indices it is put on. */
  predicate Mark(i: int) { true }

  /** The bytes e stand at the position. */
  ghost predicate At(src: seq<byte>, pos: nat, e: seq<byte>) {
    pos + |e| <= |src| && forall i {:trigger Mark(i)} :: Mark(i) && 0 <= i < |e| ==> src[pos + i] == e[i]
  }

  lemma AtSlice(src: seq<byte>, pos: nat, e: seq<byte>)
    requires pos + |e| <= |src|
    ensures At(src, pos, e) <==> src[pos..pos + |e|] == e
  {
    if At(src, pos, e) {
      forall i | 0 <= i < |e| ensures src[pos..pos + |e|][i] == e[i] {
        assert Mark(i);
      }
    } else {
      var i :| Mark(i) && 0 <= i < |e| && src[pos + i] != e[i];
      assert src[pos..pos + |e|][i] != e[i];
    }
  }

  lemma AtSplit(src: seq<byte>, pos: nat, a: seq<byte>, b: seq<byte>)
    requires At(src, pos, a + b)
    ensures At(src, pos, a) && At(src, pos + |a|, b)
  {
    forall i | Mark(i) && 0 <= i < |b| ensures src[pos + |a| + i] == b[i] {
      assert Mark(|a| + i);
    }
  }

  /** Four parts in a row, and where they start. */
  lemma AtFour(src: seq<byte>, pos: nat, a: seq<byte>, b: seq<byte>, c: seq<byte>, d: seq<byte>)
    returns (p1: nat, p2: nat, p3: nat)
    requires At(src, pos, a + b + c + d)
    ensures p1 == pos + |a| && p2 == p1 + |b| && p3 == p2 + |c|
    ensures At(src, pos, a) && At(src, p1, b) && At(src, p2, c) && At(src, p3, d)
  {
    AtSplit(src, pos, a + b + c, d);
    p1, p2 := AtThree(src, pos, a, b, c);
    p3 := p2 + |c|;
  }

  lemma AtThree(src: seq<byte>, pos: nat, a: seq<byte>, b: seq<byte>, c: seq<byte>) returns (p1: nat, p2: nat)
    requires At(src, pos, a + b + c)
    ensures p1 == pos + |a| && p2 == p1 + |b|
    ensures At(src, pos, a) && At(src, p1, b) && At(src, p2, c)
  {
    AtSplit(src, pos, a + b, c);
    AtSplit(src, pos, a, b);
    p1, p2 := pos + |a|, pos + |a| + |b|;
  }

  ghost predicate Gives<T>(r: Read<T>, item: T, next: nat) {
    r.Ok? && r.value.0 == item && r.value.1 == next
  }

  /** Wherever the bytes of the chunk stand, the reader reads the item and moves behind them. */
  ghost predicate Reads<T(!new)>(one: nat -> Read<T>, src: seq<byte>, item: T, chunk: seq<byte>) {
    forall p: nat :: At(src, p, chunk) ==> Gives(one(p), item, p + |chunk|)
  }

  // ---- one field at a time ----

  lemma ReadsNat(src: seq<byte>, pos: nat, n: nat, width: nat)
    requires n < PowerOf256(width) && At(src, pos, Le(n, width))
    ensures Gives(ReadNat(src, pos, width), n, pos + width)
  {
    LeRoundTrip(n, width);
    AtSlice(src, pos, Le(n, width));
  }

  lemma ReadsU32(src: seq<byte>, pos: nat, n: nat)
    requires n <= U32_MAX && At(src, pos, Le(n, 4))
    ensures Gives(ReadNat(src, pos, 4), n, pos + 4)
  {
    PowersOf256();
    ReadsNat(src, pos, n, 4);
  }

  lemma ReadsU64(src: seq<byte>, pos: nat, n: nat)
    requires n <= U64_MAX && At(src, pos, Le(n, 8))
    ensures Gives(ReadNat(src, pos, 8), n, pos + 8)
  {
    PowersOf256();
    ReadsNat(src, pos, n, 8);
  }

  predicate StringFits(s: string, lim: Limits) { |Utf8.Encode(s)| <= lim.maxKeyLen }

  lemma ReadsString(src: seq<byte>, pos: nat, s: string, lim: Limits)
    requires lim.Valid() && StringFits(s, lim) && At(src, pos, StringBytes(s))
    ensures Gives(ReadString(src, pos, lim), s, pos + |StringBytes(s)|)
  {
    var b := Utf8.Encode(s);
    AtSplit(src, pos, Le(|b|, 8), b);
    ReadsU64(src, pos, |b|);
    ReadsBytes(src, pos + 8, b);
    Utf8.EncodeDecode(s);
    StringFromParts(src, pos, lim, b, pos + 8, s);
  }

  lemma ReadsBytes(src: seq<byte>, pos: nat, b: seq<byte>)
    requires At(src, pos, b)
    ensures Gives(ReadExact(src, pos, |b|), b, pos + |b|)
  {
    AtSlice(src, pos, b);
  }

  lemma StringFromParts(src: seq<byte>, pos: nat, lim: Limits, b: seq<byte>, start: nat, s: string)
    requires Gives(ReadNat(src, pos, 8), |b|, start) && |b| <= lim.maxKeyLen
    requires Gives(ReadExact(src, start, |b|), b, start + |b|) && Utf8.Decode(b) == Some(s)
    ensures Gives(ReadString(src, pos, lim), s, start + |b|)
  {
  }

  predicate MetaFits(e: (string, MetaValue), lim: Limits) {
    StringFits(e.0, lim) && e.1.Valid() && (e.1.Text? ==> StringFits(e.1.s, lim))
  }

  lemma ReadsPayload(src: seq<byte>, pos: nat, v: MetaValue, lim: Limits)
    requires lim.Valid() && v.Valid() && (v.Text? ==> StringFits(v.s, lim))
    requires At(src, pos, PayloadBytes(v))
    ensures Gives(ReadValue(src, pos, TypeTag(v), lim), v.ToJson(), pos + |PayloadBytes(v)|)
  {
    match v
    case U32(x) => ReadsU32(src, pos, x);
    case U64(x) => ReadsU64(src, pos, x);
    case F32(bits) => ReadsU32(src, pos, bits);
    case Text(s) => ReadsString(src, pos, s, lim);
  }

  function JsonEntry(e: (string, MetaValue)): (string, Json) { (e.0, e.1.ToJson()) }

  lemma ReadsEntry(src: seq<byte>, pos: nat, e: (string, MetaValue), lim: Limits)
    requires lim.Valid() && MetaFits(e, lim) && At(src, pos, EntryBytes(e))
    ensures Gives(ReadEntry(src, pos, lim), JsonEntry(e), pos + |EntryBytes(e)|)
  {
    var key, tag := StringBytes(e.0), Le(TypeTag(e.1), 4);
    var p, q := AtThree(src, pos, key, tag, PayloadBytes(e.1));
    ReadsString(src, pos, e.0, lim);
    ReadsU32(src, p, TypeTag(e.1));
    ReadsPayload(src, q, e.1, lim);
    EntryFromParts(src, pos, lim, e.0, p, TypeTag(e.1), q, e.1.ToJson(), q + |PayloadBytes(e.1)|);
  }

  lemma EntryFromParts(src: seq<byte>, pos: nat, lim: Limits, key: string, p: nat, tag: nat, q: nat, value: Json, next: nat)
    requires Gives(ReadString(src, pos, lim), key, p) && Gives(ReadNat(src, p, 4), tag, q)
    requires Gives(ReadValue(src, q, tag, lim), value, next)
    ensures Gives(ReadEntry(src, pos, lim), (key, value), next)
  {
  }

  lemma EntryReads(src: seq<byte>, e: (string, MetaValue), lim: Limits)
    requires lim.Valid() && MetaFits(e, lim)
    ensures Reads(EntryReader(src, lim), src, JsonEntry(e), EntryBytes(e))
  {
    forall p: nat | At(src, p, EntryBytes(e))
      ensures Gives(EntryReader(src, lim)(p), JsonEntry(e), p + |EntryBytes(e)|)
    {
      ReadsEntry(src, p, e, lim);
    }
  }

  // ---- lists of fields ----

  lemma {:induction false} ReadsRepeat<T(!new)>(one: nat -> Read<T>, src: seq<byte>, pos: nat, count: nat, items: seq<T>,
                                              chunks: seq<seq<byte>>)
    requires count == |items| == |chunks| && At(src, pos, Concat(chunks))
    requires forall i :: 0 <= i < |items| ==> Reads(one, src, items[i], chunks[i])
    ensures Gives(Repeat(one, pos, count), items, pos + |Concat(chunks)|)
  {
    if count > 0 {
      var n := count - 1;
      AtSplit(src, pos, Concat(chunks[..n]), chunks[n]);
      ReadsRepeat(one, src, pos, n, items[..n], chunks[..n]);
      assert items == items[..n] + [items[n]];
      assert Reads(one, src, items[n], chunks[n]);
    }
  }

  function JsonEntries(meta: Meta): seq<(string, Json)> {
    seq(|meta|, i requires 0 <= i < |meta| => JsonEntry(meta[i]))
  }

  ghost predicate AllMetaFits(meta: Meta, lim: Limits) {
    forall i :: 0 <= i < |meta| ==> MetaFits(meta[i], lim)
  }

  lemma MetaReads(src: seq<byte>, meta: Meta, lim: Limits)
    requires lim.Valid() && AllMetaFits(meta, lim)
    ensures forall i :: 0 <= i < |meta| ==> Reads(EntryReader(src, lim), src, JsonEntries(meta)[i], MetaChunks(meta)[i])
  {
    forall i | 0 <= i < |meta| ensures Reads(EntryReader(src, lim), src, JsonEntries(meta)[i], MetaChunks(meta)[i]) {
      EntryReads(src, meta[i], lim);
    }
  }

  lemma ReadsMeta(src: seq<byte>, pos: nat, meta: Meta, lim: Limits)
    requires lim.Valid() && AllMetaFits(meta, lim) && At(src, pos, Concat(MetaChunks(meta)))
    ensures Gives(Repeat(EntryReader(src, lim), pos, |meta|), JsonEntries(meta), pos + |Concat(MetaChunks(meta))|)
  {
    MetaReads(src, meta, lim);
    ReadsRepeat(EntryReader(src, lim), src, pos, |meta|, JsonEntries(meta), MetaChunks(meta));
  }

  lemma DimReads(src: seq<byte>, d: nat)
    requires d <= U64_MAX
    ensures Reads(DimReader(src), src, d, DimBytes(d))
  {
    forall p: nat | At(src, p, DimBytes(d)) ensures Gives(DimReader(src)(p), d, p + |DimBytes(d)|) {
      ReadsU64(src, p, d);
    }
  }

  lemma ReadsDims(src: seq<byte>, pos: nat, shape: seq<nat>)
    requires forall d :: d in shape ==> d <= U64_MAX
    requires At(src, pos, Concat(DimChunks(shape)))
    ensures Gives(Repeat(DimReader(src), pos, |shape|), Reversed(shape), pos + |Concat(DimChunks(shape))|)
  {
    forall i | 0 <= i < |shape| ensures Reads(DimReader(src), src, Reversed(shape)[i], DimChunks(shape)[i]) {
      var d := shape[|shape| - 1 - i];
      assert d in shape;
      DimReads(src, d);
    }
    ReadsRepeat(DimReader(src), src, pos, |shape|, Reversed(shape), DimChunks(shape));
  }

  lemma ReadsShape(src: seq<byte>, pos: nat, shape: seq<nat>, lim: Limits)
    requires lim.Valid() && lim.ShapeOk(shape) && |shape| <= U32_MAX && At(src, pos, ShapeBytes(shape))
    ensures Gives(ReadShape(src, pos, lim), shape, pos + |ShapeBytes(shape)|)
  {
    AtSplit(src, pos, Le(|shape|, 4), Concat(DimChunks(shape)));
    ReadsU32(src, pos, |shape|);
    ReadsDims(src, pos + 4, shape);
    assert Reversed(Reversed(shape)) == shape;
  }

  predicate TensorFits(t: Tensor, lim: Limits) {
    && StringFits(t.name, lim)
    && lim.ShapeOk(t.shape) && |t.shape| <= U32_MAX
    && NbytesForShape(t.code, t.shape) == Some(|t.bytes|)
  }

  function DirOf(t: Tensor, offset: nat): Dir { Dir(t.name, t.shape, t.code, offset) }

  lemma ReadsDir(src: seq<byte>, pos: nat, t: Tensor, offset: nat, lim: Limits)
    requires lim.Valid() && TensorFits(t, lim) && offset <= U64_MAX && At(src, pos, DirBytes(t, offset))
    ensures Gives(ReadDir(src, pos, lim), DirOf(t, offset), pos + |DirBytes(t, offset)|)
  {
    var name, shape, code, off := StringBytes(t.name), ShapeBytes(t.shape), Le(t.code, 4), Le(offset, 8);
    var p1, p2, p3 := AtFour(src, pos, name, shape, code, off);
    ReadsString(src, pos, t.name, lim);
    ReadsShape(src, p1, t.shape, lim);
    ReadsU32(src, p2, t.code);
    ReadsU64(src, p3, offset);
    DirFromParts(src, pos, lim, t.name, p1, t.shape, p2, t.code, p3, offset);
  }

  lemma DirFromParts(src: seq<byte>, pos: nat, lim: Limits, name: string, p1: nat, shape: seq<nat>, p2: nat, code: nat,
                     p3: nat, offset: nat)
    requires Gives(ReadString(src, pos, lim), name, p1) && Gives(ReadShape(src, p1, lim), shape, p2)
    requires Gives(ReadNat(src, p2, 4), code, p3) && LayoutOf(code).Some? && Gives(ReadNat(src, p3, 8), offset, p3 + 8)
    ensures Gives(ReadDir(src, pos, lim), Dir(name, shape, code, offset), p3 + 8)
  {
  }

  lemma DirReads(src: seq<byte>, t: Tensor, offset: nat, lim: Limits)
    requires lim.Valid() && TensorFits(t, lim) && offset <= U64_MAX
    ensures Reads(DirReader(src, lim), src, DirOf(t, offset), DirBytes(t, offset))
  {
    forall p: nat | At(src, p, DirBytes(t, offset))
      ensures Gives(DirReader(src, lim)(p), DirOf(t, offset), p + |DirBytes(t, offset)|)
    {
      ReadsDir(src, p, t, offset, lim);
    }
  }

  function Dirs(tensors: seq<Tensor>): seq<Dir> {
    seq(|tensors|, i requires 0 <= i < |tensors| => DirOf(tensors[i], OffsetOf(tensors, i)))
  }

  ghost predicate AllTensorsFit(tensors: seq<Tensor>, lim: Limits) {
    forall i :: 0 <= i < |tensors| ==> TensorFits(tensors[i], lim)
  }

  lemma DirsRead(src: seq<byte>, tensors: seq<Tensor>, lim: Limits)
    requires lim.Valid() && AllTensorsFit(tensors, lim)
    requires forall i :: 0 <= i < |tensors| ==> OffsetOf(tensors, i) <= U64_MAX
    ensures forall i :: 0 <= i < |tensors| ==> Reads(DirReader(src, lim), src, Dirs(tensors)[i], DirChunks(tensors)[i])
  {
    forall i | 0 <= i < |tensors| ensures Reads(DirReader(src, lim), src, Dirs(tensors)[i], DirChunks(tensors)[i]) {
      DirReads(src, tensors[i], OffsetOf(tensors, i), lim);
    }
  }

  lemma ReadsDirs(src: seq<byte>, pos: nat, tensors: seq<Tensor>, lim: Limits)
    requires lim.Valid() && AllTensorsFit(tensors, lim) && At(src, pos, Concat(DirChunks(tensors)))
    requires forall i :: 0 <= i < |tensors| ==> OffsetOf(tensors, i) <= U64_MAX
    ensures Gives(Repeat(DirReader(src, lim), pos, |tensors|), Dirs(tensors), pos + |Concat(DirChunks(tensors))|)
  {
    DirsRead(src, tensors, lim);
    ReadsRepeat(DirReader(src, lim), src, pos, |tensors|, Dirs(tensors), DirChunks(tensors));
  }

  // ---- the data section ----

  lemma {:induction false} DataPrefix(tensors: seq<Tensor>, i: nat)
    requires i <= |tensors|
    ensures DataOf(tensors[..i]) <= DataOf(tensors)
    decreases |tensors| - i
  {
    if i == |tensors| {
      assert tensors[..i] == tensors;
    } else {
      DataPrefix(tensors, i + 1);
      DataStep(tensors, i);
    }
  }

  /** The bytes of tensor i stand in the data section at its offset, which is a multiple of 32. */
  lemma DataAt(tensors: seq<Tensor>, i: nat)
    requires i < |tensors|
    ensures OffsetOf(tensors, i) % 32 == 0
    ensures OffsetOf(tensors, i) + |tensors[i].bytes| <= |DataOf(tensors)|
    ensures DataOf(tensors)[OffsetOf(tensors, i)..OffsetOf(tensors, i) + |tensors[i].bytes|] == tensors[i].bytes
  {
    DataStep(tensors, i);
    DataPrefix(tensors, i + 1);
    var upTo := DataOf(tensors[..i + 1]);
    assert upTo == DataOf(tensors)[..|upTo|];
  }

  // ---- the whole file ----

  ghost predicate SortedNames(tensors: seq<Tensor>) {
    forall i, j :: 0 <= i < j < |tensors| ==> LexLe(tensors[i].name, tensors[j].name)
  }

  /** What the limits and the 64-bit lengths ask of the input of the writer, whose maps are in key order. */
  ghost predicate Writable(tensors: seq<Tensor>, meta: Meta, lim: Limits) {
    && lim.Valid()
    && |tensors| <= lim.maxTensorCount && |meta| <= lim.maxMetadataEntries
    && AllTensorsFit(tensors, lim) && AllMetaFits(meta, lim)
    && SortedNames(tensors)
    && |Written(tensors, meta)| < TWO64 / 2
  }

  function MetadataOf(meta: Meta): map<string, Json> { MapOf(JsonEntries(meta)) }

  function EntryOf(t: Tensor, offset: nat, alignment: nat): Entry {
    Entry(t.name, t.shape, t.code, offset, |t.bytes|, alignment)
  }

  function EntriesAt(tensors: seq<Tensor>, dataOffset: nat, alignment: nat): seq<Entry> {
    seq(|tensors|, i requires 0 <= i < |tensors| => EntryOf(tensors[i], dataOffset + OffsetOf(tensors, i), alignment))
  }

  lemma DataFits(tensors: seq<Tensor>, meta: Meta, i: nat)
    requires i < |tensors|
    ensures OffsetOf(tensors, i) <= |Written(tensors, meta)|
  {
    DataAt(tensors, i);
  }

  lemma HeadAt(tensors: seq<Tensor>, meta: Meta)
    ensures At(Written(tensors, meta), 0, Head(tensors, meta))
  {
    var head := Head(tensors, meta);
    AtStart(head, Padding(|head|), DataOf(tensors));
  }

  lemma AtStart(a: seq<byte>, b: seq<byte>, c: seq<byte>)
    ensures At(a + b + c, 0, a)
  {
  }

  lemma PreambleReads(tensors: seq<Tensor>, meta: Meta, lim: Limits)
    requires Writable(tensors, meta, lim)
    ensures var src := Written(tensors, meta);
            && Gives(ReadExact(src, 0, 4), MAGIC, 4) && Gives(ReadNat(src, 4, 4), 3, 8)
            && Gives(ReadNat(src, 8, 8), |tensors|, 16) && Gives(ReadNat(src, 16, 8), |meta|, 24)
  {
    var src, pre := Written(tensors, meta), Preamble(|tensors|, |meta|);
    HeadAt(tensors, meta);
    AtSplit(src, 0, pre + Concat(MetaChunks(meta)), Concat(DirChunks(tensors)));
    AtSplit(src, 0, pre, Concat(MetaChunks(meta)));
    var p1, p2, p3 := AtFour(src, 0, MAGIC, Le(VERSION, 4), Le(|tensors|, 8), Le(|meta|, 8));
    AtSlice(src, 0, MAGIC);
    ReadsU32(src, p1, VERSION);
    ReadsU64(src, p2, |tensors|);
    ReadsU64(src, p3, |meta|);
  }

  lemma HeaderFromParts(src: seq<byte>, lim: Limits, tensorCount: nat, kvCount: nat, kvs: seq<(string, Json)>, p: nat,
                        dirs: seq<Dir>, end: nat)
    requires Gives(ReadExact(src, 0, 4), MAGIC, 4) && Gives(ReadNat(src, 4, 4), 3, 8)
    requires Gives(ReadNat(src, 8, 8), tensorCount, 16) && Gives(ReadNat(src, 16, 8), kvCount, 24)
    requires tensorCount <= lim.maxTensorCount && kvCount <= lim.maxMetadataEntries
    requires Gives(Repeat(EntryReader(src, lim), 24, kvCount), kvs, p)
    requires Gives(Repeat(DirReader(src, lim), p, tensorCount), dirs, end)
    ensures Gives(ReadHeader(src, lim), Header(3, MapOf(kvs), dirs), end)
  {
  }

  lemma HeaderReads(tensors: seq<Tensor>, meta: Meta, lim: Limits)
    requires Writable(tensors, meta, lim)
    ensures Gives(ReadHeader(Written(tensors, meta), lim), Header(3, MetadataOf(meta), Dirs(tensors)),
            |Head(tensors, meta)|)
  {
    var src, pre := Written(tensors, meta), Preamble(|tensors|, |meta|);
    forall i | 0 <= i < |tensors| ensures OffsetOf(tensors, i) <= U64_MAX {
      DataFits(tensors, meta, i);
    }
    HeadAt(tensors, meta);
    var p, q := AtThree(src, 0, pre, Concat(MetaChunks(meta)), Concat(DirChunks(tensors)));
    ReadsMeta(src, p, meta, lim);
    ReadsDirs(src, q, tensors, lim);
    PreambleReads(tensors, meta, lim);
    HeaderFromParts(src, lim, |tensors|, |meta|, JsonEntries(meta), q, Dirs(tensors), |Head(tensors, meta)|);
  }

  lemma IndexFromHeader(src: seq<byte>, lim: Limits, h: Header, end: nat)
    requires Gives(ReadHeader(src, lim), h, end)
    ensures var alignment := AlignmentOf(h.metadata);
            var dataOffset := AlignUp(end, alignment);
            ReadIndex(src, lim) ==
            Indexed(h.version, h.metadata, PlaceAll(h.dirs, dataOffset, alignment, |src|), dataOffset)
  {
  }

  /** Reading a written file comes down to placing its directory from the aligned end of its header. */
  lemma ReadsAsPlaced(tensors: seq<Tensor>, meta: Meta, lim: Limits, alignment: nat, dataOffset: nat)
    requires Writable(tensors, meta, lim)
    requires alignment == AlignmentOf(MetadataOf(meta)) && dataOffset == AlignUp(|Head(tensors, meta)|, alignment)
    ensures ReadIndex(Written(tensors, meta), lim) ==
            Indexed(3, MetadataOf(meta), PlaceAll(Dirs(tensors), dataOffset, alignment, |Written(tensors, meta)|),
                    dataOffset)
  {
    HeaderReads(tensors, meta, lim);
    IndexFromHeader(Written(tensors, meta), lim, Header(3, MetadataOf(meta), Dirs(tensors)), |Head(tensors, meta)|);
  }

  // ---- the theorems ----

  lemma PlacesAll(tensors: seq<Tensor>, lim: Limits, dataOffset: nat, alignment: nat, size: nat)
    requires AllTensorsFit(tensors, lim) && size == dataOffset + |DataOf(tensors)|
    ensures PlaceAll(Dirs(tensors), dataOffset, alignment, size) == Ok(EntriesAt(tensors, dataOffset, alignment))
  {
    var dirs, entries := Dirs(tensors), EntriesAt(tensors, dataOffset, alignment);
    forall i | 0 <= i < |tensors| ensures PlacesAs(dirs[i], entries[i], dataOffset, alignment, size) {
      PlacesAt(tensors, lim, i, dataOffset, alignment, size);
    }
    PlacesEach(dirs, entries, dataOffset, alignment, size);
  }

  predicate PlacesAs(d: Dir, e: Entry, dataOffset: nat, alignment: nat, size: nat) {
    Place(d, dataOffset, alignment, size) == Ok(e)
  }

  lemma PlacesAt(tensors: seq<Tensor>, lim: Limits, i: nat, dataOffset: nat, alignment: nat, size: nat)
    requires i < |tensors| && TensorFits(tensors[i], lim) && size == dataOffset + |DataOf(tensors)|
    ensures PlacesAs(Dirs(tensors)[i], EntriesAt(tensors, dataOffset, alignment)[i], dataOffset, alignment, size)
  {
    DataAt(tensors, i);
    PlacesOne(tensors[i], OffsetOf(tensors, i), lim, dataOffset, alignment, size);
  }

  lemma PlacesOne(t: Tensor, offset: nat, lim: Limits, dataOffset: nat, alignment: nat, size: nat)
    requires TensorFits(t, lim) && dataOffset + offset + |t.bytes| <= size
    ensures Place(DirOf(t, offset), dataOffset, alignment, size) == Ok(EntryOf(t, dataOffset + offset, alignment))
  {
  }

  lemma {:induction false} PlacesEach(dirs: seq<Dir>, entries: seq<Entry>, dataOffset: nat, alignment: nat, size: nat)
    requires |dirs| == |entries|
    requires forall i :: 0 <= i < |dirs| ==> PlacesAs(dirs[i], entries[i], dataOffset, alignment, size)
    ensures PlaceAll(dirs, dataOffset, alignment, size) == Ok(entries)
  {
    if dirs != [] {
      var n := |dirs| - 1;
      PlacesEach(dirs[..n], entries[..n], dataOffset, alignment, size);
      assert PlacesAs(dirs[n], entries[n], dataOffset, alignment, size);
      PlacesLast(dirs, entries, dataOffset, alignment, size);
    }
  }

  lemma PlacesLast(dirs: seq<Dir>, entries: seq<Entry>, dataOffset: nat, alignment: nat, size: nat)
    requires |dirs| == |entries| > 0
    requires PlaceAll(dirs[..|dirs| - 1], dataOffset, alignment, size) == Ok(entries[..|dirs| - 1])
    requires Place(dirs[|dirs| - 1], dataOffset, alignment, size) == Ok(entries[|dirs| - 1])
    ensures PlaceAll(dirs, dataOffset, alignment, size) == Ok(entries)
  {
    assert entries == entries[..|dirs| - 1] + [entries[|dirs| - 1]];
  }

  lemma WrittenLength(tensors: seq<Tensor>, meta: Meta)
    ensures |Written(tensors, meta)| == Align32(|Head(tensors, meta)|) + |DataOf(tensors)|
  {
  }

  lemma EntriesSorted(tensors: seq<Tensor>, dataOffset: nat, alignment: nat)
    requires SortedNames(tensors)
    ensures Sort(ByKey, EntriesAt(tensors, dataOffset, alignment)) == EntriesAt(tensors, dataOffset, alignment)
  {
    var entries := EntriesAt(tensors, dataOffset, alignment);
    forall i, j | 0 <= i < j < |entries| ensures ByKey(entries[i], entries[j]) {
    }
    SortOfSorted(ByKey, entries);
  }

  /** The declared alignment leads to the place where the writer put the data. */
  predicate AlignmentAgrees(tensors: seq<Tensor>, meta: Meta) {
    AlignUp(|Head(tensors, meta)|, AlignmentOf(MetadataOf(meta))) == Align32(|Head(tensors, meta)|)
  }

  lemma ReadsAsWritten(tensors: seq<Tensor>, meta: Meta, lim: Limits, dataOffset: nat)
    requires Writable(tensors, meta, lim) && AlignmentAgrees(tensors, meta)
    requires dataOffset == Align32(|Head(tensors, meta)|)
    ensures ReadIndex(Written(tensors, meta), lim) ==
            Ok(Index(3, MetadataOf(meta), EntriesAt(tensors, dataOffset, AlignmentOf(MetadataOf(meta))), dataOffset))
  {
    var alignment := AlignmentOf(MetadataOf(meta));
    ReadsAsPlaced(tensors, meta, lim, alignment, dataOffset);
    WrittenLength(tensors, meta);
    PlacesAll(tensors, lim, dataOffset, alignment, |Written(tensors, meta)|);
    EntriesSorted(tensors, dataOffset, alignment);
  }

  lemma AtNested(src: seq<byte>, start: nat, data: seq<byte>, o: nat, b: seq<byte>)
    requires At(src, start, data) && At(data, o, b)
    ensures At(src, start + o, b)
  {
    forall i | Mark(i) && 0 <= i < |b| ensures src[start + o + i] == b[i] {
      assert Mark(o + i);
    }
  }

  lemma AtBehind(front: seq<byte>, data: seq<byte>)
    ensures At(front + data, |front|, data)
  {
  }

  lemma DataBehindHead(head: seq<byte>, data: seq<byte>)
    ensures At(head + Padding(|head|) + data, Align32(|head|), data)
  {
    AtBehind(head + Padding(|head|), data);
  }

  lemma DataHolds(tensors: seq<Tensor>, i: nat)
    requires i < |tensors|
    ensures At(DataOf(tensors), OffsetOf(tensors, i), tensors[i].bytes)
  {
    DataAt(tensors, i);
    AtSlice(DataOf(tensors), OffsetOf(tensors, i), tensors[i].bytes);
  }

  lemma MultiplesAdd(a: nat, b: nat)
    requires a % 32 == 0 && b % 32 == 0
    ensures (a + b) % 32 == 0
  {
  }

  /** The entry describes the tensor, and its range is aligned to 32 and holds exactly the tensor's bytes. */
  ghost predicate Describes(e: Entry, t: Tensor, src: seq<byte>) {
    && e.key == t.name && e.shape == t.shape && e.code == t.code
    && e.offset % 32 == 0 && e.length == |t.bytes| && At(src, e.offset, t.bytes)
  }

  lemma EntryDescribes(t: Tensor, src: seq<byte>, data: seq<byte>, o: nat, dataOffset: nat, alignment: nat)
    requires dataOffset % 32 == 0 && o % 32 == 0 && At(src, dataOffset, data) && At(data, o, t.bytes)
    ensures Describes(EntryOf(t, dataOffset + o, alignment), t, src)
  {
    AtNested(src, dataOffset, data, o, t.bytes);
    MultiplesAdd(dataOffset, o);
  }

  lemma EntriesDescribe(tensors: seq<Tensor>, src: seq<byte>, data: seq<byte>, dataOffset: nat, alignment: nat)
    requires dataOffset % 32 == 0 && At(src, dataOffset, data)
    requires forall i :: 0 <= i < |tensors| ==> At(data, OffsetOf(tensors, i), tensors[i].bytes)
    ensures forall i :: 0 <= i < |tensors| ==> Describes(EntriesAt(tensors, dataOffset, alignment)[i], tensors[i], src)
  {
    forall i | 0 <= i < |tensors|
      ensures Describes(EntriesAt(tensors, dataOffset, alignment)[i], tensors[i], src)
    {
      EntryDescribes(tensors[i], src, data, OffsetOf(tensors, i), dataOffset, alignment);
    }
  }

  lemma DataStands(tensors: seq<Tensor>, meta: Meta)
    ensures At(Written(tensors, meta), Align32(|Head(tensors, meta)|), DataOf(tensors))
  {
    DataBehindHead(Head(tensors, meta), DataOf(tensors));
  }

  /** Reading gives back the metadata in key order and, in order, an entry that describes every tensor. */
  lemma RoundTrip(tensors: seq<Tensor>, meta: Meta, lim: Limits)
    requires Writable(tensors, meta, lim) && AlignmentAgrees(tensors, meta)
    ensures var src := Written(tensors, meta);
            var r := ReadIndex(src, lim);
            && r.Ok? && r.value.version == 3 && r.value.metadata == MetadataOf(meta)
            && |r.value.entries| == |tensors|
            && forall i :: 0 <= i < |tensors| ==> Describes(r.value.entries[i], tensors[i], src)
  {
    var dataOffset := Align32(|Head(tensors, meta)|);
    ReadsAsWritten(tensors, meta, lim, dataOffset);
    DataStands(tensors, meta);
    forall i | 0 <= i < |tensors| ensures At(DataOf(tensors), OffsetOf(tensors, i), tensors[i].bytes) {
      DataHolds(tensors, i);
    }
    EntriesDescribe(tensors, Written(tensors, meta), DataOf(tensors), dataOffset, AlignmentOf(MetadataOf(meta)));
  }

  /** With no declared alignment, or with 32, the place of the data agrees. */
  lemma DefaultAgrees(tensors: seq<Tensor>, meta: Meta)
    requires AlignmentOf(MetadataOf(meta)) == 32
    ensures AlignmentAgrees(tensors, meta)
  {
    Align32IsAlignUp(|Head(tensors, meta)|);
  }

  /** Metadata with distinct keys is read value for value. */
  lemma {:induction false} MetadataLookup(meta: Meta, i: nat)
    requires i < |meta| && forall j :: i < j < |meta| ==> meta[j].0 != meta[i].0
    ensures meta[i].0 in MetadataOf(meta) && MetadataOf(meta)[meta[i].0] == meta[i].1.ToJson()
  {
    var n := |meta| - 1;
    assert JsonEntries(meta)[..n] == JsonEntries(meta[..n]);
    if i < n {
      MetadataLookup(meta[..n], i);
    }
  }

  lemma PlacedInOrder(tensors: seq<Tensor>, dataOffset: nat, alignment: nat, size: nat, placed: seq<Entry>)
    requires SortedNames(tensors) && PlaceAll(Dirs(tensors), dataOffset, alignment, size) == Ok(placed)
    ensures |placed| == |tensors| && Sort(ByKey, placed) == placed
    ensures forall i :: 0 <= i < |tensors| ==>
      placed[i].key == tensors[i].name && placed[i].offset == dataOffset + OffsetOf(tensors, i)
  {
    forall i | 0 <= i < |tensors|
      ensures placed[i].key == tensors[i].name && placed[i].offset == dataOffset + OffsetOf(tensors, i)
    {
      assert Place(Dirs(tensors)[i], dataOffset, alignment, size) == Ok(placed[i]);
    }
    NamesSort(tensors, placed);
  }

  lemma NamesSort(tensors: seq<Tensor>, placed: seq<Entry>)
    requires SortedNames(tensors) && |placed| == |tensors|
    requires forall i :: 0 <= i < |tensors| ==> placed[i].key == tensors[i].name
    ensures Sort(ByKey, placed) == placed
  {
    forall i, j | 0 <= i < j < |placed| ensures ByKey(placed[i], placed[j]) {
    }
    SortOfSorted(ByKey, placed);
  }

  /** Every entry comes from somewhere else than where its tensor was written. */
  ghost predicate AllElsewhere(entries: seq<Entry>, tensors: seq<Tensor>, dataOffset: nat) {
    && |entries| == |tensors|
    && forall i :: 0 <= i < |tensors| ==>
      entries[i].key == tensors[i].name && entries[i].offset != dataOffset + OffsetOf(tensors, i)
  }

  /** With another effective alignment the reader fails, or takes every tensor from somewhere else. */
  lemma AlignmentMatters(tensors: seq<Tensor>, meta: Meta, lim: Limits)
    requires Writable(tensors, meta, lim) && !AlignmentAgrees(tensors, meta)
    ensures var r := ReadIndex(Written(tensors, meta), lim);
            r.Ok? ==> AllElsewhere(r.value.entries, tensors, Align32(|Head(tensors, meta)|))
  {
    var alignment, size := AlignmentOf(MetadataOf(meta)), |Written(tensors, meta)|;
    var dataOffset := AlignUp(|Head(tensors, meta)|, alignment);
    ReadsAsPlaced(tensors, meta, lim, alignment, dataOffset);
    var placed := PlaceAll(Dirs(tensors), dataOffset, alignment, size);
    if placed.Ok? {
      PlacedInOrder(tensors, dataOffset, alignment, size, placed.value);
    }
  }
}
