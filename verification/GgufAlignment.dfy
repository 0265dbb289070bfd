/** When a declared alignment spoils a written file: the exact condition, and two files. */
module GgufAlignment {
  import opened Bytes
  import opened Wrappers
  import opened Ordering
  import opened GgufTypes
  import opened GgufReader
  import opened GgufWriter
  import opened GgufRoundTrip
  import Utf8

  /** Every tensor has the range in which it was written, behind data that starts at the offset. */
  ghost predicate Ranged(entries: seq<Entry>, tensors: seq<Tensor>, dataOffset: nat) {
    && |entries| == |tensors|
    && forall i :: 0 <= i < |tensors| ==>
      && entries[i].key == tensors[i].name && entries[i].length == |tensors[i].bytes|
      && entries[i].offset == dataOffset + OffsetOf(tensors, i)
  }

  ghost predicate InPlace(r: Result<Index, Error>, tensors: seq<Tensor>, meta: Meta) {
    r.Ok? && Ranged(r.value.entries, tensors, Align32(|Head(tensors, meta)|))
  }

  lemma EntriesRanged(tensors: seq<Tensor>, dataOffset: nat, alignment: nat)
    ensures Ranged(EntriesAt(tensors, dataOffset, alignment), tensors, dataOffset)
  {
  }

  lemma AgreesInPlace(tensors: seq<Tensor>, meta: Meta, lim: Limits)
    requires Writable(tensors, meta, lim) && AlignmentAgrees(tensors, meta)
    ensures InPlace(ReadIndex(Written(tensors, meta), lim), tensors, meta)
  {
    var dataOffset := Align32(|Head(tensors, meta)|);
    ReadsAsWritten(tensors, meta, lim, dataOffset);
    EntriesRanged(tensors, dataOffset, AlignmentOf(MetadataOf(meta)));
  }

  lemma ElsewhereNotInPlace(r: Result<Index, Error>, tensors: seq<Tensor>, meta: Meta)
    requires tensors != [] && (r.Ok? ==> AllElsewhere(r.value.entries, tensors, Align32(|Head(tensors, meta)|)))
    ensures !InPlace(r, tensors, meta)
  {
    if r.Ok? {
      assert r.value.entries[0].offset != Align32(|Head(tensors, meta)|) + OffsetOf(tensors, 0);
    }
  }

  /** A file with a tensor is read in place exactly when its declared alignment, applied to the end of the header,
      gives the same place as rounding up to 32. */
  lemma InPlaceIff(tensors: seq<Tensor>, meta: Meta, lim: Limits)
    requires Writable(tensors, meta, lim) && tensors != []
    ensures InPlace(ReadIndex(Written(tensors, meta), lim), tensors, meta) <==> AlignmentAgrees(tensors, meta)
  {
    if AlignmentAgrees(tensors, meta) {
      AgreesInPlace(tensors, meta, lim);
    } else {
      AlignmentMatters(tensors, meta, lim);
      ElsewhereNotInPlace(ReadIndex(Written(tensors, meta), lim), tensors, meta);
    }
  }

  // ---- the length of a file with one tensor and one metadata value ----

  predicate Ascii(s: string) { forall i :: 0 <= i < |s| ==> s[i] as int < 128 }

  lemma {:induction false} AsciiLength(s: string)
    requires Ascii(s)
    ensures |Utf8.Encode(s)| == |s|
  {
    if s != "" {
      assert s[0] as int < 128;
      assert |Utf8.EncodeChar(s[0])| == 1;
      AsciiLength(s[1..]);
    }
  }

  lemma ConcatOne(chunks: seq<seq<byte>>)
    requires |chunks| == 1
    ensures |Concat(chunks)| == |chunks[0]|
  {
    assert chunks[..0] == [];
  }

  lemma EntryLength(e: (string, MetaValue))
    requires Ascii(e.0) && e.1.U32?
    ensures |Concat(MetaChunks([e]))| == 16 + |e.0|
  {
    AsciiLength(e.0);
    ConcatOne(MetaChunks([e]));
  }

  lemma ShapeLength(shape: seq<nat>)
    requires |shape| == 1
    ensures |ShapeBytes(shape)| == 12
  {
    var chunks := DimChunks(shape);
    assert chunks[0] == DimBytes(shape[0]);
    ConcatOne(chunks);
  }

  lemma DirLength(t: Tensor, offset: nat)
    requires Ascii(t.name) && |t.shape| == 1
    ensures |DirBytes(t, offset)| == 32 + |t.name|
  {
    AsciiLength(t.name);
    ShapeLength(t.shape);
  }

  lemma HeadLength(tensors: seq<Tensor>, meta: Meta)
    ensures |Head(tensors, meta)| == 24 + |Concat(MetaChunks(meta))| + |Concat(DirChunks(tensors))|
  {
  }

  lemma HeadOfOne(t: Tensor, e: (string, MetaValue))
    requires Ascii(t.name) && |t.shape| == 1 && Ascii(e.0) && e.1.U32?
    ensures |Head([t], [e])| == 72 + |e.0| + |t.name|
  {
    HeadLength([t], [e]);
    EntryLength(e);
    DirLength(t, OffsetOf([t], 0));
    ConcatOne(DirChunks([t]));
  }

  lemma DataOfOne(t: Tensor)
    ensures DataOf([t]) == t.bytes && OffsetOf([t], 0) == 0
  {
    assert [t][..0] == [];
  }

  lemma SizeOfOne(t: Tensor, e: (string, MetaValue))
    ensures |Written([t], [e])| == Align32(|Head([t], [e])|) + |t.bytes|
  {
    DataOfOne(t);
    WrittenLength([t], [e]);
  }

  /** A small file: one tensor of four bytes, and one 32-bit metadata value. */
  predicate Small(t: Tensor, e: (string, MetaValue)) {
    && t.name == "t" && t.shape == [1] && t.code == 0 && |t.bytes| == 4
    && e.0 == "general.alignment" && e.1.U32? && e.1.x <= U32_MAX
  }

  lemma SmallNames(t: Tensor, e: (string, MetaValue))
    requires Small(t, e)
    ensures |t.name| == 1 && |e.0| == 17 && Ascii(t.name) && Ascii(e.0)
  {
  }

  /** The header takes 90 bytes, six zeros follow, and the four bytes of the tensor stand from 96 to 100. */
  lemma SmallLayout(t: Tensor, e: (string, MetaValue))
    requires Small(t, e)
    ensures |Head([t], [e])| == 90 && |Written([t], [e])| == 100
  {
    SmallNames(t, e);
    HeadOfOne(t, e);
    SizeOfOne(t, e);
  }

  const LIMITS := Limits(10, 10, 32, 4, 10)

  lemma SmallFits(t: Tensor, e: (string, MetaValue), lim: Limits)
    requires Small(t, e) && lim == LIMITS
    ensures TensorFits(t, lim) && MetaFits(e, lim)
  {
    AsciiLength(t.name);
    AsciiLength(e.0);
    assert CheckedNumel(t.shape, 1) == Some(1);
  }

  lemma OneWritable(t: Tensor, e: (string, MetaValue), lim: Limits)
    requires lim.Valid() && lim.maxTensorCount > 0 && lim.maxMetadataEntries > 0
    requires TensorFits(t, lim) && MetaFits(e, lim) && |Written([t], [e])| == 100
    ensures Writable([t], [e], lim)
  {
  }

  lemma SmallWritable(t: Tensor, e: (string, MetaValue), lim: Limits)
    requires Small(t, e) && lim == LIMITS
    ensures Writable([t], [e], lim)
  {
    SmallFits(t, e, lim);
    SmallLayout(t, e);
    OneWritable(t, e, lim);
  }

  lemma SmallAlignment(t: Tensor, e: (string, MetaValue))
    requires Small(t, e)
    ensures AlignmentOf(MetadataOf([e])) == e.1.x
  {
    MetadataLookup([e], 0);
  }

  lemma PlaceAllOne(d: Dir, dataOffset: nat, alignment: nat, size: nat)
    ensures Place(d, dataOffset, alignment, size).Err? ==>
      PlaceAll([d], dataOffset, alignment, size) == Err(Place(d, dataOffset, alignment, size).error)
    ensures Place(d, dataOffset, alignment, size).Ok? ==>
      PlaceAll([d], dataOffset, alignment, size) == Ok([Place(d, dataOffset, alignment, size).value])
  {
    assert [d][..|[d]| - 1] == [];
    assert PlaceAll([], dataOffset, alignment, size) == Ok([]);
    if Place(d, dataOffset, alignment, size).Ok? {
      var e := Place(d, dataOffset, alignment, size).value;
      assert [] + [e] == [e];
    }
  }

  lemma SmallPlace(d: Dir, metadata: map<string, Json>, alignment: nat, dataOffset: nat)
    requires d == Dir("t", [1], 0, 0)
    ensures Indexed(3, metadata, PlaceAll([d], dataOffset, alignment, 100), dataOffset) ==
            if dataOffset + 4 > 100 then Err(OutOfFile)
            else Ok(Index(3, metadata, [Entry("t", [1], 0, dataOffset, 4, alignment)], dataOffset))
  {
    assert CheckedNumel(d.shape, 1) == Some(1);
    PlaceAllOne(d, dataOffset, alignment, 100);
    SortOfSorted(ByKey, [Entry("t", [1], 0, dataOffset, 4, alignment)]);
  }

  lemma DirsOfOne(t: Tensor)
    ensures Dirs([t]) == [DirOf(t, 0)]
  {
    DataOfOne(t);
  }

  /** The directory is placed from the end of the header at the declared alignment. */
  lemma SmallReads(t: Tensor, e: (string, MetaValue), lim: Limits, dataOffset: nat)
    requires Small(t, e) && lim == LIMITS && dataOffset == AlignUp(90, e.1.x)
    ensures ReadIndex(Written([t], [e]), lim) ==
            Indexed(3, MetadataOf([e]), PlaceAll([DirOf(t, 0)], dataOffset, e.1.x, 100), dataOffset)
  {
    SmallLayout(t, e);
    SmallAlignment(t, e);
    SmallWritable(t, e, lim);
    DirsOfOne(t);
    ReadsAsPlaced([t], [e], lim, e.1.x, dataOffset);
  }

  // ---- two files ----

  /** A writable file that declares 64 is refused: its data stands at 96, and the reader looks at 128. */
  lemma LargeAlignmentIsRefused(t: Tensor, e: (string, MetaValue), lim: Limits)
    requires Small(t, e) && lim == LIMITS && e.1.x == 64
    ensures Writable([t], [e], lim) && ReadIndex(Written([t], [e]), lim) == Err(OutOfFile)
  {
    SmallWritable(t, e, lim);
    SmallReads(t, e, lim, 128);
    SmallPlace(DirOf(t, 0), MetadataOf([e]), 64, 128);
  }

  /** A writable file that declares 1 is accepted with the bytes from 90 to 94, which are padding. */
  lemma SmallAlignmentMisreads(t: Tensor, e: (string, MetaValue), lim: Limits)
    requires Small(t, e) && lim == LIMITS && e.1.x == 1
    ensures Writable([t], [e], lim)
    ensures var src := Written([t], [e]);
            var r := ReadIndex(src, lim);
            && r.Ok? && |r.value.entries| == 1 && r.value.entries[0].offset == 90 && r.value.entries[0].length == 4
            && At(src, 90, Zeros(4)) && At(src, 96, t.bytes)
  {
    SmallWritable(t, e, lim);
    SmallReads(t, e, lim, 90);
    SmallPlace(DirOf(t, 0), MetadataOf([e]), 1, 90);
    SmallBytes(t, e);
  }

  lemma SmallBytes(t: Tensor, e: (string, MetaValue))
    requires Small(t, e)
    ensures At(Written([t], [e]), 90, Zeros(4)) && At(Written([t], [e]), 96, t.bytes)
  {
    SmallLayout(t, e);
    DataOfOne(t);
    DataStands([t], [e]);
    PaddingStands(Head([t], [e]), DataOf([t]));
  }

  lemma PaddingStands(head: seq<byte>, data: seq<byte>)
    requires |head| == 90
    ensures At(head + Padding(|head|) + data, 90, Zeros(4))
  {
  }

  /** There are such files. */
  lemma SmallExists(alignment: nat) returns (t: Tensor, e: (string, MetaValue))
    requires alignment <= U32_MAX
    ensures Small(t, e) && e.1.x == alignment
  {
    t, e := Tensor("t", [1], 0, [1, 2, 3, 4]), ("general.alignment", U32(alignment));
  }
}
