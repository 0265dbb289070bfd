/** What holds of every accepted GGUF file, whatever its bytes are. */
module GgufSafety {
  import opened Bytes
  import opened Wrappers
  import opened Ordering
  import opened GgufTypes
  import opened GgufReader

  // ---- the header ends inside the file ----

  /** What is read lies before the end of the source, and the item is as promised. */
  ghost predicate Keeps<T(!new)>(one: nat -> Read<T>, good: T -> bool, size: nat) {
    forall p: nat :: p <= size && one(p).Ok? ==> good(one(p).value.0) && one(p).value.1 <= size
  }

  lemma {:induction false} RepeatKeeps<T(!new)>(one: nat -> Read<T>, good: T -> bool, size: nat, pos: nat, count: nat)
    requires Keeps(one, good, size) && pos <= size && Repeat(one, pos, count).Ok?
    ensures Repeat(one, pos, count).value.1 <= size
    ensures forall v :: v in Repeat(one, pos, count).value.0 ==> good(v)
  {
    if count > 0 {
      RepeatKeeps(one, good, size, pos, count - 1);
    }
  }

  /** No integer of the metadata is above 64 bits. */
  predicate Narrow(v: Json) { v.Int? ==> v.n <= U64_MAX }

  function NarrowEntry(): ((string, Json)) -> bool { (e: (string, Json)) => Narrow(e.1) }

  lemma ValueIsNarrow(src: seq<byte>, pos: nat, valueType: nat, lim: Limits)
    requires pos <= |src| && ReadValue(src, pos, valueType, lim).Ok?
    ensures Narrow(ReadValue(src, pos, valueType, lim).value.0)
  {
    PowersOf256();
  }

  lemma EntriesKeep(src: seq<byte>, lim: Limits)
    ensures Keeps(EntryReader(src, lim), NarrowEntry(), |src|)
  {
    forall p: nat | p <= |src| && EntryReader(src, lim)(p).Ok?
      ensures NarrowEntry()(EntryReader(src, lim)(p).value.0) && EntryReader(src, lim)(p).value.1 <= |src|
    {
      var q := ReadString(src, p, lim).value.1;
      ValueIsNarrow(src, q + 4, ReadNat(src, q, 4).value.0, lim);
    }
  }

  lemma DirsKeep(src: seq<byte>, lim: Limits)
    ensures Keeps(DirReader(src, lim), _ => true, |src|)
  {
  }

  lemma {:induction false} MapIsNarrow(entries: seq<(string, Json)>)
    requires forall e :: e in entries ==> NarrowEntry()(e)
    ensures forall k :: k in MapOf(entries) ==> Narrow(MapOf(entries)[k])
  {
    if entries != [] {
      var n := |entries| - 1;
      assert NarrowEntry()(entries[n]);
      MapIsNarrow(entries[..n]);
    }
  }

  lemma AlignmentIsNarrow(metadata: map<string, Json>)
    requires forall k :: k in metadata ==> Narrow(metadata[k])
    ensures AlignmentOf(metadata) <= U64_MAX
  {
  }

  /** The header ends inside the file, and the alignment it declares is a 64-bit number. */
  lemma HeaderInside(src: seq<byte>, lim: Limits)
    requires ReadHeader(src, lim).Ok?
    ensures ReadHeader(src, lim).value.1 <= |src|
    ensures AlignmentOf(ReadHeader(src, lim).value.0.metadata) <= U64_MAX
  {
    var kvCount, tensorCount := ReadNat(src, 16, 8).value.0, ReadNat(src, 8, 8).value.0;
    var (kvs, p) := Repeat(EntryReader(src, lim), 24, kvCount).value;
    EntriesKeep(src, lim);
    RepeatKeeps(EntryReader(src, lim), NarrowEntry(), |src|, 24, kvCount);
    MapIsNarrow(kvs);
    AlignmentIsNarrow(MapOf(kvs));
    DirsKeep(src, lim);
    RepeatKeeps(DirReader(src, lim), _ => true, |src|, p, tensorCount);
  }

  // ---- the entries ----

  ghost predicate Safe(e: Entry, dataOffset: nat, fileLength: nat) {
    && dataOffset <= e.offset && e.offset + e.length <= fileLength
    && NbytesForShape(e.code, e.shape) == Some(e.length)
  }

  lemma PlacedIsSafe(dirs: seq<Dir>, dataOffset: nat, alignment: nat, size: nat, placed: seq<Entry>)
    requires PlaceAll(dirs, dataOffset, alignment, size) == Ok(placed)
    ensures Sorted(ByKey, Sort(ByKey, placed))
    ensures forall e :: e in Sort(ByKey, placed) ==> Safe(e, dataOffset, size)
  {
    KeysSort(placed);
    forall e | e in placed ensures Safe(e, dataOffset, size) {
      var i :| 0 <= i < |placed| && placed[i] == e;
      assert Place(dirs[i], dataOffset, alignment, size) == Ok(placed[i]);
    }
  }

  lemma KeysSort(entries: seq<Entry>)
    ensures Sorted(ByKey, Sort(ByKey, entries))
    ensures forall e :: e in Sort(ByKey, entries) ==> e in entries
  {
    LexLeIsOrder();
    SortSorted(ByKey, entries);
    forall e | e in Sort(ByKey, entries) ensures e in entries {
      assert e in multiset(Sort(ByKey, entries));
    }
  }

  /** Whatever the bytes are, an accepted index has entries in key order, inside the file, and of the size their
      type and shape ask for. */
  lemma AcceptedIndexIsSafe(src: seq<byte>, lim: Limits)
    requires ReadIndex(src, lim).Ok?
    ensures var x := ReadIndex(src, lim).value;
            && |x.entries| <= lim.maxTensorCount && Sorted(ByKey, x.entries)
            && forall e :: e in x.entries ==> Safe(e, x.dataOffset, |src|)
  {
    var (h, end) := ReadHeader(src, lim).value;
    var alignment := AlignmentOf(h.metadata);
    var dataOffset := AlignUp(end, alignment);
    PlacedIsSafe(h.dirs, dataOffset, alignment, |src|, PlaceAll(h.dirs, dataOffset, alignment, |src|).value);
  }

  /** The data starts behind the header, at the least multiple of the declared alignment, if that is not 0. */
  ghost predicate StartsAligned(dataOffset: nat, end: nat, alignment: nat) {
    && end <= dataOffset
    && (alignment == 0 ==> dataOffset == end)
    && (alignment > 0 ==> dataOffset % alignment == 0 && dataOffset < end + alignment)
  }

  /** In a source below 2^63 bytes no position, alignment or offset leaves 64 bits, be the index accepted or not. */
  lemma NothingOverflows(src: seq<byte>, lim: Limits)
    requires |src| < TWO64 / 2 && ReadHeader(src, lim).Ok?
    ensures var (h, end) := ReadHeader(src, lim).value;
            var dataOffset := AlignUp(end, AlignmentOf(h.metadata));
            && end <= |src| && AlignmentOf(h.metadata) <= U64_MAX
            && StartsAligned(dataOffset, end, AlignmentOf(h.metadata)) && dataOffset <= U64_MAX
            && (ReadIndex(src, lim).Ok? ==>
                ReadIndex(src, lim).value.dataOffset == dataOffset
                && forall e :: e in ReadIndex(src, lim).value.entries ==> e.offset + e.length <= U64_MAX)
  {
    var (h, end) := ReadHeader(src, lim).value;
    HeaderInside(src, lim);
    AlignUpFits(end, AlignmentOf(h.metadata));
    if ReadIndex(src, lim).Ok? {
      AcceptedIndexIsSafe(src, lim);
    }
  }
}
