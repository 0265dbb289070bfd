/** The GGUF reader: positions, metadata values, tensor directory, index. */
module GgufReader {
  import opened Bytes
  import opened Wrappers
  import opened Ordering
  import opened GgufTypes
  import Utf8

  datatype Error = PastEnd | StringTooLong | NotUtf8 | ArrayTooLong | UnknownValueType | NotGguf | UnknownVersion
                 | TooManyEntries | RankTooHigh | DimensionTooLarge | UnknownTensorType | BadTensorSize | OutOfFile

  /** What reading at a position gives: a value and the position behind it. */
  type Read<T> = Result<(T, nat), Error>

  // ---- reading, as functions of the bytes and the position ----

  function ReadExact(src: seq<byte>, pos: nat, len: nat): (r: Read<seq<byte>>)
    ensures r.Ok? ==> r.value.1 == pos + len <= |src| && r.value.0 == src[pos..pos + len]
  {
    if pos + len > |src| then Err(PastEnd) else Ok((src[pos..pos + len], pos + len))
  }

  function ReadNat(src: seq<byte>, pos: nat, width: nat): (r: Read<nat>)
    ensures r.Ok? ==> r.value.1 == pos + width <= |src| && r.value.0 < PowerOf256(width)
  {
    var (b, next) :- ReadExact(src, pos, width);
    FromLeBound(b);
    Ok((FromLe(b), next))
  }

  function ReadString(src: seq<byte>, pos: nat, lim: Limits): (r: Read<string>)
    ensures r.Ok? ==> pos + 8 <= r.value.1 <= |src| && |Utf8.Encode(r.value.0)| <= lim.maxKeyLen
  {
    var (len, start) :- ReadNat(src, pos, 8);
    if len > lim.maxKeyLen then Err(StringTooLong)
    else
      var (b, next) :- ReadExact(src, start, len);
      match Utf8.Decode(b)
      case None => Err(NotUtf8)
      case Some(s) => Utf8.DecodeEncode(b); Ok((s, next))
  }

  /** One metadata value.  Arrays nest, and every value takes at least a byte. */
  function ReadValue(src: seq<byte>, pos: nat, valueType: nat, lim: Limits): (r: Read<Json>)
    requires pos <= |src|
    ensures r.Ok? ==> pos < r.value.1 <= |src|
    decreases |src| - pos, 0, 0
  {
    match valueType
    case 0 => var (n, next) :- ReadNat(src, pos, 1); Ok((Int(n), next))
    case 1 => var (n, next) :- ReadNat(src, pos, 1); Ok((Int(Signed(n, 1)), next))
    case 2 => var (n, next) :- ReadNat(src, pos, 2); Ok((Int(n), next))
    case 3 => var (n, next) :- ReadNat(src, pos, 2); Ok((Int(Signed(n, 2)), next))
    case 4 => var (n, next) :- ReadNat(src, pos, 4); Ok((Int(n), next))
    case 5 => var (n, next) :- ReadNat(src, pos, 4); Ok((Int(Signed(n, 4)), next))
    case 6 => var (n, next) :- ReadNat(src, pos, 4); Ok((Float32Json(n), next))
    case 7 => var (n, next) :- ReadNat(src, pos, 1); Ok((Bool(n != 0), next))
    case 8 => var (s, next) :- ReadString(src, pos, lim); Ok((Str(s), next))
    case 9 =>
      var (elemType, p4) :- ReadNat(src, pos, 4);
      var (count, p12) :- ReadNat(src, p4, 8);
      if count > lim.maxMetadataEntries then Err(ArrayTooLong)
      else
        var (items, next) :- ReadMany(src, p12, elemType, count, lim);
        Ok((Arr(items), next))
    case 10 => var (n, next) :- ReadNat(src, pos, 8); Ok((Int(n), next))
    case 11 => var (n, next) :- ReadNat(src, pos, 8); Ok((Int(Signed(n, 8)), next))
    case 12 => var (n, next) :- ReadNat(src, pos, 8); Ok((Float64Json(n), next))
    case _ => Err(UnknownValueType)
  }

  function ReadMany(src: seq<byte>, pos: nat, elemType: nat, count: nat, lim: Limits): (r: Read<seq<Json>>)
    requires pos <= |src|
    ensures r.Ok? ==> pos <= r.value.1 <= |src| && |r.value.0| == count && (count > 0 ==> pos < r.value.1)
    decreases |src| - pos, 1, count
  {
    if count == 0 then Ok(([], pos))
    else
      var (items, p) :- ReadMany(src, pos, elemType, count - 1, lim);
      var (v, next) :- ReadValue(src, p, elemType, lim);
      Ok((items + [v], next))
  }

  /** Reading a number of things one after the other. */
  function Repeat<T>(one: nat -> Read<T>, pos: nat, count: nat): (r: Read<seq<T>>)
    ensures r.Ok? ==> |r.value.0| == count
  {
    if count == 0 then Ok(([], pos))
    else
      var (items, p) :- Repeat(one, pos, count - 1);
      var (v, next) :- one(p);
      Ok((items + [v], next))
  }

  function ReadEntry(src: seq<byte>, pos: nat, lim: Limits): Read<(string, Json)> {
    var (key, p) :- ReadString(src, pos, lim);
    var (valueType, q) :- ReadNat(src, p, 4);
    var (value, next) :- ReadValue(src, q, valueType, lim);
    Ok(((key, value), next))
  }

  function EntryReader(src: seq<byte>, lim: Limits): nat -> Read<(string, Json)> {
    pos => ReadEntry(src, pos, lim)
  }

  /** The last value of a key wins. */
  function MapOf(entries: seq<(string, Json)>): map<string, Json> {
    if entries == [] then map[]
    else
      var last := entries[|entries| - 1];
      MapOf(entries[..|entries| - 1])[last.0 := last.1]
  }

  lemma MapOfAppend(entries: seq<(string, Json)>, e: (string, Json))
    ensures MapOf(entries + [e]) == MapOf(entries)[e.0 := e.1]
  {
    assert (entries + [e])[..|entries|] == entries;
  }

  datatype Dir = Dir(name: string, shape: seq<nat>, code: nat, offset: nat)

  function DimReader(src: seq<byte>): nat -> Read<nat> {
    pos => ReadNat(src, pos, 8)
  }

  function Reversed(s: seq<nat>): (r: seq<nat>)
    ensures |r| == |s|
  {
    seq(|s|, i requires 0 <= i < |s| => s[|s| - 1 - i])
  }

  /** The rank and the dimensions, which are stored in reverse order. */
  function ReadShape(src: seq<byte>, pos: nat, lim: Limits): (r: Read<seq<nat>>)
    ensures r.Ok? ==> lim.ShapeOk(r.value.0)
  {
    var (rank, p) :- ReadNat(src, pos, 4);
    if rank > lim.maxShapeRank then Err(RankTooHigh)
    else
      var (dims, next) :- Repeat(DimReader(src), p, rank);
      var shape := Reversed(dims);
      if !lim.ShapeOk(shape) then Err(DimensionTooLarge) else Ok((shape, next))
  }

  function ReadType(src: seq<byte>, pos: nat): (r: Read<nat>)
    ensures r.Ok? ==> LayoutOf(r.value.0).Some?
  {
    var (code, next) :- ReadNat(src, pos, 4);
    if LayoutOf(code).None? then Err(UnknownTensorType) else Ok((code, next))
  }

  function ReadDir(src: seq<byte>, pos: nat, lim: Limits): (r: Read<Dir>)
    ensures r.Ok? ==> LayoutOf(r.value.0.code).Some? && lim.ShapeOk(r.value.0.shape)
  {
    var (name, p0) :- ReadString(src, pos, lim);
    var (shape, p1) :- ReadShape(src, p0, lim);
    var (code, p2) :- ReadType(src, p1);
    var (offset, p3) :- ReadNat(src, p2, 8);
    Ok((Dir(name, shape, code, offset), p3))
  }

  function DirReader(src: seq<byte>, lim: Limits): nat -> Read<Dir> {
    pos => ReadDir(src, pos, lim)
  }

  // ---- the index ----

  datatype Entry = Entry(key: string, shape: seq<nat>, code: nat, offset: nat, length: nat, alignment: nat)

  predicate ByKey(a: Entry, b: Entry) { LexLe(a.key, b.key) }

  datatype Index = Index(version: nat, metadata: map<string, Json>, entries: seq<Entry>, dataOffset: nat)

  /** The place of a tensor, if it has a size and lies inside a file of the given length. */
  function Place(d: Dir, dataOffset: nat, alignment: nat, fileLength: nat): (r: Result<Entry, Error>)
    ensures r.Ok? ==> r.value.offset == dataOffset + d.offset && r.value.offset + r.value.length <= fileLength
    ensures r.Ok? ==> NbytesForShape(r.value.code, r.value.shape) == Some(r.value.length)
  {
    match NbytesForShape(d.code, d.shape)
    case None => Err(BadTensorSize)
    case Some(n) =>
      if dataOffset + d.offset + n > fileLength then Err(OutOfFile)
      else Ok(Entry(d.name, d.shape, d.code, dataOffset + d.offset, n, alignment))
  }

  function PlaceAll(dirs: seq<Dir>, dataOffset: nat, alignment: nat, fileLength: nat): (r: Result<seq<Entry>, Error>)
    ensures r.Ok? ==> |r.value| == |dirs| && forall i :: 0 <= i < |dirs| ==>
      Place(dirs[i], dataOffset, alignment, fileLength) == Ok(r.value[i])
  {
    if dirs == [] then Ok([])
    else
      var n := |dirs| - 1;
      var first :- PlaceAll(dirs[..n], dataOffset, alignment, fileLength);
      var last :- Place(dirs[n], dataOffset, alignment, fileLength);
      Ok(first + [last])
  }

  function Indexed(version: nat, metadata: map<string, Json>, placed: Result<seq<Entry>, Error>, dataOffset: nat)
    : Result<Index, Error>
  {
    var entries :- placed;
    Ok(Index(version, metadata, Sort(ByKey, entries), dataOffset))
  }

  const MAGIC: seq<byte> := [71, 71, 85, 70]

  datatype Header = Header(version: nat, metadata: map<string, Json>, dirs: seq<Dir>)

  function ReadHeader(src: seq<byte>, lim: Limits): (r: Read<Header>)
    ensures r.Ok? ==> |r.value.0.dirs| <= lim.maxTensorCount
  {
    var (magic, p4) :- ReadExact(src, 0, 4);
    if magic != MAGIC then Err(NotGguf)
    else
      var (version, p8) :- ReadNat(src, p4, 4);
      if version < 2 || version > 3 then Err(UnknownVersion)
      else
        var (tensorCount, p16) :- ReadNat(src, p8, 8);
        var (kvCount, p24) :- ReadNat(src, p16, 8);
        if tensorCount > lim.maxTensorCount || kvCount > lim.maxMetadataEntries then Err(TooManyEntries)
        else
          var (kvs, p) :- Repeat(EntryReader(src, lim), p24, kvCount);
          var (dirs, q) :- Repeat(DirReader(src, lim), p, tensorCount);
          Ok((Header(version, MapOf(kvs), dirs), q))
  }

  function ReadIndex(src: seq<byte>, lim: Limits): Result<Index, Error> {
    var (h, end) :- ReadHeader(src, lim);
    var alignment := AlignmentOf(h.metadata);
    var dataOffset := AlignUp(end, alignment);
    Indexed(h.version, h.metadata, PlaceAll(h.dirs, dataOffset, alignment, |src|), dataOffset)
  }
}
