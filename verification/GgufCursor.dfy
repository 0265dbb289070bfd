/** The reader as the code runs it: a cursor that moves, and loops that fill lists and a map. */
module GgufCursor {
  import opened Bytes
  import opened Wrappers
  import opened Ordering
  import opened GgufTypes
  import R = GgufReader
  import Utf8

  type Error = R.Error

  /** The outcome of a reading method against the reading function: same value and same new position, or the
      same error. */
  ghost predicate Agrees<T>(spec: R.Read<T>, r: Result<T, Error>, pos: nat) {
    match spec
    case Ok((value, next)) => r == Ok(value) && pos == next
    case Err(e) => r == Err(e)
  }

  class Cursor {
    const source: seq<byte>
    const limits: Limits
    var pos: nat

    ghost predicate Valid()
      reads this
    {
      pos <= |source|
    }

    constructor (source: seq<byte>, limits: Limits)
      ensures Valid() && pos == 0 && this.source == source && this.limits == limits
    {
      this.source, this.limits, pos := source, limits, 0;
    }

    method ReadExact(len: nat) returns (r: Result<seq<byte>, Error>)
      requires Valid()
      modifies this
      ensures Valid() && Agrees(R.ReadExact(source, old(pos), len), r, pos)
    {
      if pos + len > |source| {
        return Err(R.PastEnd);
      }
      r := Ok(source[pos..pos + len]);
      pos := pos + len;
    }

    method ReadNat(width: nat) returns (r: Result<nat, Error>)
      requires Valid()
      modifies this
      ensures Valid() && Agrees(R.ReadNat(source, old(pos), width), r, pos)
    {
      var b :- ReadExact(width);
      r := Ok(FromLe(b));
    }

    method ReadString() returns (r: Result<string, Error>)
      requires Valid()
      modifies this
      ensures Valid() && Agrees(R.ReadString(source, old(pos), limits), r, pos)
    {
      var len :- ReadNat(8);
      if len > limits.maxKeyLen {
        return Err(R.StringTooLong);
      }
      var bytes :- ReadExact(len);
      match Utf8.Decode(bytes)
      case None => r := Err(R.NotUtf8);
      case Some(s) => r := Ok(s);
    }

    method ReadInt(width: nat, signed: bool) returns (r: Result<Json, Error>)
      requires Valid() && width > 0
      modifies this
      ensures Valid()
      ensures match R.ReadNat(source, old(pos), width)
              case Ok((n, next)) => r == Ok(Int(if signed then Signed(n, width) else n)) && pos == next
              case Err(e) => r == Err(e)
    {
      var n :- ReadNat(width);
      r := Ok(Int(if signed then Signed(n, width) else n));
    }

    method ReadValue(valueType: nat) returns (r: Result<Json, Error>)
      requires Valid()
      modifies this
      ensures Valid() && Agrees(R.ReadValue(source, old(pos), valueType, limits), r, pos)
      decreases |source| - pos, 0
    {
      match valueType
      case 0 => r := ReadInt(1, false);
      case 1 => r := ReadInt(1, true);
      case 2 => r := ReadInt(2, false);
      case 3 => r := ReadInt(2, true);
      case 4 => r := ReadInt(4, false);
      case 5 => r := ReadInt(4, true);
      case 6 => var n :- ReadNat(4); r := Ok(Float32Json(n));
      case 7 => var n :- ReadNat(1); r := Ok(Bool(n != 0));
      case 8 => var s :- ReadString(); r := Ok(Str(s));
      case 9 =>
        var elemType :- ReadNat(4);
        var count :- ReadNat(8);
        if count > limits.maxMetadataEntries {
          return Err(R.ArrayTooLong);
        }
        var items :- ReadMany(elemType, count);
        r := Ok(Arr(items));
      case 10 => r := ReadInt(8, false);
      case 11 => r := ReadInt(8, true);
      case 12 => var n :- ReadNat(8); r := Ok(Float64Json(n));
      case _ => r := Err(R.UnknownValueType);
    }

    /** The loop over the elements of an array. */
    method ReadMany(elemType: nat, count: nat) returns (r: Result<seq<Json>, Error>)
      requires Valid()
      modifies this
      ensures Valid() && Agrees(R.ReadMany(source, old(pos), elemType, count, limits), r, pos)
      decreases |source| - pos, 1
    {
      var items := [];
      for i := 0 to count
        invariant Valid() && (i > 0 ==> old(pos) < pos) && old(pos) <= pos
        invariant R.ReadMany(source, old(pos), elemType, i, limits) == Ok((items, pos))
      {
        var v := ReadValue(elemType);
        if v.Err? {
          ReadManyError(source, old(pos), elemType, i + 1, count, limits);
          return Err(v.error);
        }
        items := items + [v.value];
      }
      r := Ok(items);
    }

    method ReadEntry() returns (r: Result<(string, Json), Error>)
      requires Valid()
      modifies this
      ensures Valid() && Agrees(R.EntryReader(source, limits)(old(pos)), r, pos)
    {
      var key :- ReadString();
      var valueType :- ReadNat(4);
      var value :- ReadValue(valueType);
      r := Ok((key, value));
    }

    method ReadMetadata(count: nat) returns (r: Result<map<string, Json>, Error>, ghost kvs: seq<(string, Json)>)
      requires Valid()
      modifies this
      ensures Valid()
      ensures match R.Repeat(R.EntryReader(source, limits), old(pos), count)
              case Ok((read, next)) => kvs == read && r == Ok(R.MapOf(kvs)) && pos == next
              case Err(e) => r == Err(e)
    {
      var metadata := map[];
      kvs := [];
      ghost var one := R.EntryReader(source, limits);
      for i := 0 to count
        invariant Valid() && metadata == R.MapOf(kvs)
        invariant R.Repeat(one, old(pos), i) == Ok((kvs, pos))
      {
        var entry := ReadEntry();
        if entry.Err? {
          RepeatError(one, old(pos), i + 1, count);
          return Err(entry.error), kvs;
        }
        R.MapOfAppend(kvs, entry.value);
        metadata, kvs := metadata[entry.value.0 := entry.value.1], kvs + [entry.value];
      }
      r := Ok(metadata);
    }

    /** The dimensions in file order. */
    method ReadDims(count: nat) returns (r: Result<seq<nat>, Error>)
      requires Valid()
      modifies this
      ensures Valid() && Agrees(R.Repeat(R.DimReader(source), old(pos), count), r, pos)
    {
      var dims := [];
      ghost var one := R.DimReader(source);
      for i := 0 to count
        invariant Valid() && R.Repeat(one, old(pos), i) == Ok((dims, pos))
      {
        var d := ReadNat(8);
        if d.Err? {
          RepeatError(one, old(pos), i + 1, count);
          return Err(d.error);
        }
        dims := dims + [d.value];
      }
      r := Ok(dims);
    }

    method ReadShape() returns (r: Result<seq<nat>, Error>)
      requires Valid()
      modifies this
      ensures Valid() && Agrees(R.ReadShape(source, old(pos), limits), r, pos)
    {
      var rank :- ReadNat(4);
      if rank > limits.maxShapeRank {
        return Err(R.RankTooHigh);
      }
      var dims :- ReadDims(rank);
      var shape := R.Reversed(dims);
      if !limits.ShapeOk(shape) {
        return Err(R.DimensionTooLarge);
      }
      r := Ok(shape);
    }

    method ReadDir() returns (r: Result<R.Dir, Error>)
      requires Valid()
      modifies this
      ensures Valid() && Agrees(R.DirReader(source, limits)(old(pos)), r, pos)
    {
      var name :- ReadString();
      var shape :- ReadShape();
      var code :- ReadNat(4);
      if LayoutOf(code).None? {
        return Err(R.UnknownTensorType);
      }
      var offset :- ReadNat(8);
      r := Ok(R.Dir(name, shape, code, offset));
    }

    method ReadDirs(count: nat) returns (r: Result<seq<R.Dir>, Error>)
      requires Valid()
      modifies this
      ensures Valid() && Agrees(R.Repeat(R.DirReader(source, limits), old(pos), count), r, pos)
    {
      var dirs: seq<R.Dir> := [];
      ghost var one := R.DirReader(source, limits);
      for i := 0 to count
        invariant Valid() && R.Repeat(one, old(pos), i) == Ok((dirs, pos))
      {
        var d := ReadDir();
        if d.Err? {
          RepeatError(one, old(pos), i + 1, count);
          return Err(d.error);
        }
        dirs := dirs + [d.value];
      }
      r := Ok(dirs);
    }
  }

  lemma {:induction false} RepeatError<T>(one: nat -> R.Read<T>, pos: nat, i: nat, count: nat)
    requires i <= count && R.Repeat(one, pos, i).Err?
    ensures R.Repeat(one, pos, count).Err? && R.Repeat(one, pos, count).error == R.Repeat(one, pos, i).error
    decreases count
  {
    if i < count {
      RepeatError(one, pos, i, count - 1);
    }
  }

  lemma {:induction false} ReadManyError(src: seq<byte>, pos: nat, elemType: nat, i: nat, count: nat, lim: Limits)
    requires pos <= |src| && i <= count && R.ReadMany(src, pos, elemType, i, lim).Err?
    ensures R.ReadMany(src, pos, elemType, count, lim).Err?
    ensures R.ReadMany(src, pos, elemType, count, lim).error == R.ReadMany(src, pos, elemType, i, lim).error
    decreases count
  {
    if i < count {
      ReadManyError(src, pos, elemType, i, count - 1, lim);
    }
  }

  method PlaceAll(dirs: seq<R.Dir>, dataOffset: nat, alignment: nat, fileLength: nat)
    returns (r: Result<seq<R.Entry>, Error>)
    ensures r == R.PlaceAll(dirs, dataOffset, alignment, fileLength)
  {
    var entries := [];
    for i := 0 to |dirs|
      invariant R.PlaceAll(dirs[..i], dataOffset, alignment, fileLength) == Ok(entries)
    {
      assert dirs[..i + 1][..i] == dirs[..i];
      var placed := R.Place(dirs[i], dataOffset, alignment, fileLength);
      if placed.Err? {
        ErrorStays(dirs, i + 1, placed.error, dataOffset, alignment, fileLength);
        return Err(placed.error);
      }
      entries := entries + [placed.value];
    }
    assert dirs[..|dirs|] == dirs;
    r := Ok(entries);
  }

  lemma {:induction false} ErrorStays(dirs: seq<R.Dir>, i: nat, e: Error, dataOffset: nat, alignment: nat, fileLength: nat)
    requires i <= |dirs| && R.PlaceAll(dirs[..i], dataOffset, alignment, fileLength) == Err(e)
    ensures R.PlaceAll(dirs, dataOffset, alignment, fileLength) == Err(e)
  {
    if i == |dirs| {
      assert dirs[..i] == dirs;
    } else {
      assert dirs[..|dirs| - 1][..i] == dirs[..i];
      ErrorStays(dirs[..|dirs| - 1], i, e, dataOffset, alignment, fileLength);
    }
  }

  method IndexFile(source: seq<byte>, limits: Limits) returns (r: Result<R.Index, Error>)
    ensures r == R.ReadIndex(source, limits)
  {
    var cur := new Cursor(source, limits);
    var magic :- cur.ReadExact(4);
    if magic != R.MAGIC {
      return Err(R.NotGguf);
    }
    var version :- cur.ReadNat(4);
    if version < 2 || version > 3 {
      return Err(R.UnknownVersion);
    }
    var tensorCount :- cur.ReadNat(8);
    var kvCount :- cur.ReadNat(8);
    if tensorCount > limits.maxTensorCount || kvCount > limits.maxMetadataEntries {
      return Err(R.TooManyEntries);
    }
    var read, _ := cur.ReadMetadata(kvCount);
    var metadata :- read;
    var alignment := AlignmentOf(metadata);
    var dirs :- cur.ReadDirs(tensorCount);
    var dataOffset := AlignUp(cur.pos, alignment);
    var entries :- PlaceAll(dirs, dataOffset, alignment, |source|);
    r := Ok(R.Index(version, metadata, Sort(R.ByKey, entries), dataOffset));
  }
}
