/** The SafeTensors index: header entries become file ranges, and overlapping ranges are refused. */
module SafeTensors {
  import opened Bytes
  import opened Wrappers
  import opened Ordering
  import opened GgufTypes
  import Utf8

  datatype Error = KeyTooLong | BadShape | Backwards | UnknownType | TooManyElements | TooManyBytes | WrongLength
                 | OffsetTooLarge | PastEnd | TooManyTensors | Overlap | TooMuchData

  /** A header entry, as parsed from the JSON text. */
  datatype Info = Info(key: string, dtype: string, shape: seq<nat>, begin: nat, end: nat)

  datatype Entry = Entry(key: string, shape: seq<nat>, dtype: string, offset: nat, length: nat)

  /** The bytes of one element. */
  function ElementBytes(dtype: string): (n: Option<nat>)
    ensures n.Some? ==> 1 <= n.value <= 8
  {
    if dtype in {"F64", "I64", "U64"} then Some(8)
    else if dtype in {"F32", "I32", "U32"} then Some(4)
    else if dtype in {"F16", "BF16", "I16", "U16"} then Some(2)
    else if dtype in {"I8", "U8", "BOOL"} then Some(1)
    else None
  }

  function SaturatingEnd(offset: nat, length: nat): nat {
    if offset + length > U64_MAX then U64_MAX else offset + length
  }

  /** One header entry, checked in the order of the reader. */
  function Placed(info: Info, dataBase: nat, fileLength: nat, lim: Limits): (r: Result<Entry, Error>)
    ensures r.Ok? && fileLength < U64_MAX ==>
      && r.value.key == info.key && r.value.offset == dataBase + info.begin
      && r.value.offset + r.value.length <= fileLength
      && ElementBytes(r.value.dtype).Some? && CheckedNumel(r.value.shape, 1).Some?
      && r.value.length == CheckedNumel(r.value.shape, 1).value * ElementBytes(r.value.dtype).value
  {
    if |Utf8.Encode(info.key)| > lim.maxKeyLen then Err(KeyTooLong)
    else if !lim.ShapeOk(info.shape) then Err(BadShape)
    else if info.end < info.begin then Err(Backwards)
    else if ElementBytes(info.dtype).None? then Err(UnknownType)
    else if CheckedNumel(info.shape, 1).None? then Err(TooManyElements)
    else
      var length, expected := info.end - info.begin, CheckedNumel(info.shape, 1).value * ElementBytes(info.dtype).value;
      if expected > U64_MAX then Err(TooManyBytes)
      else if length != expected then Err(WrongLength)
      else if dataBase + info.begin > U64_MAX then Err(OffsetTooLarge)
      else if SaturatingEnd(dataBase + info.begin, length) > fileLength then Err(PastEnd)
      else Ok(Entry(info.key, info.shape, info.dtype, dataBase + info.begin, length))
  }

  function PlacedAll(infos: seq<Info>, dataBase: nat, fileLength: nat, lim: Limits): (r: Result<seq<Entry>, Error>)
    ensures r.Ok? ==> |r.value| == |infos| && forall i :: 0 <= i < |infos| ==>
      Placed(infos[i], dataBase, fileLength, lim) == Ok(r.value[i])
  {
    if infos == [] then Ok([])
    else
      var before :- PlacedAll(infos[..|infos| - 1], dataBase, fileLength, lim);
      var last :- Placed(infos[|infos| - 1], dataBase, fileLength, lim);
      Ok(before + [last])
  }

  lemma {:induction false} ErrorStays(infos: seq<Info>, i: nat, dataBase: nat, fileLength: nat, lim: Limits)
    requires i <= |infos| && PlacedAll(infos[..i], dataBase, fileLength, lim).Err?
    ensures PlacedAll(infos, dataBase, fileLength, lim) == PlacedAll(infos[..i], dataBase, fileLength, lim)
  {
    if i == |infos| {
      assert infos[..i] == infos;
    } else {
      var n := |infos| - 1;
      assert infos[..n][..i] == infos[..i];
      ErrorStays(infos[..n], i, dataBase, fileLength, lim);
    }
  }

  // ---- the overlap check ----

  datatype Range = Range(start: nat, end: nat)

  function RangeOf(e: Entry): (r: Range)
    ensures r.start <= U64_MAX ==> r.start <= r.end
  {
    Range(e.offset, SaturatingEnd(e.offset, e.length))
  }

  function RangesOf(entries: seq<Entry>): seq<Range> {
    seq(|entries|, i requires 0 <= i < |entries| => RangeOf(entries[i]))
  }

  predicate ByStart(a: Range, b: Range) { a.start <= b.start }

  ghost predicate Forward(ranges: seq<Range>) { forall r :: r in ranges ==> r.start <= r.end }

  /** No range starts below the end of the one in front of it. */
  ghost predicate AdjacentApart(ranges: seq<Range>) {
    forall i :: 0 < i < |ranges| ==> ranges[i - 1].end <= ranges[i].start
  }

  /** What the check makes of two ranges, the first in front of the second in the header. */
  predicate PairApart(a: Range, b: Range) {
    if a.start <= b.start then a.end <= b.start else b.end <= a.start
  }

  ghost predicate AllPairsApart(ranges: seq<Range>) {
    forall i, j :: 0 <= i < j < |ranges| ==> PairApart(ranges[i], ranges[j])
  }

  /** Every range ends before all that follow it. */
  ghost predicate InRow(ranges: seq<Range>) {
    forall i, j :: 0 <= i < j < |ranges| ==> ranges[i].end <= ranges[j].start
  }

  lemma {:induction false} BeforeInRow(ranges: seq<Range>, i: nat, j: nat)
    requires Forward(ranges) && AdjacentApart(ranges) && i < j < |ranges|
    ensures ranges[i].end <= ranges[j].start
  {
    if i < j - 1 {
      BeforeInRow(ranges, i, j - 1);
      assert ranges[j - 1] in ranges;
    }
  }

  lemma AdjacentMeansInRow(ranges: seq<Range>)
    requires Forward(ranges) && AdjacentApart(ranges)
    ensures InRow(ranges)
  {
    forall i, j | 0 <= i < j < |ranges| ensures ranges[i].end <= ranges[j].start {
      BeforeInRow(ranges, i, j);
    }
  }

  lemma InRowCons(x: Range, s: seq<Range>)
    ensures InRow([x] + s) <==> InRow(s) && forall y :: y in s ==> x.end <= y.start
  {
    var t := [x] + s;
    if InRow(t) {
      forall i, j | 0 <= i < j < |s| ensures s[i].end <= s[j].start {
        assert t[i + 1].end <= t[j + 1].start;
      }
      forall y | y in s ensures x.end <= y.start {
        var k :| 0 <= k < |s| && s[k] == y;
        assert t[0].end <= t[k + 1].start;
      }
    }
  }

  lemma InsertElements(x: Range, s: seq<Range>)
    ensures forall y :: y in Insert(ByStart, x, s) <==> y == x || y in s
  {
    forall y ensures y in Insert(ByStart, x, s) <==> y == x || y in s {
      assert y in multiset(Insert(ByStart, x, s)) <==> y in multiset{x} + multiset(s);
    }
  }

  /** Inserting a range in front of those with its start or a later one. */
  lemma {:induction false} InsertInRow(x: Range, s: seq<Range>)
    requires Sorted(ByStart, s)
    ensures InRow(Insert(ByStart, x, s)) <==> InRow(s) && forall y :: y in s ==> PairApart(x, y)
  {
    if s == [] || ByStart(x, s[0]) {
      InRowCons(x, s);
      assert forall y :: y in s ==> x.start <= y.start;
    } else {
      InsertInRow(x, s[1..]);
      InRowCons(s[0], s[1..]);
      InRowCons(s[0], Insert(ByStart, x, s[1..]));
      InsertElements(x, s[1..]);
      assert s == [s[0]] + s[1..];
      assert forall y :: y in s <==> y == s[0] || y in s[1..];
    }
  }

  lemma SortElements(s: seq<Range>)
    ensures forall y :: y in Sort(ByStart, s) <==> y in s
  {
    forall y ensures y in Sort(ByStart, s) <==> y in s {
      assert y in multiset(Sort(ByStart, s)) <==> y in multiset(s);
    }
  }

  lemma AllPairsCons(x: Range, s: seq<Range>)
    ensures AllPairsApart([x] + s) <==> AllPairsApart(s) && forall y :: y in s ==> PairApart(x, y)
  {
    var t := [x] + s;
    if AllPairsApart(t) {
      forall i, j | 0 <= i < j < |s| ensures PairApart(s[i], s[j]) {
        assert PairApart(t[i + 1], t[j + 1]);
      }
      forall y | y in s ensures PairApart(x, y) {
        var k :| 0 <= k < |s| && s[k] == y;
        assert PairApart(t[0], t[k + 1]);
      }
    }
  }

  /** After the stable sort by start, the ranges stand in a row exactly when all pairs are apart. */
  lemma {:induction false} SortInRow(s: seq<Range>)
    ensures InRow(Sort(ByStart, s)) <==> AllPairsApart(s)
  {
    if s != [] {
      SortInRow(s[1..]);
      SortSorted(ByStart, s[1..]);
      InsertInRow(s[0], Sort(ByStart, s[1..]));
      SortElements(s[1..]);
      AllPairsCons(s[0], s[1..]);
      assert s == [s[0]] + s[1..];
    }
  }

  /** Sorting and comparing neighbours accepts exactly the ranges of which all pairs are apart. */
  lemma CheckIsPairwise(s: seq<Range>)
    requires Forward(s)
    ensures AdjacentApart(Sort(ByStart, s)) <==> AllPairsApart(s)
  {
    SortInRow(s);
    SortElements(s);
    if AdjacentApart(Sort(ByStart, s)) {
      AdjacentMeansInRow(Sort(ByStart, s));
    }
  }

  predicate Holds(r: Range, p: nat) { r.start <= p < r.end }

  ghost predicate Disjoint(a: Range, b: Range) {
    forall p: nat :: Holds(a, p) ==> !Holds(b, p)
  }

  /** Pairs that are apart share no byte; for ranges that are not empty that is the same. */
  lemma ApartMeansDisjoint(a: Range, b: Range)
    requires a.start <= a.end && b.start <= b.end
    ensures PairApart(a, b) ==> Disjoint(a, b)
    ensures a.start < a.end && b.start < b.end && Disjoint(a, b) ==> PairApart(a, b)
  {
    if a.start < a.end && b.start < b.end && Disjoint(a, b) {
      assert Holds(a, a.start) && !Holds(b, a.start);
      assert Holds(b, b.start) && !Holds(a, b.start);
    }
  }

  /** Acceptance means that no two ranges share a byte. */
  lemma AcceptedIsDisjoint(s: seq<Range>, i: nat, j: nat)
    requires Forward(s) && AdjacentApart(Sort(ByStart, s)) && i < j < |s|
    ensures Disjoint(s[i], s[j])
  {
    CheckIsPairwise(s);
    assert s[i] in s && s[j] in s;
    ApartMeansDisjoint(s[i], s[j]);
  }

  /** Without empty ranges a refusal means that two ranges share a byte. */
  lemma RefusalMeansOverlap(s: seq<Range>)
    requires (forall r :: r in s ==> r.start < r.end) && !AdjacentApart(Sort(ByStart, s))
    ensures exists i, j :: 0 <= i < j < |s| && !Disjoint(s[i], s[j])
  {
    CheckIsPairwise(s);
    var i, j :| 0 <= i < j < |s| && !PairApart(s[i], s[j]);
    assert s[i] in s && s[j] in s;
    ApartMeansDisjoint(s[i], s[j]);
  }

  // ---- the index ----

  predicate ByKey(a: Entry, b: Entry) { LexLe(a.key, b.key) }

  function TotalLength(entries: seq<Entry>): nat {
    if entries == [] then 0
    else SaturatingEnd(TotalLength(entries[..|entries| - 1]), entries[|entries| - 1].length)
  }

  ghost function Indexed(infos: seq<Info>, dataBase: nat, fileLength: nat, lim: Limits, maxTotal: nat)
    : Result<seq<Entry>, Error>
  {
    var entries :- PlacedAll(infos, dataBase, fileLength, lim);
    if |entries| > lim.maxTensorCount then Err(TooManyTensors)
    else if !AdjacentApart(Sort(ByStart, RangesOf(entries))) then Err(Overlap)
    else if TotalLength(entries) > maxTotal then Err(TooMuchData)
    else Ok(Sort(ByKey, entries))
  }

  method PlaceEntries(infos: seq<Info>, dataBase: nat, fileLength: nat, lim: Limits) returns (r: Result<seq<Entry>, Error>)
    ensures r == PlacedAll(infos, dataBase, fileLength, lim)
  {
    var entries := [];
    for i := 0 to |infos|
      invariant PlacedAll(infos[..i], dataBase, fileLength, lim) == Ok(entries)
    {
      assert infos[..i + 1][..i] == infos[..i];
      var placed := Placed(infos[i], dataBase, fileLength, lim);
      if placed.Err? {
        ErrorStays(infos, i + 1, dataBase, fileLength, lim);
        return Err(placed.error);
      }
      entries := entries + [placed.value];
    }
    assert infos[..|infos|] == infos;
    return Ok(entries);
  }

  method HasOverlap(entries: seq<Entry>) returns (overlap: bool)
    ensures overlap <==> !AdjacentApart(Sort(ByStart, RangesOf(entries)))
  {
    overlap := NeighboursOverlap(Sort(ByStart, RangesOf(entries)));
  }

  method NeighboursOverlap(ranges: seq<Range>) returns (overlap: bool)
    ensures overlap <==> !AdjacentApart(ranges)
  {
    for i := 0 to |ranges|
      invariant forall k :: 0 < k < i ==> ranges[k - 1].end <= ranges[k].start
    {
      if i > 0 && ranges[i].start < ranges[i - 1].end {
        return true;
      }
    }
    return false;
  }

  method TotalOf(entries: seq<Entry>) returns (total: nat)
    ensures total == TotalLength(entries)
  {
    total := 0;
    for i := 0 to |entries|
      invariant total == TotalLength(entries[..i])
    {
      assert entries[..i + 1][..i] == entries[..i];
      total := SaturatingEnd(total, entries[i].length);
    }
    assert entries[..|entries|] == entries;
  }

  method IndexHeader(infos: seq<Info>, dataBase: nat, fileLength: nat, lim: Limits, maxTotal: nat)
    returns (r: Result<seq<Entry>, Error>)
    ensures r == Indexed(infos, dataBase, fileLength, lim, maxTotal)
  {
    var placed := PlaceEntries(infos, dataBase, fileLength, lim);
    if placed.Err? {
      return Err(placed.error);
    }
    var entries := placed.value;
    if |entries| > lim.maxTensorCount {
      return Err(TooManyTensors);
    }
    var overlap := HasOverlap(entries);
    if overlap {
      return Err(Overlap);
    }
    var total := TotalOf(entries);
    if total > maxTotal {
      return Err(TooMuchData);
    }
    return Ok(Sort(ByKey, entries));
  }

  ghost predicate SharesNoByte(a: Entry, b: Entry) {
    Disjoint(Range(a.offset, a.offset + a.length), Range(b.offset, b.offset + b.length))
  }

  /** A placed entry lies inside the file; its range saturates nowhere. */
  lemma PlacedInside(infos: seq<Info>, dataBase: nat, fileLength: nat, lim: Limits, entries: seq<Entry>, i: nat)
    requires fileLength < U64_MAX && PlacedAll(infos, dataBase, fileLength, lim) == Ok(entries) && i < |entries|
    ensures entries[i].offset + entries[i].length <= fileLength
    ensures RangeOf(entries[i]) == Range(entries[i].offset, entries[i].offset + entries[i].length)
    ensures infos[i].begin != infos[i].end ==> entries[i].length > 0
  {
    assert Placed(infos[i], dataBase, fileLength, lim) == Ok(entries[i]);
  }

  lemma RangesForward(entries: seq<Entry>, fileLength: nat)
    requires forall i :: 0 <= i < |entries| ==>
      RangeOf(entries[i]) == Range(entries[i].offset, entries[i].offset + entries[i].length)
    ensures Forward(RangesOf(entries))
    ensures (forall i :: 0 <= i < |entries| ==> entries[i].length > 0) ==>
      forall r :: r in RangesOf(entries) ==> r.start < r.end
  {
  }

  lemma Accepted(infos: seq<Info>, dataBase: nat, fileLength: nat, lim: Limits, maxTotal: nat) returns (entries: seq<Entry>)
    requires Indexed(infos, dataBase, fileLength, lim, maxTotal).Ok?
    ensures PlacedAll(infos, dataBase, fileLength, lim) == Ok(entries) && AdjacentApart(Sort(ByStart, RangesOf(entries)))
    ensures multiset(Indexed(infos, dataBase, fileLength, lim, maxTotal).value) == multiset(entries)
  {
    entries := PlacedAll(infos, dataBase, fileLength, lim).value;
  }

  /** The entries of an accepted header lie inside the file and pairwise share no byte. */
  lemma AcceptedIndexIsSafe(infos: seq<Info>, dataBase: nat, fileLength: nat, lim: Limits, maxTotal: nat)
    returns (entries: seq<Entry>)
    requires fileLength < U64_MAX && Indexed(infos, dataBase, fileLength, lim, maxTotal).Ok?
    ensures multiset(Indexed(infos, dataBase, fileLength, lim, maxTotal).value) == multiset(entries)
    ensures |entries| == |infos| && forall i :: 0 <= i < |infos| ==>
      entries[i].key == infos[i].key && entries[i].offset + entries[i].length <= fileLength
    ensures forall i, j :: 0 <= i < j < |entries| ==> SharesNoByte(entries[i], entries[j])
  {
    entries := Accepted(infos, dataBase, fileLength, lim, maxTotal);
    forall i | 0 <= i < |entries|
      ensures entries[i].key == infos[i].key && entries[i].offset + entries[i].length <= fileLength
      ensures RangeOf(entries[i]) == Range(entries[i].offset, entries[i].offset + entries[i].length)
    {
      PlacedInside(infos, dataBase, fileLength, lim, entries, i);
      assert Placed(infos[i], dataBase, fileLength, lim) == Ok(entries[i]);
    }
    RangesForward(entries, fileLength);
    forall i, j | 0 <= i < j < |entries| ensures SharesNoByte(entries[i], entries[j]) {
      AcceptedIsDisjoint(RangesOf(entries), i, j);
    }
  }

  lemma Overlapping(infos: seq<Info>, dataBase: nat, fileLength: nat, lim: Limits, maxTotal: nat)
    returns (entries: seq<Entry>)
    requires Indexed(infos, dataBase, fileLength, lim, maxTotal) == Err(Overlap)
    ensures PlacedAll(infos, dataBase, fileLength, lim) == Ok(entries) && !AdjacentApart(Sort(ByStart, RangesOf(entries)))
  {
    PlacedErrors(infos, dataBase, fileLength, lim);
    entries := PlacedAll(infos, dataBase, fileLength, lim).value;
  }

  /** When no tensor is empty, the overlap error is given only if two tensors share a byte. */
  lemma OverlapIsReal(infos: seq<Info>, dataBase: nat, fileLength: nat, lim: Limits, maxTotal: nat)
    returns (entries: seq<Entry>)
    requires fileLength < U64_MAX && Indexed(infos, dataBase, fileLength, lim, maxTotal) == Err(Overlap)
    requires forall i :: 0 <= i < |infos| ==> infos[i].begin != infos[i].end
    ensures PlacedAll(infos, dataBase, fileLength, lim) == Ok(entries)
    ensures exists i, j :: 0 <= i < j < |entries| && !SharesNoByte(entries[i], entries[j])
  {
    entries := Overlapping(infos, dataBase, fileLength, lim, maxTotal);
    forall i | 0 <= i < |entries| ensures IsFull(entries[i]) {
      PlacedInside(infos, dataBase, fileLength, lim, entries, i);
    }
    RefusedShares(entries);
  }

  predicate IsFull(e: Entry) { e.length > 0 && RangeOf(e) == Range(e.offset, e.offset + e.length) }

  lemma FullRanges(entries: seq<Entry>)
    requires forall i :: 0 <= i < |entries| ==> IsFull(entries[i])
    ensures forall r :: r in RangesOf(entries) ==> r.start < r.end
  {
    forall r | r in RangesOf(entries) ensures r.start < r.end {
      var i :| 0 <= i < |entries| && RangesOf(entries)[i] == r;
      assert IsFull(entries[i]);
    }
  }

  lemma RefusedShares(entries: seq<Entry>)
    requires !AdjacentApart(Sort(ByStart, RangesOf(entries)))
    requires forall i :: 0 <= i < |entries| ==> IsFull(entries[i])
    ensures exists i, j :: 0 <= i < j < |entries| && !SharesNoByte(entries[i], entries[j])
  {
    FullRanges(entries);
    RefusalMeansOverlap(RangesOf(entries));
    var i, j :| 0 <= i < j < |RangesOf(entries)| && !Disjoint(RangesOf(entries)[i], RangesOf(entries)[j]);
    assert IsFull(entries[i]) && IsFull(entries[j]);
    NotDisjointShares(entries[i], entries[j]);
  }

  lemma NotDisjointShares(a: Entry, b: Entry)
    requires IsFull(a) && IsFull(b) && !Disjoint(RangeOf(a), RangeOf(b))
    ensures !SharesNoByte(a, b)
  {
  }

  /** What the check refuses of an entry and a later one: a shared byte, an empty one strictly inside the other, or an
      empty one at the start of the other and behind it in the header. */
  ghost predicate Conflict(a: Entry, b: Entry) {
    || !SharesNoByte(a, b)
    || (a.length == 0 && b.offset < a.offset < b.offset + b.length)
    || (b.length == 0 && a.offset < b.offset < a.offset + a.length)
    || (b.length == 0 && a.length > 0 && a.offset == b.offset)
  }

  lemma ConflictIsNotApart(a: Entry, b: Entry)
    ensures Conflict(a, b)
       <==> !PairApart(Range(a.offset, a.offset + a.length), Range(b.offset, b.offset + b.length))
  {
    ApartMeansDisjoint(Range(a.offset, a.offset + a.length), Range(b.offset, b.offset + b.length));
  }

  lemma ConflictsAreNotApart(entries: seq<Entry>)
    requires forall i :: 0 <= i < |entries| ==>
      RangeOf(entries[i]) == Range(entries[i].offset, entries[i].offset + entries[i].length)
    ensures AllPairsApart(RangesOf(entries))
       <==> forall i, j :: 0 <= i < j < |entries| ==> !Conflict(entries[i], entries[j])
  {
    var ranges := RangesOf(entries);
    forall i, j | 0 <= i < j < |entries| ensures Conflict(entries[i], entries[j]) <==> !PairApart(ranges[i], ranges[j]) {
      ConflictIsNotApart(entries[i], entries[j]);
    }
  }

  lemma OverlapIsNotApart(infos: seq<Info>, dataBase: nat, fileLength: nat, lim: Limits, maxTotal: nat, entries: seq<Entry>)
    requires PlacedAll(infos, dataBase, fileLength, lim) == Ok(entries) && |entries| <= lim.maxTensorCount
    ensures Indexed(infos, dataBase, fileLength, lim, maxTotal) == Err(Overlap)
       <==> !AdjacentApart(Sort(ByStart, RangesOf(entries)))
  {
  }

  /** Of placed entries within the limit, the overlap error is given exactly when two of them conflict. */
  lemma OverlapIff(infos: seq<Info>, dataBase: nat, fileLength: nat, lim: Limits, maxTotal: nat, entries: seq<Entry>)
    requires fileLength < U64_MAX && PlacedAll(infos, dataBase, fileLength, lim) == Ok(entries)
    requires |entries| <= lim.maxTensorCount
    ensures Indexed(infos, dataBase, fileLength, lim, maxTotal) == Err(Overlap)
       <==> exists i, j :: 0 <= i < j < |entries| && Conflict(entries[i], entries[j])
  {
    forall i | 0 <= i < |entries|
      ensures RangeOf(entries[i]) == Range(entries[i].offset, entries[i].offset + entries[i].length)
    {
      PlacedInside(infos, dataBase, fileLength, lim, entries, i);
    }
    OverlapIsNotApart(infos, dataBase, fileLength, lim, maxTotal, entries);
    RangesForward(entries, fileLength);
    CheckIsPairwise(RangesOf(entries));
    ConflictsAreNotApart(entries);
  }

  // ---- an empty tensor can be refused although nothing overlaps, depending on the order ----

  const EXAMPLE_LIMITS := Limits(10, 10, 10, 10, 10)

  function Full(key: string): Info { Info(key, "F32", [1], 0, 4) }
  function Empty(key: string): Info { Info(key, "F32", [0], 0, 0) }

  lemma ExamplePlaced(key: string)
    requires |Utf8.Encode(key)| <= 10
    ensures Placed(Full(key), 100, 104, EXAMPLE_LIMITS) == Ok(Entry(key, [1], "F32", 100, 4))
    ensures Placed(Empty(key), 100, 104, EXAMPLE_LIMITS) == Ok(Entry(key, [0], "F32", 100, 0))
  {
    assert CheckedNumel([1], 1) == Some(1) && CheckedNumel([0], 1) == Some(0);
    assert [1][0] in [1] && [0][0] in [0];
  }

  lemma PlacedOneMore(infos: seq<Info>, info: Info, dataBase: nat, fileLength: nat, lim: Limits, entries: seq<Entry>,
                      e: Entry)
    requires PlacedAll(infos, dataBase, fileLength, lim) == Ok(entries) && Placed(info, dataBase, fileLength, lim) == Ok(e)
    ensures PlacedAll(infos + [info], dataBase, fileLength, lim) == Ok(entries + [e])
  {
    assert (infos + [info])[..|infos|] == infos;
  }

  lemma PlacedTwo(a: Info, b: Info, x: Entry, y: Entry)
    requires Placed(a, 100, 104, EXAMPLE_LIMITS) == Ok(x) && Placed(b, 100, 104, EXAMPLE_LIMITS) == Ok(y)
    ensures PlacedAll([a, b], 100, 104, EXAMPLE_LIMITS) == Ok([x, y])
  {
    PlacedOneMore([], a, 100, 104, EXAMPLE_LIMITS, [], x);
    PlacedOneMore([] + [a], b, 100, 104, EXAMPLE_LIMITS, [] + [x], y);
    assert [] + [a] + [b] == [a, b] && [] + [x] + [y] == [x, y];
  }

  lemma OverlapOfTwo(infos: seq<Info>, x: Entry, y: Entry)
    requires PlacedAll(infos, 100, 104, EXAMPLE_LIMITS) == Ok([x, y])
    ensures Indexed(infos, 100, 104, EXAMPLE_LIMITS, 1000) == Err(Overlap) <==> Conflict(x, y)
  {
    OverlapIff(infos, 100, 104, EXAMPLE_LIMITS, 1000, [x, y]);
    assert Conflict([x, y][0], [x, y][1]) <==> Conflict(x, y);
  }

  /** An empty tensor behind a full one with the same start is refused, although no byte is shared. */
  lemma EmptyTensorRefused()
    ensures Indexed([Full("a"), Empty("b")], 100, 104, EXAMPLE_LIMITS, 1000) == Err(Overlap)
    ensures SharesNoByte(Entry("a", [1], "F32", 100, 4), Entry("b", [0], "F32", 100, 0))
  {
    var x, y := Entry("a", [1], "F32", 100, 4), Entry("b", [0], "F32", 100, 0);
    ExamplePlaced("a");
    ExamplePlaced("b");
    PlacedTwo(Full("a"), Empty("b"), x, y);
    OverlapOfTwo([Full("a"), Empty("b")], x, y);
  }

  /** In front of it, the same empty tensor is no overlap. */
  lemma EmptyTensorAccepted()
    ensures Indexed([Empty("a"), Full("b")], 100, 104, EXAMPLE_LIMITS, 1000) != Err(Overlap)
  {
    var x, y := Entry("a", [0], "F32", 100, 0), Entry("b", [1], "F32", 100, 4);
    ExamplePlaced("a");
    ExamplePlaced("b");
    PlacedTwo(Empty("a"), Full("b"), x, y);
    OverlapOfTwo([Empty("a"), Full("b")], x, y);
  }

  lemma {:induction false} PlacedErrors(infos: seq<Info>, dataBase: nat, fileLength: nat, lim: Limits)
    ensures PlacedAll(infos, dataBase, fileLength, lim) != Err(Overlap)
  {
    if infos != [] {
      PlacedErrors(infos[..|infos| - 1], dataBase, fileLength, lim);
    }
  }
}
