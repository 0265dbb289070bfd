/** Affine quantization to four bits, eight codes in a word, with a scale and a bias for each group of a row. */
module AffineU4 {
  import opened Rounding
  import opened Sequences

  /** A code of four bits, as a word. */
  type code4 = w: bv32 | w < 16

  const MIN_SCALE := 0.0000001

  function GroupScale(group: seq<real>): (s: real)
    requires group != []
    ensures s >= MIN_SCALE && Greatest(group) - Least(group) <= 15.0 * s
  {
    var s := (Greatest(group) - Least(group)) / 15.0;
    if s < MIN_SCALE then MIN_SCALE else s
  }

  function Ratio(x: real, scale: real): real
    requires scale > 0.0
  {
    x / scale
  }

  function Level(scale: real, bias: real, x: real): int
    requires scale > 0.0
  {
    Round(Ratio(x - bias, scale))
  }

  function Quant(scale: real, bias: real, x: real): int
    requires scale > 0.0
  {
    Clamp(Level(scale, bias, x), 0, 15)
  }

  function ToCode(n: nat): code4
    requires n < 16
  {
    CodeFits(n);
    n as bv32
  }

  lemma CodeFits(n: nat)
    requires n < 16
    ensures n as bv32 < 16 && (n as bv32) as int == n
  {
  }

  function Code(scale: real, bias: real): real -> code4
    requires scale > 0.0
  {
    x => ToCode(Quant(scale, bias, x))
  }

  function Value(scale: real, bias: real): code4 -> real { n => Steps(n as int, scale) + bias }

  function Through(scale: real, bias: real): real -> real
    requires scale > 0.0
  {
    x => Steps(Quant(scale, bias, x), scale) + bias
  }

  // ---- words ----

  /** Four times the lane: how far it is shifted. */
  function Shift(lane: nat): bv8
    requires lane < 8
  {
    4 * lane as bv8
  }

  function LaneOfWord(word: bv32, lane: nat): code4
    requires lane < 8
  {
    ShiftBound(lane);
    NibbleAt(word, Shift(lane))
  }

  lemma ShiftBound(lane: nat)
    requires lane < 8
    ensures Shift(lane) <= 28
  {
  }

  function NibbleAt(word: bv32, s: bv8): code4
    requires s <= 28
  {
    (word >> s) & 15
  }

  lemma SetReads(word: bv32, q: bv32, s: bv8)
    requires s <= 28 && q < 16 && word >> s == 0
    ensures NibbleAt(word | (q << s), s) == q
  {
  }

  lemma AboveStaysClear(word: bv32, q: bv32, s: bv8)
    requires s <= 24 && q < 16 && word >> s == 0
    ensures (word | (q << s)) >> (s + 4) == 0
  {
  }

  lemma SetKeeps(word: bv32, q: bv32, s: bv8, t: bv8)
    requires t + 4 <= s <= 28 && t < s
    ensures NibbleAt(word | (q << s), t) == NibbleAt(word, t)
  {
  }

  /** The lanes from here on are still zero. */
  predicate ClearFrom(word: bv32, lane: nat) {
    lane < 8 ==> word >> Shift(lane) == 0
  }

  lemma ShiftsStep(lane: nat)
    requires lane < 7
    ensures Shift(lane) <= 24 && Shift(lane + 1) == Shift(lane) + 4
  {
  }

  lemma ShiftsApart(lane: nat, j: nat)
    requires j < lane < 8
    ensures Shift(j) < Shift(lane) <= 28 && Shift(j) + 4 <= Shift(lane)
  {
  }

  lemma LaneKept(word: bv32, q: bv32, lane: nat, j: nat)
    requires j < lane < 8
    ensures LaneOfWord(word | (q << Shift(lane)), j) == LaneOfWord(word, j)
  {
    ShiftsApart(lane, j);
    SetKeeps(word, q, Shift(lane), Shift(j));
  }

  method PackWord(code: real -> code4, lanes: seq<real>) returns (word: bv32)
    requires |lanes| == 8
    ensures forall j :: 0 <= j < 8 ==> LaneOfWord(word, j) == code(lanes[j])
  {
    word := 0;
    for lane := 0 to 8
      invariant forall j :: 0 <= j < lane ==> LaneOfWord(word, j) == code(lanes[j])
      invariant ClearFrom(word, lane)
    {
      var quantized: bv32 := code(lanes[lane]);
      forall j | 0 <= j < lane ensures LaneOfWord(word | (quantized << Shift(lane)), j) == LaneOfWord(word, j) {
        LaneKept(word, quantized, lane, j);
      }
      ShiftBound(lane);
      SetReads(word, quantized, Shift(lane));
      if lane < 7 {
        ShiftsStep(lane);
        AboveStaysClear(word, quantized, Shift(lane));
      }
      word := word | (quantized << Shift(lane));
    }
  }

  // ---- groups ----

  /** The words hold the codes of the group, eight in each, lowest lane first. */
  ghost predicate PacksGroup(code: real -> code4, group: seq<real>, words: seq<bv32>) {
    && |group| == 8 * |words|
    && forall k :: 0 <= k < |group| ==> LaneOfWord(words[k / 8], k % 8) == code(group[k])
  }

  function ReadGroup(value: code4 -> real, words: seq<bv32>): seq<real> {
    seq(8 * |words|, k requires 0 <= k < 8 * |words| => value(LaneOfWord(words[k / 8], k % 8)))
  }

  function Mapped(f: real -> real, group: seq<real>): seq<real> {
    seq(|group|, k requires 0 <= k < |group| => f(group[k]))
  }

  lemma ReadOfPacked(code: real -> code4, value: code4 -> real, f: real -> real, group: seq<real>, words: seq<bv32>)
    requires PacksGroup(code, group, words)
    requires forall k :: 0 <= k < |group| ==> value(code(group[k])) == f(group[k])
    ensures ReadGroup(value, words) == Mapped(f, group)
  {
  }

  method PackGroup(code: real -> code4, group: seq<real>) returns (words: seq<bv32>)
    requires |group| % 8 == 0
    ensures PacksGroup(code, group, words)
  {
    words := [];
    for i := 0 to |group| / 8
      invariant |words| == i && PacksGroup(code, group[..8 * i], words)
    {
      var lanes := group[8 * i..8 * i + 8];
      var word := PackWord(code, lanes);
      WordAppended(code, group[..8 * i], words, lanes, word);
      assert group[..8 * i] + lanes == group[..8 * (i + 1)];
      words := words + [word];
    }
    assert group[..|group|] == group;
  }

  lemma WordAppended(code: real -> code4, group: seq<real>, words: seq<bv32>, lanes: seq<real>, word: bv32)
    requires PacksGroup(code, group, words) && |lanes| == 8
    requires forall j :: 0 <= j < 8 ==> LaneOfWord(word, j) == code(lanes[j])
    ensures PacksGroup(code, group + lanes, words + [word])
  {
    forall k | 0 <= k < |group| + 8
      ensures LaneOfWord((words + [word])[k / 8], k % 8) == code((group + lanes)[k])
    {
      if k >= |group| {
        assert k / 8 == |words| && k % 8 == k - |group|;
      }
    }
  }

  // ---- the whole matrix ----

  ghost predicate EncodesGroup(group: seq<real>, words: seq<bv32>, scale: real, bias: real) {
    && group != [] && scale == GroupScale(group) && bias == Least(group)
    && PacksGroup(Code(scale, bias), group, words)
  }

  /** Each group has n words, a scale and a bias, one group after the other. */
  ghost predicate Encodes(groups: seq<seq<real>>, n: nat, packed: seq<bv32>, scales: seq<real>, biases: seq<real>) {
    if groups == [] then packed == [] && scales == [] && biases == []
    else
      var g := |groups| - 1;
      && |scales| == |groups| && |biases| == |groups| && n <= |packed|
      && EncodesGroup(groups[g], packed[|packed| - n..], scales[g], biases[g])
      && Encodes(groups[..g], n, packed[..|packed| - n], scales[..g], biases[..g])
  }

  /** Reading the packed matrix back. */
  function Dequant(n: nat, packed: seq<bv32>, scales: seq<real>, biases: seq<real>): seq<real>
    requires |biases| == |scales|
    decreases |scales|
  {
    if scales == [] || |packed| < n then []
    else
      var g := |scales| - 1;
      Dequant(n, packed[..|packed| - n], scales[..g], biases[..g])
      + ReadGroup(Value(scales[g], biases[g]), packed[|packed| - n..])
  }

  function GroupsOf(row: seq<real>, groupSize: nat): seq<seq<real>>
    requires groupSize > 0
  {
    Chunks(row, groupSize)
  }

  function RowGroups(groupSize: nat): seq<real> -> seq<seq<real>>
    requires groupSize > 0
  {
    (row: seq<real>) => GroupsOf(row, groupSize)
  }

  function AllGroups(values: seq<real>, columns: nat, groupSize: nat): seq<seq<real>>
    requires columns > 0 && groupSize > 0
  {
    FlatMap(RowGroups(groupSize), Chunks(values, columns))
  }

  lemma GroupAppended(groups: seq<seq<real>>, n: nat, packed: seq<bv32>, scales: seq<real>, biases: seq<real>,
                      group: seq<real>, words: seq<bv32>, scale: real, bias: real)
    requires Encodes(groups, n, packed, scales, biases) && |words| == n && EncodesGroup(group, words, scale, bias)
    ensures Encodes(groups + [group], n, packed + words, scales + [scale], biases + [bias])
  {
    assert (groups + [group])[..|groups|] == groups;
    assert (scales + [scale])[..|scales|] == scales && (biases + [bias])[..|biases|] == biases;
    assert (packed + words)[..|packed|] == packed && (packed + words)[|packed|..] == words;
  }

  method QuantizeAffineU4(values: seq<real>, rows: nat, columns: nat, groupSize: nat)
    returns (packed: seq<bv32>, scales: seq<real>, biases: seq<real>)
    requires |values| == rows * columns && columns > 0
    requires groupSize > 0 && columns % groupSize == 0 && groupSize % 8 == 0
    ensures Encodes(AllGroups(values, columns, groupSize), groupSize / 8, packed, scales, biases)
  {
    packed, scales, biases := [], [], [];
    var all := Chunks(values, columns);
    ghost var one := RowGroups(groupSize);
    for r := 0 to |all|
      invariant Encodes(FlatMap(one, all[..r]), groupSize / 8, packed, scales, biases)
    {
      FlatMapStep(one, all, r);
      packed, scales, biases :=
        QuantizeRow(FlatMap(one, all[..r]), all[r], groupSize, packed, scales, biases);
    }
    assert all[..|all|] == all;
  }

  method QuantizeGroup(group: seq<real>) returns (words: seq<bv32>, scale: real, min: real)
    requires group != [] && |group| % 8 == 0
    ensures |words| == |group| / 8 && EncodesGroup(group, words, scale, min)
  {
    var max;
    min, max := FindExtremes(group);
    scale := (max - min) / 15.0;
    if scale < MIN_SCALE {
      scale := MIN_SCALE;
    }
    words := PackGroup(Code(scale, min), group);
  }

  lemma Regroup(before: seq<seq<real>>, groups: seq<seq<real>>, g: nat)
    requires g < |groups|
    ensures before + groups[..g + 1] == before + groups[..g] + [groups[g]]
  {
  }

  method QuantizeRow(ghost before: seq<seq<real>>, row: seq<real>, groupSize: nat, packed: seq<bv32>, scales: seq<real>,
                     biases: seq<real>) returns (packed': seq<bv32>, scales': seq<real>, biases': seq<real>)
    requires groupSize > 0 && groupSize % 8 == 0
    requires Encodes(before, groupSize / 8, packed, scales, biases)
    ensures Encodes(before + GroupsOf(row, groupSize), groupSize / 8, packed', scales', biases')
  {
    packed', scales', biases' := packed, scales, biases;
    var groups := GroupsOf(row, groupSize);
    assert before + groups[..0] == before;
    for g := 0 to |groups|
      invariant Encodes(before + groups[..g], groupSize / 8, packed', scales', biases')
    {
      var words, scale, min := QuantizeGroup(groups[g]);
      GroupAppended(before + groups[..g], groupSize / 8, packed', scales', biases', groups[g], words, scale, min);
      Regroup(before, groups, g);
      packed', scales', biases' := packed' + words, scales' + [scale], biases' + [min];
    }
    assert groups[..|groups|] == groups;
  }

  // ---- the reference ----

  function ReferenceGroup(group: seq<real>): seq<real> {
    if group == [] then [] else Mapped(Through(GroupScale(group), Least(group)), group)
  }

  const GROUP: nat := 64

  method AffineU4RoundTrip(values: seq<real>, columns: nat) returns (output: seq<real>)
    requires columns > 0 && columns % GROUP == 0
    ensures output == FlatMap(ReferenceGroup, AllGroups(values, columns, GROUP))
  {
    output := [];
    var rows := Chunks(values, columns);
    ghost var one := RowGroups(GROUP);
    for r := 0 to |rows|
      invariant output == FlatMap(ReferenceGroup, FlatMap(one, rows[..r]))
    {
      FlatMapStep(one, rows, r);
      FlatMapAppend(ReferenceGroup, FlatMap(one, rows[..r]), GroupsOf(rows[r], GROUP));
      var lanes := RoundTripRow(rows[r]);
      output := output + lanes;
    }
    assert rows[..|rows|] == rows;
  }

  method RoundTripRow(row: seq<real>) returns (output: seq<real>)
    ensures output == FlatMap(ReferenceGroup, GroupsOf(row, GROUP))
  {
    output := [];
    var groups := GroupsOf(row, GROUP);
    for g := 0 to |groups|
      invariant output == FlatMap(ReferenceGroup, groups[..g])
    {
      FlatMapStep(ReferenceGroup, groups, g);
      var min, max := FindExtremes(groups[g]);
      var scale := (max - min) / 15.0;
      if scale < MIN_SCALE {
        scale := MIN_SCALE;
      }
      output := output + Mapped(Through(scale, min), groups[g]);
    }
    assert groups[..|groups|] == groups;
  }

  lemma ReadOfGroup(group: seq<real>, words: seq<bv32>, scale: real, bias: real)
    requires EncodesGroup(group, words, scale, bias)
    ensures ReadGroup(Value(scale, bias), words) == ReferenceGroup(group)
  {
    forall k | 0 <= k < |group|
      ensures Value(scale, bias)(Code(scale, bias)(group[k])) == Through(scale, bias)(group[k])
    {
      CodeFits(Quant(scale, bias, group[k]));
    }
    ReadOfPacked(Code(scale, bias), Value(scale, bias), Through(scale, bias), group, words);
  }

  /** Reading the packed words back with their scales and biases is the independent reference round trip. */
  lemma {:induction false} DequantIsReference(groups: seq<seq<real>>, n: nat, packed: seq<bv32>, scales: seq<real>,
                                              biases: seq<real>)
    requires |biases| == |scales| && Encodes(groups, n, packed, scales, biases)
    ensures Dequant(n, packed, scales, biases) == FlatMap(ReferenceGroup, groups)
  {
    if groups != [] {
      var g := |groups| - 1;
      DequantIsReference(groups[..g], n, packed[..|packed| - n], scales[..g], biases[..g]);
      ReadOfGroup(groups[g], packed[|packed| - n..], scales[g], biases[g]);
      DequantLast(n, packed, scales, biases);
      FlatMapLast(ReferenceGroup, groups);
    }
  }

  lemma DequantLast(n: nat, packed: seq<bv32>, scales: seq<real>, biases: seq<real>)
    requires |biases| == |scales| > 0 && n <= |packed|
    ensures var g := |scales| - 1;
            Dequant(n, packed, scales, biases)
            == Dequant(n, packed[..|packed| - n], scales[..g], biases[..g])
               + ReadGroup(Value(scales[g], biases[g]), packed[|packed| - n..])
  {
  }

  // ---- the error ----

  lemma InGroup(group: seq<real>, k: nat)
    requires k < |group|
    ensures 0.0 <= group[k] - Least(group) <= 15.0 * GroupScale(group)
  {
    ExtremesBound(group);
    assert group[k] in group;
  }

  lemma RatioIsProduct(x: real, s: real)
    requires s > 0.0
    ensures Ratio(x, s) == x * Inverse(s)
  {
  }

  lemma RatioBounds(x: real, s: real)
    requires s > 0.0 && 0.0 <= x <= 15.0 * s
    ensures 0 <= Round(Ratio(x, s)) <= 15
  {
    RatioIsProduct(x, s);
    RoundBetween(x, s, 0, 15);
  }

  lemma RatioError(x: real, s: real)
    requires s > 0.0 && 0.0 <= x <= 15.0 * s
    ensures Near(Steps(Round(Ratio(x, s)), s), x, Spread(s, s, 15))
  {
    RatioIsProduct(x, s);
    QuantizationError(x, s, s, 15);
  }

  /** The clamp never changes a value. */
  lemma NeverClamps(group: seq<real>, k: nat)
    requires k < |group|
    ensures var s, m := GroupScale(group), Least(group);
            Quant(s, m, group[k]) == Level(s, m, group[k])
  {
    InGroup(group, k);
    RatioBounds(group[k] - Least(group), GroupScale(group));
  }

  /** The error of every element is at most half a step. */
  lemma GroupError(group: seq<real>, k: nat)
    requires k < |group|
    ensures Near(ReferenceGroup(group)[k], group[k], GroupScale(group) / 2.0)
  {
    InGroup(group, k);
    ScalarError(group[k], Least(group), GroupScale(group));
  }

  lemma ScalarError(x: real, bias: real, scale: real)
    requires scale > 0.0 && 0.0 <= x - bias <= 15.0 * scale
    ensures Near(Through(scale, bias)(x), x, scale / 2.0)
  {
    RatioBounds(x - bias, scale);
    RatioError(x - bias, scale);
    NearShifted(Steps(Level(scale, bias, x), scale), x, bias, bias, Spread(scale, scale, 15));
    NoSpread(scale);
  }

  lemma NoSpread(s: real)
    ensures Spread(s, s, 15) == s / 2.0
  {
  }
}
