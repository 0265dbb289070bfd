/** The logit trace format: what a header must say, and how rows are laid out in the logits file. */
module LogitTrace {
  import opened Bytes
  import opened Wrappers
  import opened Sequences
  import opened Maximum

  // ---- 32-bit floats, as bit patterns ----

  newtype f32 = x: int | 0 <= x < 0x1_0000_0000

  predicate Finite(v: f32) { v as int / 0x80_0000 % 256 != 255 }

  /** The order of the finite values; both zeros are the same. */
  function Order(v: f32): int {
    if v as int < 0x8000_0000 then v as int else 0x8000_0000 - v as int
  }

  predicate AllFinite(values: seq<f32>) { forall v :: v in values ==> Finite(v) }

  function Orders(values: seq<f32>): seq<real> {
    seq(|values|, i requires 0 <= i < |values| => Order(values[i]) as real)
  }

  function ArgmaxOf(values: seq<f32>): nat { FirstMax(Orders(values)) }

  const NEG_INFINITY: f32 := 0xFF80_0000

  predicate Nan(v: f32) { !Finite(v) && v as int % 0x80_0000 != 0 }

  /** The comparison of floats: false as soon as one side is not a number. */
  predicate Greater(a: f32, b: f32) { !Nan(a) && !Nan(b) && Order(a) > Order(b) }

  /** Greater than minus infinity, nothing is greater, and everything before it is less or not a number. */
  ghost predicate IsFirstGreatest(values: seq<f32>, best: nat) {
    && best < |values| && Greater(values[best], NEG_INFINITY)
    && (forall j :: 0 <= j < |values| ==> !Greater(values[j], values[best]))
    && (forall j :: 0 <= j < best ==> Nan(values[j]) || Greater(values[best], values[j]))
  }

  ghost predicate NoneAbove(values: seq<f32>) {
    forall j :: 0 <= j < |values| ==> !Greater(values[j], NEG_INFINITY)
  }

  lemma FiniteIsAbove(v: f32)
    requires Finite(v)
    ensures Greater(v, NEG_INFINITY)
  {
  }

  lemma FirstGreatestIsArgmax(values: seq<f32>, best: nat)
    requires AllFinite(values) && (if values == [] then best == 0 else IsFirstGreatest(values, best))
    ensures best == ArgmaxOf(values)
  {
    forall j | 0 <= j < |values| ensures !Nan(values[j]) {
      assert values[j] in values;
    }
    ArgmaxIsUnique(Orders(values), best, ArgmaxOf(values));
  }

  ghost predicate BestSoFar(values: seq<f32>, best: nat, bestValue: f32) {
    if bestValue == NEG_INFINITY then best == 0 && NoneAbove(values)
    else IsFirstGreatest(values, best) && bestValue == values[best]
  }

  lemma BestStep(before: seq<f32>, v: f32, best: nat, bestValue: f32)
    requires BestSoFar(before, best, bestValue)
    ensures if Greater(v, bestValue) then BestSoFar(before + [v], |before|, v)
            else BestSoFar(before + [v], best, bestValue)
  {
    var after := before + [v];
    assert forall j :: 0 <= j < |before| ==> after[j] == before[j];
  }

  /** The loop over the values, which starts at minus infinity: a value that is not a number never wins. */
  method FindArgmax(values: seq<f32>) returns (best: nat)
    ensures IsFirstGreatest(values, best) || (best == 0 && NoneAbove(values))
    ensures AllFinite(values) ==> best == ArgmaxOf(values)
  {
    best := 0;
    var bestValue := NEG_INFINITY;
    for i := 0 to |values|
      invariant BestSoFar(values[..i], best, bestValue)
    {
      BestStep(values[..i], values[i], best, bestValue);
      assert values[..i + 1] == values[..i] + [values[i]];
      if Greater(values[i], bestValue) {
        best, bestValue := i, values[i];
      }
    }
    assert values[..|values|] == values;
    if AllFinite(values) {
      if values != [] {
        FiniteIsAbove(values[0]);
      }
      FirstGreatestIsArgmax(values, best);
    }
  }

  lemma ArgmaxInside(values: seq<f32>)
    requires values != []
    ensures ArgmaxOf(values) < |values|
  {
  }

  // ---- headers ----

  datatype Phase = Prefill | Decode

  datatype Row = Row(phase: Phase, position: nat, inputToken: nat, argmax: nat, forcedToken: Option<nat>)

  datatype Header = Header(format: string, version: nat, engine: string, sha256: string, vocabSize: nat, prompt: seq<nat>,
                           decode: seq<nat>, dtype: string, byteOrder: string, rows: seq<Row>, logitsFile: string)

  const FORMAT := "dyninfer.logit-trace"
  const VERSION := 1
  const LOGITS_FILE := "logits.f32le"

  predicate IsSpace(c: char) {
    c in [' ', '\U{0085}', '\U{00a0}', '\U{1680}', '\U{2028}', '\U{2029}', '\U{202f}', '\U{205f}', '\U{3000}']
    || '\t' <= c <= '\r' || '\U{2000}' <= c <= '\U{200a}'
  }

  predicate Blank(s: string) { forall c :: c in s ==> IsSpace(c) }

  predicate IsHexDigit(c: char) { '0' <= c <= '9' || 'a' <= c <= 'f' || 'A' <= c <= 'F' }

  predicate IsSha256(s: string) { |s| == 64 && forall c :: c in s ==> IsHexDigit(c) }

  /** Separators and "." segments behind a name. */
  predicate Trailing(s: string) {
    s == "" || (s[0] == '/' && (Trailing(s[1..])
                                || (|s| > 1 && s[1] == '.' && (|s| == 2 || s[2] == '/') && Trailing(s[2..]))))
  }

  function FirstSegment(s: string): string {
    if s == "" || s[0] == '/' then "" else [s[0]] + FirstSegment(s[1..])
  }

  lemma {:induction false} FirstSegmentIsPrefix(s: string)
    ensures FirstSegment(s) <= s
  {
    if s != "" && s[0] != '/' {
      FirstSegmentIsPrefix(s[1..]);
      assert s == [s[0]] + s[1..];
    }
  }

  /** The path has exactly one component, and that is neither a root, "." nor "..". */
  predicate PlainName(s: string) {
    FirstSegmentIsPrefix(s);
    FirstSegment(s) !in ["", ".", ".."] && Trailing(s[|FirstSegment(s)|..])
  }

  predicate InVocabulary(tokens: seq<nat>, vocabSize: nat) { forall t :: t in tokens ==> t < vocabSize }

  predicate TrajectoryOk(prompt: seq<nat>, decode: seq<nat>, vocabSize: nat) {
    prompt != [] && InVocabulary(prompt, vocabSize) && InVocabulary(decode, vocabSize)
  }

  /** Row 0 is the prefill at the last prompt token; row i feeds decode token i - 1 behind the prompt. */
  function ExpectedRow(prompt: seq<nat>, decode: seq<nat>, index: nat): Option<(Phase, nat, nat)> {
    if index == 0 then
      if prompt == [] then None else Some((Prefill, |prompt| - 1, prompt[|prompt| - 1]))
    else if index - 1 < |decode| then Some((Decode, |prompt| + index - 1, decode[index - 1]))
    else None
  }

  function Forced(decode: seq<nat>, index: nat): Option<nat> {
    if index < |decode| then Some(decode[index]) else None
  }

  predicate RowOk(h: Header, index: nat, row: Row) {
    && ExpectedRow(h.prompt, h.decode, index) == Some((row.phase, row.position, row.inputToken))
    && row.argmax < h.vocabSize && row.forcedToken == Forced(h.decode, index)
  }

  ghost predicate HeaderOk(h: Header) {
    && h.format == FORMAT && h.version == VERSION && !Blank(h.engine) && IsSha256(h.sha256) && h.vocabSize > 0
    && h.dtype == "f32" && h.byteOrder == "little" && PlainName(h.logitsFile)
    && TrajectoryOk(h.prompt, h.decode, h.vocabSize)
    && |h.rows| == |h.decode| + 1
    && forall i :: 0 <= i < |h.rows| ==> RowOk(h, i, h.rows[i])
  }

  // ---- the rows as a walk along the tokens ----

  function TokensOf(h: Header): seq<nat> { h.prompt + h.decode }

  /** The token behind a position, if there is one. */
  function NextToken(tokens: seq<nat>, position: nat): Option<nat> {
    if position + 1 < |tokens| then Some(tokens[position + 1]) else None
  }

  /** The row stands at its position of the prompt and the decode tokens, reads the token there, and is forced to
      the token behind it. */
  predicate StandsAt(h: Header, position: nat, row: Row) {
    && row.position == position < |TokensOf(h)| && row.inputToken == TokensOf(h)[position]
    && row.forcedToken == NextToken(TokensOf(h), position)
    && (row.phase == Prefill <==> position == |h.prompt| - 1) && row.argmax < h.vocabSize
  }

  /** One row for every position from the last prompt token to the end of the tokens. */
  ghost predicate WalksTokens(h: Header) {
    && h.prompt != [] && (forall t :: t in TokensOf(h) ==> t < h.vocabSize)
    && |h.prompt| - 1 + |h.rows| == |TokensOf(h)|
    && forall i :: 0 <= i < |h.rows| ==> StandsAt(h, |h.prompt| - 1 + i, h.rows[i])
  }

  /** What the fields say apart from trajectory and rows. */
  predicate FieldsOk(h: Header) {
    && h.format == FORMAT && h.version == VERSION && !Blank(h.engine) && IsSha256(h.sha256)
    && h.dtype == "f32" && h.byteOrder == "little" && PlainName(h.logitsFile)
  }

  lemma RowStands(h: Header, index: nat, row: Row)
    requires h.prompt != []
    ensures RowOk(h, index, row) <==> StandsAt(h, |h.prompt| - 1 + index, row)
  {
  }

  /** The checks, row by row with the index of a row, ask for a walk along the tokens. */
  lemma HeaderWalks(h: Header)
    ensures HeaderOk(h) <==> FieldsOk(h) && WalksTokens(h)
  {
    TokensInside(h);
    if h.prompt != [] {
      forall i | 0 <= i < |h.rows| ensures RowOk(h, i, h.rows[i]) <==> StandsAt(h, |h.prompt| - 1 + i, h.rows[i]) {
        RowStands(h, i, h.rows[i]);
      }
    }
  }

  lemma TokensInside(h: Header)
    ensures h.prompt != [] ==>
      (TrajectoryOk(h.prompt, h.decode, h.vocabSize) && h.vocabSize > 0 <==>
       forall t :: t in TokensOf(h) ==> t < h.vocabSize)
  {
    assert forall t :: t in TokensOf(h) <==> t in h.prompt || t in h.decode;
    if h.prompt != [] {
      assert h.prompt[0] in TokensOf(h);
    }
  }

  /** Each row is forced to the token the next row reads, one position on; the last row is forced to none. */
  lemma RowsChain(h: Header, i: nat)
    requires HeaderOk(h) && i < |h.rows|
    ensures i + 1 < |h.rows| ==> h.rows[i].forcedToken == Some(h.rows[i + 1].inputToken)
                                 && h.rows[i + 1].position == h.rows[i].position + 1
    ensures i + 1 == |h.rows| ==> h.rows[i].forcedToken == None
  {
    HeaderWalks(h);
    assert StandsAt(h, |h.prompt| - 1 + i, h.rows[i]);
    if i + 1 < |h.rows| {
      assert StandsAt(h, |h.prompt| - 1 + (i + 1), h.rows[i + 1]);
    }
  }

  method ValidateHeader(h: Header) returns (ok: bool)
    ensures ok <==> FieldsOk(h) && WalksTokens(h)
    ensures ok <==> HeaderOk(h)
  {
    HeaderWalks(h);
    if h.format != FORMAT || h.version != VERSION || Blank(h.engine) || !IsSha256(h.sha256) || h.vocabSize == 0
      || h.dtype != "f32" || h.byteOrder != "little" || !PlainName(h.logitsFile)
    {
      return false;
    }
    if !TrajectoryOk(h.prompt, h.decode, h.vocabSize) || |h.rows| != |h.decode| + 1 {
      return false;
    }
    for i := 0 to |h.rows|
      invariant forall k :: 0 <= k < i ==> RowOk(h, k, h.rows[k])
    {
      if !RowOk(h, i, h.rows[i]) {
        return false;
      }
    }
    return true;
  }

  /** The rows of a valid header are determined by the trajectory, up to the recorded maxima. */
  lemma HeaderDeterminesRows(h: Header, g: Header, i: nat)
    requires HeaderOk(h) && HeaderOk(g) && h.prompt == g.prompt && h.decode == g.decode && i < |h.rows|
    ensures |g.rows| == |h.rows| && g.rows[i] == h.rows[i].(argmax := g.rows[i].argmax)
  {
    assert RowOk(h, i, h.rows[i]) && RowOk(g, i, g.rows[i]);
  }

  // ---- the logits file ----

  function ValueBytes(v: f32): (b: seq<byte>)
    ensures |b| == 4
  {
    Le(v as int, 4)
  }

  function RowBytes(values: seq<f32>): seq<byte> { FlatMap(ValueBytes, values) }

  function FileBytes(rows: seq<seq<f32>>): seq<byte> { FlatMap(RowBytes, rows) }

  lemma {:induction false} RowBytesLength(values: seq<f32>)
    ensures |RowBytes(values)| == 4 * |values|
  {
    if values != [] {
      RowBytesLength(values[1..]);
    }
  }

  ghost predicate Wide(rows: seq<seq<f32>>, width: nat) { forall r :: r in rows ==> |r| == width }

  /** The bytes of a number of rows. */
  function SizeOf(rowCount: nat, rowBytes: nat): nat { rowCount * rowBytes }

  lemma SizeGrows(rowCount: nat, rowBytes: nat)
    ensures SizeOf(0, rowBytes) == 0 && SizeOf(rowCount + 1, rowBytes) == SizeOf(rowCount, rowBytes) + rowBytes
  {
  }

  lemma {:induction false} FileBytesLength(rows: seq<seq<f32>>, width: nat)
    requires Wide(rows, width)
    ensures |FileBytes(rows)| == SizeOf(|rows|, 4 * width)
  {
    if rows == [] {
      SizeGrows(0, 4 * width);
    } else {
      FileBytesLength(rows[1..], width);
      RowBytesLength(rows[0]);
      SizeGrows(|rows| - 1, 4 * width);
    }
  }

  function ValueOf(b: seq<byte>): f32
    requires |b| == 4
  {
    FromLeBound(b);
    PowersOf256();
    FromLe(b) as f32
  }

  /** The four-byte chunks as values. */
  function ValuesOf(b: seq<byte>): seq<f32> {
    if |b| < 4 then [] else [ValueOf(b[..4])] + ValuesOf(b[4..])
  }

  lemma {:induction false} ValuesOfRow(values: seq<f32>)
    ensures ValuesOf(RowBytes(values)) == values
  {
    if values != [] {
      var b := RowBytes(values);
      ValuesOfRow(values[1..]);
      PowersOf256();
      LeRoundTrip(values[0] as int, 4);
      assert b[..4] == ValueBytes(values[0]) && b[4..] == RowBytes(values[1..]);
    }
  }

  /** Row i stands behind the rows before it. */
  lemma RowAt(rows: seq<seq<f32>>, i: nat)
    requires i < |rows|
    ensures var start, end := |FileBytes(rows[..i])|, |FileBytes(rows[..i + 1])|;
            && start <= end <= |FileBytes(rows)| && FileBytes(rows)[start..end] == RowBytes(rows[i])
  {
    FlatMapStep(RowBytes, rows, i);
    FlatMapAppend(RowBytes, rows[..i + 1], rows[i + 1..]);
    assert rows == rows[..i + 1] + rows[i + 1..];
  }
}
