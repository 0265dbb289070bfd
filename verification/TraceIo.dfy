/** Writing and reading logit traces. */
module TraceIo {
  import opened Bytes
  import opened Wrappers
  import opened Sequences
  import opened LogitTrace

  /** A published trace: its header, already parsed, and the bytes of its logits file. */
  datatype Files = Files(header: Header, logits: seq<byte>)

  /** Rows, one after the other, are what the header says and what the file holds. */
  ghost predicate Holds(h: Header, rows: seq<seq<f32>>) {
    && Wide(rows, h.vocabSize) && |h.rows| == |rows|
    && forall i :: 0 <= i < |rows| ==>
      RowOk(h, i, h.rows[i]) && AllFinite(rows[i]) && h.rows[i].argmax == ArgmaxOf(rows[i])
  }

  /** The writer's file: the bytes of the rows accepted, and bytes left over from refused ones. */
  ghost predicate WrittenSoFar(h: Header, rows: seq<seq<f32>>, logits: seq<byte>, leftover: nat) {
    && Holds(h, rows)
    && |logits| == SizeOf(|rows|, 4 * h.vocabSize) + leftover
    && (leftover == 0 ==> logits == FileBytes(rows))
  }

  predicate RowFits(h: Header, phase: Phase, position: nat, inputToken: nat, values: seq<f32>) {
    |values| == h.vocabSize && ExpectedRow(h.prompt, h.decode, |h.rows|) == Some((phase, position, inputToken))
  }

  function NewRow(h: Header, phase: Phase, position: nat, inputToken: nat, values: seq<f32>): Row {
    Row(phase, position, inputToken, ArgmaxOf(values), Forced(h.decode, |h.rows|))
  }

  function WithRow(h: Header, row: Row): Header { h.(rows := h.rows + [row]) }

  lemma RowAdded(h: Header, rows: seq<seq<f32>>, row: Row, values: seq<f32>)
    requires Holds(h, rows) && |values| == h.vocabSize > 0 && AllFinite(values)
    requires RowOk(h, |rows|, row) && row.argmax == ArgmaxOf(values)
    ensures Holds(WithRow(h, row), rows + [values])
  {
    var g, all := WithRow(h, row), rows + [values];
    forall i | 0 <= i < |all|
      ensures RowOk(g, i, g.rows[i]) && AllFinite(all[i]) && g.rows[i].argmax == ArgmaxOf(all[i])
    {
      if i < |rows| {
        assert RowOk(h, i, h.rows[i]);
      }
    }
  }

  class TraceWriter {
    var header: Header
    var logits: seq<byte>
    ghost var written: seq<seq<f32>>
    ghost var leftover: nat

    ghost predicate Valid()
      reads this
    {
      && WrittenSoFar(header, written, logits, leftover)
      && header.format == FORMAT && header.version == VERSION && header.dtype == "f32" && header.byteOrder == "little"
      && header.logitsFile == LOGITS_FILE && IsSha256(header.sha256)
      && TrajectoryOk(header.prompt, header.decode, header.vocabSize)
    }

    constructor (engine: string, sha256: string, vocabSize: nat, prompt: seq<nat>, decode: seq<nat>)
      requires TrajectoryOk(prompt, decode, vocabSize) && IsSha256(sha256)
      ensures Valid() && written == [] && leftover == 0
      ensures header == Header(FORMAT, VERSION, engine, sha256, vocabSize, prompt, decode, "f32", "little", [], LOGITS_FILE)
    {
      header := Header(FORMAT, VERSION, engine, sha256, vocabSize, prompt, decode, "f32", "little", [], LOGITS_FILE);
      logits := [];
      written, leftover := [], 0;
      new;
      SizeGrows(0, 4 * vocabSize);
    }

    /** The checks of the trajectory and of the checksum refuse a writer. */
    static method Create(engine: string, sha256: string, vocabSize: nat, prompt: seq<nat>, decode: seq<nat>)
      returns (w: TraceWriter?)
      ensures w != null <==> TrajectoryOk(prompt, decode, vocabSize) && IsSha256(sha256)
      ensures w != null ==> fresh(w) && w.Valid() && w.written == [] && w.leftover == 0 && w.header.engine == engine
    {
      if !TrajectoryOk(prompt, decode, vocabSize) || !IsSha256(sha256) {
        return null;
      }
      w := new TraceWriter(engine, sha256, vocabSize, prompt, decode);
    }

    /** The values of a row, up to the first that is not finite or cannot be written. */
    method WriteValues(values: seq<f32>) returns (ok: bool, ghost ioFailed: bool, ghost extra: nat)
      modifies this`logits
      ensures ok ==> logits == old(logits) + RowBytes(values) && AllFinite(values)
      ensures !ok ==> |logits| == |old(logits)| + extra && old(logits) <= logits
      ensures !ok && !ioFailed ==>
                exists k :: 0 <= k < |values| && !Finite(values[k]) && AllFinite(values[..k]) && extra == 4 * k
    {
      ioFailed, extra := false, 0;
      var start := logits;
      for token := 0 to |values|
        invariant logits == start + RowBytes(values[..token]) && AllFinite(values[..token])
      {
        RowBytesLength(values[..token]);
        if !Finite(values[token]) {
          return false, false, 4 * token;
        }
        var bytes := ValueBytes(values[token]);
        var accepted: int := *;
        if 0 <= accepted < 4 {
          logits := logits + bytes[..accepted];
          return false, true, 4 * token + accepted;
        }
        FlatMapStep(ValueBytes, values, token);
        Associate(start, RowBytes(values[..token]), bytes);
        logits := logits + bytes;
      }
      assert values[..|values|] == values;
      return true, false, 0;
    }

    /** One row.  A refusal changes no row, but the values in front of a value that is not finite stay in the file. */
    method WriteRow(phase: Phase, position: nat, inputToken: nat, values: seq<f32>)
      returns (ok: bool, ghost ioFailed: bool)
      requires Valid()
      modifies this
      ensures Valid()
      ensures ok ==> RowFits(old(header), phase, position, inputToken, values) && AllFinite(values)
      ensures ok ==> header == WithRow(old(header), NewRow(old(header), phase, position, inputToken, values))
                     && written == old(written) + [values] && leftover == old(leftover)
      ensures !ok ==> header == old(header) && written == old(written) && leftover >= old(leftover)
      ensures !ok && !RowFits(old(header), phase, position, inputToken, values) ==> leftover == old(leftover)
      ensures !ok && !ioFailed && RowFits(old(header), phase, position, inputToken, values) ==>
                exists k :: 0 <= k < |values| && !Finite(values[k]) && AllFinite(values[..k])
                            && leftover == old(leftover) + 4 * k
    {
      ioFailed := false;
      if !RowFits(header, phase, position, inputToken, values) {
        return false, false;
      }
      ghost var before, extra := logits, 0;
      ok, ioFailed, extra := WriteValues(values);
      if ok {
        RowAccepted(header, written, before, leftover, phase, position, inputToken, values);
        header := WithRow(header, NewRow(header, phase, position, inputToken, values));
        written := written + [values];
      } else {
        RowRefused(header, written, before, leftover, logits, extra);
        leftover := leftover + extra;
      }
    }

    /** Publishing the trace. */
    method Finish() returns (r: Option<Files>, ghost ioFailed: bool)
      requires Valid()
      ensures r.Some? ==> r.value == Files(header, logits) && HeaderOk(header)
      ensures r.None? && !ioFailed ==> |header.rows| != |header.decode| + 1 || Blank(header.engine)
    {
      ioFailed := false;
      if |header.rows| != |header.decode| + 1 {
        return None, false;
      }
      CompleteHeader(header, written);
      var ok := ValidateHeader(header);
      if !ok {
        return None, false;
      }
      var published: bool := *;
      if !published {
        return None, true;
      }
      return Some(Files(header, logits)), false;
    }
  }

  lemma LogitsFileIsPlain()
    ensures PlainName(LOGITS_FILE)
  {
    WordIsPlain(LOGITS_FILE);
  }

  /** With all rows written only a blank engine name is in the way. */
  lemma CompleteHeader(h: Header, rows: seq<seq<f32>>)
    requires Holds(h, rows) && TrajectoryOk(h.prompt, h.decode, h.vocabSize) && |h.rows| == |h.decode| + 1
    requires h.format == FORMAT && h.version == VERSION && h.dtype == "f32" && h.byteOrder == "little"
    requires h.logitsFile == LOGITS_FILE && IsSha256(h.sha256)
    ensures HeaderOk(h) <==> !Blank(h.engine)
  {
    LogitsFileIsPlain();
    assert h.prompt[0] in h.prompt;
  }

  lemma WordIsPlain(s: string)
    requires |s| > 2 && '/' !in s
    ensures PlainName(s)
  {
    FirstSegmentWhole(s);
    assert s[|s|..] == "";
  }

  lemma {:induction false} FirstSegmentWhole(s: string)
    requires '/' !in s
    ensures FirstSegment(s) == s
  {
    if s != "" {
      FirstSegmentWhole(s[1..]);
      assert s == [s[0]] + s[1..];
    }
  }

  lemma RowRefused(h: Header, rows: seq<seq<f32>>, logits: seq<byte>, leftover: nat, logits': seq<byte>, extra: nat)
    requires WrittenSoFar(h, rows, logits, leftover) && |logits'| == |logits| + extra && (extra == 0 ==> logits' == logits)
    ensures WrittenSoFar(h, rows, logits', leftover + extra)
  {
  }

  lemma RowAccepted(h: Header, rows: seq<seq<f32>>, logits: seq<byte>, leftover: nat, phase: Phase, position: nat,
                    inputToken: nat, values: seq<f32>)
    requires WrittenSoFar(h, rows, logits, leftover) && TrajectoryOk(h.prompt, h.decode, h.vocabSize)
    requires RowFits(h, phase, position, inputToken, values) && AllFinite(values)
    ensures WrittenSoFar(WithRow(h, NewRow(h, phase, position, inputToken, values)), rows + [values],
                         logits + RowBytes(values), leftover)
  {
    NewRowOk(h, phase, position, inputToken, values);
    RowAdded(h, rows, NewRow(h, phase, position, inputToken, values), values);
    BytesAdded(rows, values, h.vocabSize);
  }

  lemma NewRowOk(h: Header, phase: Phase, position: nat, inputToken: nat, values: seq<f32>)
    requires TrajectoryOk(h.prompt, h.decode, h.vocabSize) && RowFits(h, phase, position, inputToken, values)
    ensures h.vocabSize > 0 && RowOk(h, |h.rows|, NewRow(h, phase, position, inputToken, values))
  {
    assert h.prompt[0] in h.prompt;
    ArgmaxInside(values);
  }

  lemma BytesAdded(rows: seq<seq<f32>>, values: seq<f32>, width: nat)
    requires |values| == width
    ensures |RowBytes(values)| == 4 * width
    ensures SizeOf(|rows| + 1, 4 * width) == SizeOf(|rows|, 4 * width) + 4 * width
    ensures FileBytes(rows + [values]) == FileBytes(rows) + RowBytes(values)
  {
    RowBytesLength(values);
    SizeGrows(|rows|, 4 * width);
    FlatMapAppend(RowBytes, rows, [values]);
    FlatMapOne(RowBytes, values);
  }

  // ---- reading ----

  /** What opening checks: the header, and the exact size of the file. */
  ghost predicate Openable(f: Files) {
    && HeaderOk(f.header)
    && SizeOf(|f.header.rows|, 4 * f.header.vocabSize) <= U64_MAX
    && |f.logits| == SizeOf(|f.header.rows|, 4 * f.header.vocabSize)
  }

  datatype ReadError = NoSuchRow | ShortRead | NotFinite | ArgmaxMismatch

  /** What reading the next row does at a position of the file: its result, the new position and the next row. */
  function NextRowAt(f: Files, pos: nat, nextRow: nat): (r: (Result<seq<f32>, ReadError>, nat, nat))
    requires pos <= |f.logits|
    ensures r.1 <= |f.logits|
  {
    if nextRow >= |f.header.rows| then (Err(NoSuchRow), pos, nextRow)
    else if pos + 4 * f.header.vocabSize > |f.logits| then (Err(ShortRead), |f.logits|, nextRow)
    else
      var end := pos + 4 * f.header.vocabSize;
      var values := ValuesOf(f.logits[pos..end]);
      if !AllFinite(values) then (Err(NotFinite), end, nextRow)
      else if ArgmaxOf(values) != f.header.rows[nextRow].argmax then (Err(ArgmaxMismatch), end, nextRow)
      else (Ok(values), end, nextRow + 1)
  }

  class TraceReader {
    const files: Files
    var pos: nat
    var nextRow: nat

    constructor (files: Files)
      ensures this.files == files && pos == 0 && nextRow == 0
    {
      this.files := files;
      pos, nextRow := 0, 0;
    }

    static method Open(files: Files) returns (reader: TraceReader?)
      ensures reader != null <==> Openable(files)
      ensures reader != null ==> fresh(reader) && reader.files == files && reader.pos == 0 && reader.nextRow == 0
    {
      var ok := ValidateHeader(files.header);
      if !ok {
        return null;
      }
      var values := |files.header.rows| * files.header.vocabSize;
      SizeInValues(|files.header.rows|, files.header.vocabSize);
      if values > U64_MAX || values * 4 > U64_MAX || |files.logits| != values * 4 {
        return null;
      }
      reader := new TraceReader(files);
    }

    method NextRow() returns (r: Result<seq<f32>, ReadError>)
      requires pos <= |files.logits|
      modifies this
      ensures pos <= |files.logits|
      ensures (r, pos, nextRow) == NextRowAt(files, old(pos), old(nextRow))
    {
      if nextRow >= |files.header.rows| {
        return Err(NoSuchRow);
      }
      if pos + 4 * files.header.vocabSize > |files.logits| {
        pos := |files.logits|;
        return Err(ShortRead);
      }
      var values := ValuesOf(files.logits[pos..pos + 4 * files.header.vocabSize]);
      pos := pos + 4 * files.header.vocabSize;
      if !AllFinite(values) {
        return Err(NotFinite);
      }
      var actual := FindArgmax(values);
      if actual != files.header.rows[nextRow].argmax {
        return Err(ArgmaxMismatch);
      }
      nextRow := nextRow + 1;
      return Ok(values);
    }

    method Finish() returns (ok: bool)
      requires pos <= |files.logits|
      ensures ok <==> nextRow == |files.header.rows| && pos == |files.logits|
    {
      ok := nextRow == |files.header.rows| && pos == |files.logits|;
    }
  }

  lemma SizeInValues(rowCount: nat, width: nat)
    ensures SizeOf(rowCount, 4 * width) == rowCount * width * 4
  {
  }

  // ---- the protocol ----

  /** A published trace opens exactly when no refused row left bytes behind. */
  lemma OpensIffClean(f: Files, rows: seq<seq<f32>>, leftover: nat)
    requires WrittenSoFar(f.header, rows, f.logits, leftover) && HeaderOk(f.header) && |f.logits| <= U64_MAX
    ensures Openable(f) <==> leftover == 0
  {
  }

  /** Reading n rows in turn from a position; None as soon as one of them fails. */
  function ReadRows(f: Files, pos: nat, nextRow: nat, n: nat): Option<(seq<seq<f32>>, nat)>
    requires pos <= |f.logits|
    decreases n
  {
    if n == 0 then Some(([], pos))
    else
      var (r, end, next) := NextRowAt(f, pos, nextRow);
      if r.Err? then None
      else
        match ReadRows(f, end, next, n - 1)
        case None => None
        case Some((rows, last)) => Some(([r.value] + rows, last))
  }

  lemma NextRowReads(f: Files, rows: seq<seq<f32>>, k: nat)
    requires Holds(f.header, rows) && f.logits == FileBytes(rows) && k < |rows|
    ensures |FileBytes(rows[..k])| <= |f.logits|
    ensures Reads(f, |FileBytes(rows[..k])|, k, rows[k], |FileBytes(rows[..k + 1])|)
  {
    RowAt(rows, k);
    FlatMapStep(RowBytes, rows, k);
    RowBytesLength(rows[k]);
    ValuesOfRow(rows[k]);
    assert rows[k] in rows;
    BytesRead(f, |FileBytes(rows[..k])|, |FileBytes(rows[..k + 1])|, k, rows[k]);
  }

  ghost predicate Reads(f: Files, pos: nat, k: nat, values: seq<f32>, end: nat)
    requires pos <= |f.logits|
  {
    var (r, end', next) := NextRowAt(f, pos, k);
    r.Ok? && r.value == values && end' == end && next == k + 1
  }

  lemma BytesRead(f: Files, pos: nat, end: nat, k: nat, values: seq<f32>)
    requires pos <= end <= |f.logits| && end == pos + 4 * f.header.vocabSize && k < |f.header.rows|
    requires ValuesOf(f.logits[pos..end]) == values && AllFinite(values) && f.header.rows[k].argmax == ArgmaxOf(values)
    ensures Reads(f, pos, k, values, end)
  {
  }

  /** Reading n rows gives exactly these rows and ends there. */
  ghost predicate ReadsAll(f: Files, pos: nat, k: nat, n: nat, rows: seq<seq<f32>>, last: nat)
    requires pos <= |f.logits|
  {
    var r := ReadRows(f, pos, k, n);
    r.Some? && r.value.0 == rows && r.value.1 == last
  }

  lemma ReadRowsStep(f: Files, pos: nat, k: nat, n: nat, values: seq<f32>, end: nat, rest: seq<seq<f32>>, last: nat)
    requires pos <= |f.logits| && Reads(f, pos, k, values, end) && ReadsAll(f, end, k + 1, n, rest, last)
    ensures ReadsAll(f, pos, k, n + 1, [values] + rest, last)
  {
  }

  lemma SplitFirst(rows: seq<seq<f32>>, k: nat)
    requires k < |rows|
    ensures rows[k..] == [rows[k]] + rows[k + 1..]
  {
  }

  /** Rows that are read from position to position. */
  ghost predicate ReadsAlong(f: Files, rows: seq<seq<f32>>, ps: seq<nat>) {
    && |ps| == |rows| + 1 && (forall i :: 0 <= i < |ps| ==> ps[i] <= |f.logits|)
    && forall i :: 0 <= i < |rows| ==> Reads(f, ps[i], i, rows[i], ps[i + 1])
  }

  lemma {:induction false} ReadsFrom(f: Files, rows: seq<seq<f32>>, ps: seq<nat>, k: nat)
    requires ReadsAlong(f, rows, ps) && k <= |rows|
    ensures ReadsAll(f, ps[k], k, |rows| - k, rows[k..], ps[|rows|])
    decreases |rows| - k
  {
    if k < |rows| {
      ReadsFrom(f, rows, ps, k + 1);
      ReadRowsStep(f, ps[k], k, |rows| - k - 1, rows[k], ps[k + 1], rows[k + 1..], ps[|rows|]);
      SplitFirst(rows, k);
    }
  }

  function RowStarts(rows: seq<seq<f32>>): seq<nat> {
    seq(|rows| + 1, i requires 0 <= i <= |rows| => |FileBytes(rows[..i])|)
  }

  lemma CleanReadsAlong(f: Files, rows: seq<seq<f32>>)
    requires Holds(f.header, rows) && f.logits == FileBytes(rows)
    ensures ReadsAlong(f, rows, RowStarts(rows))
  {
    forall i | 0 <= i <= |rows| ensures RowStarts(rows)[i] <= |f.logits| {
      if i < |rows| {
        RowAt(rows, i);
      } else {
        assert rows[..i] == rows;
      }
    }
    forall i | 0 <= i < |rows| ensures Reads(f, RowStarts(rows)[i], i, rows[i], RowStarts(rows)[i + 1]) {
      NextRowReads(f, rows, i);
    }
  }

  lemma CleanReads(f: Files, rows: seq<seq<f32>>)
    requires Holds(f.header, rows) && f.logits == FileBytes(rows)
    ensures ReadsAll(f, 0, 0, |rows|, rows, |f.logits|)
  {
    CleanReadsAlong(f, rows);
    ReadsFrom(f, rows, RowStarts(rows), 0);
    assert rows[..0] == [] && rows[0..] == rows && rows[..|rows|] == rows;
  }

  /** A clean published trace opens and reads back row for row, to the end of the file. */
  lemma RoundTrip(f: Files, rows: seq<seq<f32>>)
    requires WrittenSoFar(f.header, rows, f.logits, 0) && HeaderOk(f.header) && |f.logits| <= U64_MAX
    ensures Openable(f)
    ensures |f.header.rows| == |rows| && ReadsAll(f, 0, 0, |rows|, rows, |f.logits|)
  {
    OpensIffClean(f, rows, 0);
    CleanReads(f, rows);
  }
}
