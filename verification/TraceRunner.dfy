/** The native runner: it emits the same trace format from its own loop, with forced tokens or greedily. */
module TraceRunner {
  import opened Bytes
  import opened Wrappers
  import opened Sequences
  import opened LogitTrace
  import opened TraceIo

  const ENGINE := "llama.cpp"

  datatype OutputRow = OutputRow(phase: Phase, position: nat, inputToken: nat, argmax: nat)

  /** One row of logits: every value is checked and written, and the first greatest one is returned. */
  method WriteLogitRow(values: seq<f32>, output: seq<byte>)
    returns (best: Option<nat>, output': seq<byte>, ghost ioFailed: bool)
    requires values != []
    ensures best.Some? <==> AllFinite(values) && !ioFailed
    ensures best.Some? ==> best.value == ArgmaxOf(values) && output' == output + RowBytes(values)
  {
    output', ioFailed := output, false;
    for token := 0 to |values|
      invariant AllFinite(values[..token]) && output' == output + RowBytes(values[..token])
    {
      if !Finite(values[token]) {
        return None, output', false;
      }
      FlatMapStep(ValueBytes, values, token);
      Associate(output, RowBytes(values[..token]), ValueBytes(values[token]));
      assert values[..token + 1] == values[..token] + [values[token]];
      output' := output' + ValueBytes(values[token]);
    }
    assert values[..|values|] == values;
    var written: bool := *;
    if !written {
      return None, output', true;
    }
    var index := FindArgmax(values);
    return Some(index), output', false;
  }

  /** The rows as they are printed: a forced token wherever there is a decode input of the same index. */
  function Printed(rows: seq<OutputRow>, decode: seq<nat>): seq<Row> {
    seq(|rows|, i requires 0 <= i < |rows| =>
      Row(rows[i].phase, rows[i].position, rows[i].inputToken, rows[i].argmax, Forced(decode, i)))
  }

  function HeaderOf(sha256: string, vocabSize: nat, prompt: seq<nat>, decode: seq<nat>, rows: seq<OutputRow>): Header {
    Header(FORMAT, VERSION, ENGINE, sha256, vocabSize, prompt, decode, "f32", "little", Printed(rows, decode), LOGITS_FILE)
  }

  /** A row is the expected one for the trajectory so far, and records the maximum of its logits. */
  predicate Emitted(row: OutputRow, prompt: seq<nat>, decode: seq<nat>, index: nat, values: seq<f32>) {
    && ExpectedRow(prompt, decode, index) == Some((row.phase, row.position, row.inputToken))
    && AllFinite(values) && row.argmax == ArgmaxOf(values)
  }

  ghost predicate EmittedAll(rows: seq<OutputRow>, prompt: seq<nat>, decode: seq<nat>, logits: seq<seq<f32>>, width: nat) {
    && |rows| == |logits| && Wide(logits, width)
    && forall i :: 0 <= i < |rows| ==> Emitted(rows[i], prompt, decode, i, logits[i])
  }

  lemma EmittedStays(row: OutputRow, prompt: seq<nat>, decode: seq<nat>, decode': seq<nat>, index: nat, values: seq<f32>)
    requires Emitted(row, prompt, decode, index, values) && decode <= decode'
    ensures Emitted(row, prompt, decode', index, values)
  {
  }

  lemma EmittedGrows(rows: seq<OutputRow>, prompt: seq<nat>, decode: seq<nat>, logits: seq<seq<f32>>, width: nat,
                     decode': seq<nat>, row: OutputRow, values: seq<f32>)
    requires EmittedAll(rows, prompt, decode, logits, width) && decode <= decode'
    requires |values| == width && Emitted(row, prompt, decode', |rows|, values)
    ensures EmittedAll(rows + [row], prompt, decode', logits + [values], width)
  {
    var rows', logits' := rows + [row], logits + [values];
    forall i | 0 <= i < |rows'| ensures Emitted(rows'[i], prompt, decode', i, logits'[i]) {
      if i < |rows| {
        EmittedStays(rows[i], prompt, decode, decode', i, logits[i]);
      }
    }
  }

  /** The decode token at an index: the one given, or the greedy choice of the row before. */
  function InputAt(forced: Option<seq<nat>>, index: nat, greedy: nat): nat
    requires forced.Some? ==> index < |forced.value|
  {
    if forced.Some? then forced.value[index] else greedy
  }

  /** The logits are those of the model along the trajectory, and the trajectory is the given or the greedy one. */
  ghost predicate Follows(model: seq<nat> -> seq<f32>, forced: Option<seq<nat>>, prompt: seq<nat>, decode: seq<nat>,
                          logits: seq<seq<f32>>)
  {
    && |logits| == |decode| + 1 && (forced.Some? ==> |decode| <= |forced.value|)
    && (forall i :: 0 <= i < |logits| ==> logits[i] == model(prompt + decode[..i]))
    && forall i :: 0 <= i < |decode| ==> decode[i] == InputAt(forced, i, ArgmaxOf(logits[i]))
  }

  /** The decode tokens after a number of steps, whatever the logits are. */
  function DecodeAfter(model: seq<nat> -> seq<f32>, forced: Option<seq<nat>>, prompt: seq<nat>, steps: nat): seq<nat>
    requires forced.Some? ==> steps <= |forced.value|
  {
    if steps == 0 then []
    else
      var before := DecodeAfter(model, forced, prompt, steps - 1);
      before + [InputAt(forced, steps - 1, ArgmaxOf(model(prompt + before)))]
  }

  predicate FiniteAt(model: seq<nat> -> seq<f32>, forced: Option<seq<nat>>, prompt: seq<nat>, step: nat)
    requires forced.Some? ==> step <= |forced.value|
  {
    AllFinite(model(prompt + DecodeAfter(model, forced, prompt, step)))
  }

  /** All logits along the trajectory are finite. */
  ghost predicate FiniteAlong(model: seq<nat> -> seq<f32>, forced: Option<seq<nat>>, prompt: seq<nat>, steps: nat)
    requires forced.Some? ==> steps <= |forced.value|
  {
    forall i :: 0 <= i <= steps ==> FiniteAt(model, forced, prompt, i)
  }

  lemma DecodeGrows(model: seq<nat> -> seq<f32>, forced: Option<seq<nat>>, prompt: seq<nat>, decode: seq<nat>,
                    next: nat)
    requires (forced.Some? ==> |decode| < |forced.value|) && decode == DecodeAfter(model, forced, prompt, |decode|)
    requires next == InputAt(forced, |decode|, ArgmaxOf(model(prompt + decode)))
    ensures decode + [next] == DecodeAfter(model, forced, prompt, |decode| + 1)
  {
  }

  /** Token k is the given one, or the greedy choice after those before it. */
  predicate TokenAt(model: seq<nat> -> seq<f32>, forced: Option<seq<nat>>, prompt: seq<nat>, decode: seq<nat>, k: nat) {
    && k < |decode| && (forced.Some? ==> k < |forced.value|)
    && decode[k] == InputAt(forced, k, ArgmaxOf(model(prompt + decode[..k])))
  }

  lemma {:induction false} TokensAreDecode(model: seq<nat> -> seq<f32>, forced: Option<seq<nat>>, prompt: seq<nat>,
                                           decode: seq<nat>, n: nat)
    requires n <= |decode| && (forced.Some? ==> n <= |forced.value|)
    requires forall k: nat {:trigger TokenAt(model, forced, prompt, decode, k)} ::
               k < n ==> TokenAt(model, forced, prompt, decode, k)
    ensures decode[..n] == DecodeAfter(model, forced, prompt, n)
  {
    if n > 0 {
      TokensAreDecode(model, forced, prompt, decode, n - 1);
      assert TokenAt(model, forced, prompt, decode, n - 1);
      TokenNext(model, forced, prompt, decode, n - 1);
    }
  }

  lemma TokenNext(model: seq<nat> -> seq<f32>, forced: Option<seq<nat>>, prompt: seq<nat>, decode: seq<nat>, k: nat)
    requires TokenAt(model, forced, prompt, decode, k) && decode[..k] == DecodeAfter(model, forced, prompt, k)
    ensures decode[..k + 1] == DecodeAfter(model, forced, prompt, k + 1)
  {
    var before, next := decode[..k], decode[k];
    assert decode[..k + 1] == before + [next];
    DecodeGrows(model, forced, prompt, before, next);
  }

  lemma FollowsIsDecode(model: seq<nat> -> seq<f32>, forced: Option<seq<nat>>, prompt: seq<nat>, decode: seq<nat>,
                        logits: seq<seq<f32>>, n: nat)
    requires Follows(model, forced, prompt, decode, logits) && n <= |decode|
    ensures decode[..n] == DecodeAfter(model, forced, prompt, n)
  {
    forall k: nat | k < n ensures TokenAt(model, forced, prompt, decode, k) {
      assert logits[k] == model(prompt + decode[..k]);
    }
    TokensAreDecode(model, forced, prompt, decode, n);
  }

  lemma ProducedIsFinite(model: seq<nat> -> seq<f32>, forced: Option<seq<nat>>, width: nat, prompt: seq<nat>,
                         decode: seq<nat>, rows: seq<OutputRow>, logits: seq<seq<f32>>, output: seq<byte>)
    requires Produced(model, forced, width, prompt, decode, rows, logits, output)
    ensures decode == DecodeAfter(model, forced, prompt, |decode|) && FiniteAlong(model, forced, prompt, |decode|)
  {
    forall i | 0 <= i <= |decode| ensures FiniteAt(model, forced, prompt, i) {
      FollowsIsDecode(model, forced, prompt, decode, logits, i);
      assert Emitted(rows[i], prompt, decode, i, logits[i]);
    }
    FollowsIsDecode(model, forced, prompt, decode, logits, |decode|);
    assert decode[..|decode|] == decode;
  }

  lemma FollowsStart(model: seq<nat> -> seq<f32>, forced: Option<seq<nat>>, prompt: seq<nat>)
    ensures Follows(model, forced, prompt, [], [model(prompt)])
  {
    assert prompt + [] == prompt;
  }

  lemma FollowsGrows(model: seq<nat> -> seq<f32>, forced: Option<seq<nat>>, prompt: seq<nat>, decode: seq<nat>,
                     logits: seq<seq<f32>>, input: nat)
    requires Follows(model, forced, prompt, decode, logits) && (forced.Some? ==> |decode| < |forced.value|)
    requires input == InputAt(forced, |decode|, ArgmaxOf(logits[|decode|]))
    ensures Follows(model, forced, prompt, decode + [input], logits + [model(prompt + (decode + [input]))])
  {
    var decode', logits' := decode + [input], logits + [model(prompt + (decode + [input]))];
    forall i | 0 <= i < |logits'| ensures logits'[i] == model(prompt + decode'[..i]) {
      if i < |logits| {
        assert decode'[..i] == decode[..i];
      } else {
        assert decode'[..i] == decode';
      }
    }
  }

  /** Everything produced so far: tokens, rows, logits and bytes. */
  ghost predicate Produced(model: seq<nat> -> seq<f32>, forced: Option<seq<nat>>, width: nat, prompt: seq<nat>,
                           decode: seq<nat>, rows: seq<OutputRow>, logits: seq<seq<f32>>, output: seq<byte>)
  {
    && InVocabulary(decode, width) && EmittedAll(rows, prompt, decode, logits, width)
    && Follows(model, forced, prompt, decode, logits) && output == FileBytes(logits)
  }

  lemma ProducedStart(model: seq<nat> -> seq<f32>, forced: Option<seq<nat>>, width: nat, prompt: seq<nat>,
                      row: OutputRow, output: seq<byte>)
    requires |model(prompt)| == width && Emitted(row, prompt, [], 0, model(prompt))
    requires output == [] + RowBytes(model(prompt))
    ensures Produced(model, forced, width, prompt, [], [row], [model(prompt)], output)
  {
    FollowsStart(model, forced, prompt);
    FlatMapOne(RowBytes, model(prompt));
  }

  lemma ProducedGrows(model: seq<nat> -> seq<f32>, forced: Option<seq<nat>>, width: nat, prompt: seq<nat>,
                      decode: seq<nat>, rows: seq<OutputRow>, logits: seq<seq<f32>>, output: seq<byte>, greedy: nat,
                      input: nat, row: OutputRow, values: seq<f32>)
    requires Produced(model, forced, width, prompt, decode, rows, logits, output)
    requires forced.Some? ==> |decode| < |forced.value|
    requires greedy == ArgmaxOf(logits[|decode|]) && input == InputAt(forced, |decode|, greedy) && input < width
    requires values == model(prompt + (decode + [input])) && |values| == width
    requires Emitted(row, prompt, decode + [input], |rows|, values)
    ensures Produced(model, forced, width, prompt, decode + [input], rows + [row], logits + [values],
                     output + RowBytes(values))
  {
    FollowsGrows(model, forced, prompt, decode, logits, input);
    EmittedGrows(rows, prompt, decode, logits, width, decode + [input], row, values);
    BytesAdded(logits, values, width);
    VocabularyGrows(decode, input, width);
  }

  lemma VocabularyGrows(tokens: seq<nat>, t: nat, width: nat)
    requires InVocabulary(tokens, width) && t < width
    ensures InVocabulary(tokens + [t], width)
  {
    forall x | x in tokens + [t] ensures x < width {
      assert x in tokens || x == t;
    }
  }

  lemma InputInside(forced: Option<seq<nat>>, index: nat, greedy: nat, width: nat)
    requires greedy < width && (forced.Some? ==> InVocabulary(forced.value, width) && index < |forced.value|)
    ensures InputAt(forced, index, greedy) < width
  {
    assert forced.Some? ==> forced.value[index] in forced.value;
  }

  lemma DecodeRowEmitted(prompt: seq<nat>, decode: seq<nat>, input: nat, index: nat, values: seq<f32>,
                         row: OutputRow)
    requires index == |decode| + 1 && AllFinite(values)
    requires row == OutputRow(Decode, |prompt| + |decode|, input, ArgmaxOf(values))
    ensures Emitted(row, prompt, decode + [input], index, values)
  {
    var decode' := decode + [input];
    assert decode'[index - 1] == input && index - 1 < |decode'|;
    assert ExpectedRow(prompt, decode', index) == Some((Phase.Decode, |prompt| + index - 1, decode'[index - 1]));
  }

  /** What the loop of the runner updates. */
  datatype Progress = Progress(decode: seq<nat>, rows: seq<OutputRow>, output: seq<byte>, current: nat)

  ghost predicate InProgress(model: seq<nat> -> seq<f32>, forced: Option<seq<nat>>, width: nat, prompt: seq<nat>,
                             t: Progress, logits: seq<seq<f32>>)
  {
    && Produced(model, forced, width, prompt, t.decode, t.rows, logits, t.output)
    && t.current == ArgmaxOf(logits[|t.decode|]) && t.current < width
  }

  method Prefilled(model: seq<nat> -> seq<f32>, forced: Option<seq<nat>>, width: nat, prompt: seq<nat>)
    returns (t: Option<Progress>, ghost logits: seq<seq<f32>>, ghost ioFailed: bool)
    requires width > 0 && prompt != [] && |model(prompt)| == width
    ensures t.Some? ==> |t.value.decode| == 0 && InProgress(model, forced, width, prompt, t.value, logits)
    ensures t.Some? <==> FiniteAt(model, forced, prompt, 0) && !ioFailed
  {
    var values := model(prompt);
    logits := [values];
    assert prompt + DecodeAfter(model, forced, prompt, 0) == prompt;
    var decoded: bool := *;
    if !decoded {
      return None, logits, true;
    }
    var best, output;
    best, output, ioFailed := WriteLogitRow(values, []);
    if best.None? {
      return None, logits, ioFailed;
    }
    ArgmaxInside(values);
    var row := OutputRow(Prefill, |prompt| - 1, prompt[|prompt| - 1], best.value);
    ProducedStart(model, forced, width, prompt, row, output);
    return Some(Progress([], [row], output, best.value)), logits, false;
  }

  lemma Advances(model: seq<nat> -> seq<f32>, forced: Option<seq<nat>>, width: nat, prompt: seq<nat>, t: Progress,
                 logits: seq<seq<f32>>, input: nat, values: seq<f32>, best: nat, row: OutputRow)
    requires InProgress(model, forced, width, prompt, t, logits) && width > 0
    requires forced.Some? ==> InVocabulary(forced.value, width) && |t.decode| < |forced.value|
    requires input == InputAt(forced, |t.decode|, t.current)
    requires values == model(prompt + (t.decode + [input])) && |values| == width
    requires AllFinite(values) && best == ArgmaxOf(values)
    requires row == OutputRow(Decode, |prompt| + |t.decode|, input, best)
    ensures InProgress(model, forced, width, prompt,
                       Progress(t.decode + [input], t.rows + [row], t.output + RowBytes(values), best), logits + [values])
  {
    assert |logits| == |t.decode| + 1 && (logits + [values])[|t.decode| + 1] == values;
    ArgmaxInside(values);
    InputInside(forced, |t.decode|, t.current, width);
    DecodeRowEmitted(prompt, t.decode, input, |t.rows|, values, row);
    ProducedGrows(model, forced, width, prompt, t.decode, t.rows, logits, t.output, t.current, input, row, values);
  }

  lemma CurrentIs(model: seq<nat> -> seq<f32>, forced: Option<seq<nat>>, prompt: seq<nat>, decode: seq<nat>,
                  logits: seq<seq<f32>>)
    requires Follows(model, forced, prompt, decode, logits)
    ensures logits[|decode|] == model(prompt + decode)
  {
    assert decode[..|decode|] == decode;
  }

  /** The token read in a step is the next of the trajectory. */
  lemma InputIsNext(model: seq<nat> -> seq<f32>, forced: Option<seq<nat>>, width: nat, prompt: seq<nat>, t: Progress,
                    logits: seq<seq<f32>>, input: nat)
    requires InProgress(model, forced, width, prompt, t, logits) && (forced.Some? ==> |t.decode| < |forced.value|)
    requires input == InputAt(forced, |t.decode|, t.current)
    ensures t.decode + [input] == DecodeAfter(model, forced, prompt, |t.decode| + 1)
  {
    ProducedIsFinite(model, forced, width, prompt, t.decode, t.rows, logits, t.output);
    CurrentIs(model, forced, prompt, t.decode, logits);
    DecodeGrows(model, forced, prompt, t.decode, input);
  }

  method Decoded(model: seq<nat> -> seq<f32>, forced: Option<seq<nat>>, width: nat, prompt: seq<nat>, t: Progress,
                 ghost logits: seq<seq<f32>>)
    returns (t': Option<Progress>, ghost logits': seq<seq<f32>>, ghost ioFailed: bool)
    requires InProgress(model, forced, width, prompt, t, logits) && width > 0
    requires forced.Some? ==> InVocabulary(forced.value, width) && |t.decode| < |forced.value|
    requires forall tokens :: |model(tokens)| == width
    ensures t'.Some? ==> |t'.value.decode| == |t.decode| + 1
                         && InProgress(model, forced, width, prompt, t'.value, logits')
    ensures t'.Some? <==> FiniteAt(model, forced, prompt, |t.decode| + 1) && !ioFailed
  {
    var input := InputAt(forced, |t.decode|, t.current);
    var values := model(prompt + (t.decode + [input]));
    InputIsNext(model, forced, width, prompt, t, logits, input);
    logits' := logits + [values];
    var decoded: bool := *;
    if !decoded {
      return None, logits', true;
    }
    var best, output;
    best, output, ioFailed := WriteLogitRow(values, t.output);
    if best.None? {
      return None, logits', ioFailed;
    }
    var row := OutputRow(Decode, |prompt| + |t.decode|, input, best.value);
    Advances(model, forced, width, prompt, t, logits, input, values, best.value, row);
    return Some(Progress(t.decode + [input], t.rows + [row], output, best.value)), logits', false;
  }

  /** The logits after a list of tokens come from the model; they may be of any values.  Without a failure of the
      device or of a file a trace is published exactly when all of them are finite along the trajectory. */
  method RunTrajectory(model: seq<nat> -> seq<f32>, sha256: string, vocabSize: nat, prompt: seq<nat>,
                       forced: Option<seq<nat>>, steps: nat)
    returns (r: Option<Files>, ghost logits: seq<seq<f32>>, ghost ioFailed: bool)
    requires TrajectoryOk(prompt, [], vocabSize) && vocabSize > 0 && IsSha256(sha256)
    requires forced.Some? ==> InVocabulary(forced.value, vocabSize) && steps == |forced.value|
    requires forall tokens :: |model(tokens)| == vocabSize
    ensures r.Some? <==> FiniteAlong(model, forced, prompt, steps) && !ioFailed
    ensures r.Some? ==> HeaderOk(r.value.header) && WrittenSoFar(r.value.header, logits, r.value.logits, 0)
    ensures r.Some? ==> r.value.header.prompt == prompt
                        && r.value.header.decode == DecodeAfter(model, forced, prompt, steps)
    ensures r.Some? ==> Follows(model, forced, prompt, r.value.header.decode, logits)
  {
    var t;
    t, logits, ioFailed := Prefilled(model, forced, vocabSize, prompt);
    if t.None? {
      return None, logits, ioFailed;
    }
    var progress := t.value;
    for step := 0 to steps
      invariant |progress.decode| == step && InProgress(model, forced, vocabSize, prompt, progress, logits)
      invariant !ioFailed
    {
      t, logits, ioFailed := Decoded(model, forced, vocabSize, prompt, progress, logits);
      if t.None? {
        return None, logits, ioFailed;
      }
      progress := t.value;
    }
    r, ioFailed := Published(model, forced, sha256, vocabSize, prompt, progress, logits);
  }

  method Published(model: seq<nat> -> seq<f32>, ghost forced: Option<seq<nat>>, sha256: string, vocabSize: nat,
                   prompt: seq<nat>, t: Progress, ghost logits: seq<seq<f32>>)
    returns (r: Option<Files>, ghost ioFailed: bool)
    requires InProgress(model, forced, vocabSize, prompt, t, logits)
    requires TrajectoryOk(prompt, [], vocabSize) && vocabSize > 0 && IsSha256(sha256)
    ensures r.Some? <==> !ioFailed
    ensures FiniteAlong(model, forced, prompt, |t.decode|)
    ensures t.decode == DecodeAfter(model, forced, prompt, |t.decode|)
    ensures r.Some? ==> HeaderOk(r.value.header) && WrittenSoFar(r.value.header, logits, r.value.logits, 0)
    ensures r.Some? ==> r.value.header.prompt == prompt && r.value.header.decode == t.decode
    ensures r.Some? ==> Follows(model, forced, prompt, t.decode, logits)
  {
    ProducedIsFinite(model, forced, vocabSize, prompt, t.decode, t.rows, logits, t.output);
    var h := HeaderOf(sha256, vocabSize, prompt, t.decode, t.rows);
    EmittedIsHeld(t.rows, prompt, t.decode, logits, vocabSize, h);
    var renamed: bool := *;
    if !renamed {
      return None, true;
    }
    return Some(Files(h, t.output)), false;
  }

  /** What the runner emits passes the checks of the reader. */
  lemma EmittedIsHeld(rows: seq<OutputRow>, prompt: seq<nat>, decode: seq<nat>, logits: seq<seq<f32>>, width: nat,
                      h: Header)
    requires EmittedAll(rows, prompt, decode, logits, width) && |rows| == |decode| + 1 && width > 0
    requires TrajectoryOk(prompt, decode, width) && IsSha256(h.sha256)
    requires h == HeaderOf(h.sha256, width, prompt, decode, rows)
    ensures HeaderOk(h) && WrittenSoFar(h, logits, FileBytes(logits), 0)
  {
    forall i | 0 <= i < |rows| ensures RowOk(h, i, h.rows[i]) && h.rows[i].argmax == ArgmaxOf(logits[i]) {
      assert Emitted(rows[i], prompt, decode, i, logits[i]) && logits[i] in logits;
      ArgmaxInside(logits[i]);
    }
    LogitsFileIsPlain();
    EngineIsNotBlank();
    FileBytesLength(logits, width);
  }

  lemma EngineIsNotBlank()
    ensures !Blank(ENGINE)
  {
    assert ENGINE[0] == 'l' && !IsSpace('l');
  }
}
