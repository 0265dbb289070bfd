/** The inference session: prefill once, in padded chunks when the cache is paged, then decode token by token. */
module Session {
  import opened Bytes
  import opened Wrappers
  import opened Sequences
  import opened Executor
  import opened Maximum

  /** Pages of positions, filled in chunks of tokens. */
  datatype Paging = Paging(pageSize: nat, chunkSize: nat)

  function AtLeastOne(n: nat): nat { if n == 0 then 1 else n }

  function DivCeil(a: nat, b: nat): nat
    requires b > 0
  {
    (a + b - 1) / b
  }

  lemma DivCeilCovers(a: nat, b: nat)
    requires b > 0
    ensures a <= DivCeil(a, b) * b
  {
    var q, r := (a + b - 1) / b, (a + b - 1) % b;
    assert a + b - 1 == q * b + r;
  }

  /** The cast to a token id of 32 bits. */
  function AsTokenId(n: int): nat { n % TWO32 }

  class IreeSession<E> {
    const vocabularySize: nat
    const configLimit: nat
    const batchSize: nat
    const kvLimit: nat
    const paging: Option<Paging>
    const prefillWindow: nat
    const padTokenId: nat
    const context: Context<E>
    var position: nat
    var history: seq<nat>
    var attnBias: seq<real>

    constructor (vocabularySize: nat, configLimit: nat, batchSize: nat, kvLimit: nat, paging: Option<Paging>,
                 prefillWindow: nat, padTokenId: nat, context: Context<E>)
      requires paging.Some? ==> paging.value.pageSize > 0 && paging.value.chunkSize > 0
      requires paging.None? ==> AtLeastOne(kvLimit) <= |context.kv|
      ensures Valid() && position == 0 && history == [] && this.context == context
      ensures this.paging == paging && this.prefillWindow == AtLeastOne(prefillWindow)
    {
      this.vocabularySize, this.configLimit, this.batchSize := vocabularySize, configLimit, batchSize;
      this.kvLimit, this.paging, this.padTokenId := kvLimit, paging, padTokenId;
      this.prefillWindow := AtLeastOne(prefillWindow);
      this.context := context;
      position, history, attnBias := 0, [], [];
    }

    function MaxSeq(): nat { Min(AtLeastOne(configLimit), AtLeastOne(kvLimit)) }

    ghost predicate Valid()
      reads this, context
    {
      && position <= MaxSeq() && prefillWindow > 0
      && (paging.Some? ==> paging.value.pageSize > 0 && paging.value.chunkSize > 0)
      && (paging.None? ==> AtLeastOne(kvLimit) <= |context.kv|)
    }

    /** The memory holds the entries of the history and nothing else is visible. */
    ghost predicate Plain()
      reads this, context
    {
      && position == |history| && position <= |context.kv|
      && context.kv[..position] == Extend(context.device, [], history)
    }

    /** A usable session after exactly these tokens. */
    ghost predicate After(ids: seq<nat>)
      reads this, context
    {
      Valid() && Plain() && history == ids && batchSize == 1
    }

    /** The checks made before anything is touched. */
    function PrefillRefusal(tokens: seq<nat>): Option<Error> {
      if batchSize != 1 then Some(BatchSize)
      else if tokens == [] then Some(EmptyPrompt)
      else if paging.None? && |tokens| > prefillWindow then Some(OverWindow)
      else if |tokens| > MaxSeq() then Some(OverLimit)
      else None
    }

    predicate Fits(tokens: seq<nat>) {
      paging.Some? ==> ChunksFit(tokens, paging.value.chunkSize, prefillWindow)
    }

    /** Left-aligned tokens, padded on the right, and the index of the last real one. */
    method WindowFromTokens(tokens: seq<nat>) returns (window: seq<nat>, last: nat)
      ensures |window| == prefillWindow
      ensures tokens != [] && prefillWindow > 0 ==>
                last < |window| && window[..last + 1] == tokens[..Min(|tokens|, prefillWindow)]
      ensures forall i :: Min(|tokens|, prefillWindow) <= i < |window| ==> window[i] == padTokenId
    {
      var n := Min(|tokens|, prefillWindow);
      window := seq(prefillWindow, _ => padTokenId);
      if n == 0 {
        return window, 0;
      }
      for i := 0 to n
        invariant |window| == prefillWindow && window[..i] == tokens[..i]
        invariant forall k :: n <= k < |window| ==> window[k] == padTokenId
      {
        window := window[i := tokens[i]];
      }
      last := n - 1;
    }

    method EnsurePages() returns (r: Result<(), Error>)
      requires paging.Some? && paging.value.pageSize > 0
      modifies context`kv
      ensures old(context.kv) <= context.kv
      ensures r.Ok? ==> MaxSeq() <= |context.kv|
      ensures r.Err? ==> r.error == Execution
    {
      var pages := AtLeastOne(DivCeil(MaxSeq(), paging.value.pageSize));
      DivCeilCovers(MaxSeq(), paging.value.pageSize);
      r := context.EnsureKvPages(pages * paging.value.pageSize);
    }

    /** One chunk of a prefill, behind the chunks before it. */
    method RunChunk(tokens: seq<nat>, start: nat, chunkSize: nat, want: bool)
      returns (r: Result<(Option<seq<real>>, int), Error>, ghost seen: seq<real>)
      requires prefillWindow > 0 && chunkSize > 0 && start < |tokens| <= |context.kv|
      modifies context`kv
      ensures |context.kv| == |old(context.kv)|
      ensures r.Err? ==> r.error == Execution
      ensures r.Ok? ==>
                Writes(context.device, old(context.kv), start, Piece(tokens, start, chunkSize, prefillWindow), context.kv)
      ensures r.Ok? ==> PieceEnd(tokens, start, chunkSize, prefillWindow) <= |context.kv|
                        && seen == context.device.logits(context.kv[..PieceEnd(tokens, start, chunkSize, prefillWindow)])
      ensures r.Ok? ==> r.value == (if want then Some(seen) else None, context.device.pick(seen))
    {
      var chunk := tokens[start..Min(|tokens|, start + chunkSize)];
      var window, last := WindowFromTokens(chunk);
      assert window[..last + 1] == Piece(tokens, start, chunkSize, prefillWindow);
      r := context.InvokePagedChunkEx(window, last, start, want);
      seen := context.device.logits(context.kv[..start + last + 1]);
    }

    /** The memories of a run so far, which ends with the present one, and where the next chunk starts. */
    ghost predicate Underway(tokens: seq<nat>, chunkSize: nat, kvs: seq<seq<E>>, start: nat)
      reads this, context
    {
      RunsTo(context.device, tokens, chunkSize, prefillWindow, kvs, context.kv, start)
    }

    /** One more chunk of a run. */
    method NextChunk(tokens: seq<nat>, start: nat, chunkSize: nat, want: bool, ghost kvs: seq<seq<E>>)
      returns (r: Result<(Option<seq<real>>, int), Error>, ghost kvs': seq<seq<E>>, ghost seen: seq<real>)
      requires prefillWindow > 0 && chunkSize > 0 && start < |tokens| <= |context.kv|
      requires Underway(tokens, chunkSize, kvs, start)
      modifies context`kv
      ensures |context.kv| == |old(context.kv)|
      ensures r.Err? ==> r.error == Execution
      ensures r.Ok? ==> r.value == (if want then Some(seen) else None, context.device.pick(seen))
      ensures r.Ok? ==> Underway(tokens, chunkSize, kvs', start + chunkSize)
      ensures r.Ok? && |tokens| <= start + chunkSize ==>
                RunGives(context.device, tokens, chunkSize, prefillWindow, kvs', seen)
    {
      ghost var before := context.kv;
      r, seen := RunChunk(tokens, start, chunkSize, want);
      kvs' := kvs + [context.kv];
      if r.Ok? {
        RunStep(context.device, tokens, chunkSize, prefillWindow, kvs, before, context.kv, start, seen);
      }
    }

    /** All chunks in order.  The logits of the last one are fetched on request; the device's token always is. */
    method RunChunks(tokens: seq<nat>, wantLogits: bool)
      returns (r: Result<(seq<real>, int), Error>, ghost kvs: seq<seq<E>>, ghost seen: seq<real>)
      requires Valid() && paging.Some? && tokens != [] && |tokens| <= |context.kv|
      modifies context`kv
      ensures r.Err? ==> r.error == Execution
      ensures r.Ok? ==> RunGives(context.device, tokens, paging.value.chunkSize, prefillWindow, kvs, seen)
      ensures r.Ok? ==> kvs[|kvs| - 1] == context.kv && r.value.1 == context.device.pick(seen)
      ensures r.Ok? && wantLogits ==> r.value.0 == seen
    {
      var chunkSize := paging.value.chunkSize;
      var start, logits, token := 0, [], -1;
      kvs, seen := [context.kv], [];
      RunStarts(context.device, tokens, chunkSize, prefillWindow, context.kv);
      while start < |tokens|
        invariant |tokens| <= |context.kv| && Underway(tokens, chunkSize, kvs, start)
        invariant |tokens| <= start ==>
                    RunGives(context.device, tokens, chunkSize, prefillWindow, kvs, seen)
                    && token == context.device.pick(seen) && (wantLogits ==> logits == seen)
        decreases |tokens| - start
      {
        var want := wantLogits && start + chunkSize >= |tokens|;
        var out;
        out, kvs, seen := NextChunk(tokens, start, chunkSize, want, kvs);
        if out.Err? {
          return Err(out.error), kvs, seen;
        }
        if want {
          logits := out.value.0.value;
        }
        token := out.value.1;
        start := start + chunkSize;
      }
      return Ok((logits, token)), kvs, seen;
    }

    method Prefill(tokens: seq<nat>) returns (r: Result<seq<real>, Error>, ghost kvs: seq<seq<E>>)
      requires Valid()
      modifies this`position, this`history, context`kv
      ensures Valid()
      ensures PrefillRefusal(tokens).Some? ==>
                r == Err(PrefillRefusal(tokens).value) && unchanged(this) && unchanged(context)
      ensures PrefillRefusal(tokens).None? ==> history == tokens
      ensures PrefillRefusal(tokens).None? && r.Err? ==>
                r.error in {Execution, WrongVocabulary} && position == old(position)
      ensures r.Ok? ==> position == |tokens| && |r.value| == vocabularySize
      ensures r.Ok? && paging.Some? ==>
                RunGives(context.device, tokens, paging.value.chunkSize, prefillWindow, kvs, r.value)
      ensures r.Ok? && Fits(tokens) ==> Plain() && r.value == LogitsAfter(context.device, tokens)
    {
      kvs := [];
      if batchSize != 1 {
        return Err(BatchSize), kvs;
      }
      if tokens == [] {
        return Err(EmptyPrompt), kvs;
      }
      if paging.None? && |tokens| > prefillWindow {
        return Err(OverWindow), kvs;
      }
      if |tokens| > MaxSeq() {
        return Err(OverLimit), kvs;
      }
      history := tokens;
      var values;
      if paging.Some? {
        var reset := context.ResetPagedKv();
        if reset.Err? {
          return Err(reset.error), kvs;
        }
        var grown := EnsurePages();
        if grown.Err? {
          return Err(grown.error), kvs;
        }
        var out;
        ghost var seen;
        out, kvs, seen := RunChunks(tokens, true);
        if out.Err? {
          return Err(out.error), kvs;
        }
        values := out.value.0;
      } else {
        var window, last := WindowFromTokens(tokens);
        var out := context.InvokePrefill(window, last);
        if out.Err? {
          return Err(out.error), kvs;
        }
        assert window[..last + 1] == tokens;
        values := out.value;
      }
      if |values| != vocabularySize {
        return Err(WrongVocabulary), kvs;
      }
      position := |tokens|;
      if paging.Some? && Fits(tokens) {
        FittingRunGives(context.device, tokens, paging.value.chunkSize, prefillWindow, kvs, values);
      }
      return Ok(values), kvs;
    }

    method PagedStep(token: nat, want: bool)
      returns (r: Result<(Option<seq<real>>, int), Error>, ghost seen: seq<real>)
      requires Valid() && position < MaxSeq() && paging.Some?
      modifies context`kv
      ensures |old(context.kv)| <= |context.kv|
      ensures position <= |old(context.kv)| ==> context.kv[..position] == old(context.kv)[..position]
      ensures r.Err? ==> r.error == Execution
      ensures r.Ok? ==> r.value == (if want then Some(seen) else None, context.device.pick(seen))
      ensures r.Ok? && position <= |old(context.kv)| ==>
                && position < |context.kv|
                && context.kv[..position + 1] == Extend(context.device, old(context.kv)[..position], [token])
                && seen == context.device.logits(context.kv[..position + 1])
    {
      seen := [];
      var grown := EnsurePages();
      if grown.Err? {
        return Err(grown.error), seen;
      }
      r := context.InvokePagedChunkEx([token], 0, position, want);
      seen := context.device.logits(context.kv[..position + 1]);
      assert [token][..1] == [token];
    }

    /** One step of the device, in either kind of cache. */
    method Step(token: nat) returns (r: Result<seq<real>, Error>)
      requires Valid() && position < MaxSeq()
      modifies this`attnBias, context`kv
      ensures |old(context.kv)| <= |context.kv|
      ensures position <= |old(context.kv)| ==> context.kv[..position] == old(context.kv)[..position]
      ensures r.Err? ==> r.error == Execution
      ensures r.Ok? && position <= |old(context.kv)| ==>
                && position < |context.kv|
                && context.kv[..position + 1] == Extend(context.device, old(context.kv)[..position], [token])
                && r.value == context.device.logits(context.kv[..position + 1])
    {
      if paging.Some? {
        var out, seen := PagedStep(token, true);
        return if out.Ok? then Ok(out.value.0.value) else Err(out.error);
      } else {
        r := StaticStep(token);
      }
    }

    method StaticStep(token: nat) returns (r: Result<seq<real>, Error>)
      requires Valid() && position < MaxSeq() && paging.None?
      modifies this`attnBias, context`kv
      ensures |old(context.kv)| == |context.kv| && context.kv[..position] == old(context.kv)[..position]
      ensures r.Err? ==> r.error == Execution
      ensures r.Ok? ==>
                && context.kv[..position + 1] == Extend(context.device, old(context.kv)[..position], [token])
                && r.value == context.device.logits(context.kv[..position + 1])
    {
      ghost var before := context.kv[..position];
      attnBias := FillCausalAttnBias(position, AtLeastOne(kvLimit));
      r := context.InvokeDecode(token, position, attnBias);
      if r.Ok? {
        VisibleIsPrefix(before, attnBias, position);
        VisibleIsPrefix(context.kv, attnBias, position);
        assert before[..position] == before && [token][..0] == [];
        assert context.kv[..position + 1] == before + [context.kv[position]];
      }
    }

    /** One token.  Whatever happens, the entries below the position stay. */
    method Decode(token: nat) returns (r: Result<seq<real>, Error>)
      requires Valid()
      modifies this, context`kv
      ensures Valid()
      ensures batchSize != 1 ==> r == Err(BatchSize)
      ensures batchSize == 1 && old(position) >= MaxSeq() ==> r == Err(OverLimit)
      ensures batchSize != 1 || old(position) >= MaxSeq() ==> unchanged(this) && unchanged(context)
      ensures r.Err? ==> position == old(position) && history == old(history)
      ensures r.Err? && batchSize == 1 && old(position) < MaxSeq() ==> r.error in {Execution, WrongVocabulary}
      ensures r.Ok? ==> position == old(position) + 1 && history == old(history) + [token] && |r.value| == vocabularySize
      ensures old(Plain()) ==> Plain() && (r.Ok? ==> r.value == LogitsAfter(context.device, history))
    {
      if batchSize != 1 {
        return Err(BatchSize);
      }
      if position >= MaxSeq() {
        return Err(OverLimit);
      }
      var out := Step(token);
      if out.Err? {
        return Err(out.error);
      }
      if |out.value| != vocabularySize {
        return Err(WrongVocabulary);
      }
      ExtendAppend(context.device, [], history, [token]);
      history := history + [token];
      position := position + 1;
      return out;
    }

    /** The token chosen after a list: by the host from all logits, or by the device. */
    function PickAfter(tokens: seq<nat>): nat {
      var logits := LogitsAfter(context.device, tokens);
      AsTokenId(if paging.None? then FirstMax(logits) else context.device.pick(logits))
    }

    method PrefillArgmax(tokens: seq<nat>) returns (r: Result<nat, Error>)
      requires Valid()
      modifies this`position, this`history, context`kv
      ensures Valid()
      ensures PrefillRefusal(tokens).Some? ==>
                r == Err(PrefillRefusal(tokens).value) && unchanged(this) && unchanged(context)
      ensures PrefillRefusal(tokens).None? && r.Err? ==>
                r.error in {Execution, WrongVocabulary, InvalidToken} && history == tokens && position == old(position)
      ensures r.Ok? ==> position == |tokens| && history == tokens
      ensures r.Ok? && Fits(tokens) ==> Plain() && r.value == PickAfter(tokens)
    {
      if paging.None? {
        var out, kvs := Prefill(tokens);
        if out.Err? {
          return Err(out.error);
        }
        var best := Argmax(out.value);
        return Ok(AsTokenId(best));
      }
      if batchSize != 1 {
        return Err(BatchSize);
      }
      if tokens == [] {
        return Err(EmptyPrompt);
      }
      if |tokens| > MaxSeq() {
        return Err(OverLimit);
      }
      history := tokens;
      r := PagedPrefillArgmax(tokens);
      if r.Ok? {
        position := |tokens|;
      }
    }

    method PagedPrefillArgmax(tokens: seq<nat>) returns (r: Result<nat, Error>)
      requires Valid() && paging.Some? && tokens != [] && |tokens| <= MaxSeq()
      modifies context`kv
      ensures r.Err? ==> r.error in {Execution, InvalidToken}
      ensures r.Ok? && Fits(tokens) ==>
                && |tokens| <= |context.kv| && context.kv[..|tokens|] == Extend(context.device, [], tokens)
                && r.value == PickAfter(tokens)
    {
      var reset := context.ResetPagedKv();
      if reset.Err? {
        return Err(reset.error);
      }
      var grown := EnsurePages();
      if grown.Err? {
        return Err(grown.error);
      }
      var out, kvs, seen := RunChunks(tokens, false);
      if out.Err? {
        return Err(out.error);
      }
      var token := out.value.1;
      if token < 0 {
        return Err(InvalidToken);
      }
      if Fits(tokens) {
        FittingRunGives(context.device, tokens, paging.value.chunkSize, prefillWindow, kvs, seen);
      }
      return Ok(AsTokenId(token));
    }

    method DecodeArgmax(token: nat) returns (r: Result<nat, Error>)
      requires Valid()
      modifies this, context`kv
      ensures Valid()
      ensures batchSize != 1 ==> r == Err(BatchSize)
      ensures batchSize == 1 && old(position) >= MaxSeq() ==> r == Err(OverLimit)
      ensures batchSize != 1 || old(position) >= MaxSeq() ==> unchanged(this) && unchanged(context)
      ensures r.Err? ==> position == old(position) && history == old(history)
      ensures r.Err? && batchSize == 1 && old(position) < MaxSeq() ==>
                r.error in {Execution, WrongVocabulary, InvalidToken}
      ensures r.Ok? ==> position == old(position) + 1 && history == old(history) + [token]
      ensures old(Plain()) ==> Plain() && (r.Ok? ==> r.value == PickAfter(history))
    {
      if paging.None? {
        var out := Decode(token);
        if out.Err? {
          return Err(out.error);
        }
        var best := Argmax(out.value);
        return Ok(AsTokenId(best));
      }
      if batchSize != 1 {
        return Err(BatchSize);
      }
      if position >= MaxSeq() {
        return Err(OverLimit);
      }
      var out, seen := PagedStep(token, false);
      if out.Err? {
        return Err(out.error);
      }
      var next := out.value.1;
      if next < 0 {
        return Err(InvalidToken);
      }
      ExtendAppend(context.device, [], history, [token]);
      history := history + [token];
      position := position + 1;
      return Ok(AsTokenId(next));
    }

    method Reset() returns (r: Result<(), Error>)
      requires Valid()
      modifies this`position, this`history, context`kv
      ensures Valid()
      ensures r.Err? ==> r.error == Execution && unchanged(this) && unchanged(context)
      ensures r.Ok? ==> position == 0 && history == [] && Plain()
    {
      if paging.Some? {
        var out := context.ResetPagedKv();
        if out.Err? {
          return out;
        }
      }
      position, history := 0, [];
      return Ok(());
    }
  }

  /** A run that ends with a memory, and where its next chunk starts. */
  ghost predicate RunsTo<E>(d: Device<E>, tokens: seq<nat>, chunkSize: nat, window: nat, kvs: seq<seq<E>>, kv: seq<E>,
                            start: nat)
  {
    && ChunkRun(d, tokens, chunkSize, window, kvs)
    && kvs[|kvs| - 1] == kv && start == Start(|kvs| - 1, chunkSize)
  }

  lemma RunStarts<E>(d: Device<E>, tokens: seq<nat>, chunkSize: nat, window: nat, kv: seq<E>)
    ensures RunsTo(d, tokens, chunkSize, window, [kv], kv, 0)
  {
  }

  /** One more memory, and the end of the run if its chunk reaches the end of the list. */
  lemma RunStep<E>(d: Device<E>, tokens: seq<nat>, chunkSize: nat, window: nat, kvs: seq<seq<E>>, before: seq<E>,
                   kv: seq<E>, start: nat, seen: seq<real>)
    requires RunsTo(d, tokens, chunkSize, window, kvs, before, start) && start < |tokens|
    requires Writes(d, before, start, Piece(tokens, start, chunkSize, window), kv)
    requires PieceEnd(tokens, start, chunkSize, window) <= |kv|
    requires seen == d.logits(kv[..PieceEnd(tokens, start, chunkSize, window)])
    ensures RunsTo(d, tokens, chunkSize, window, kvs + [kv], kv, start + chunkSize)
    ensures |tokens| <= start + chunkSize ==> RunGives(d, tokens, chunkSize, window, kvs + [kv], seen)
  {
    RunGrows(d, tokens, chunkSize, window, kvs, kv, start);
    if |tokens| <= start + chunkSize {
      RunEnds(d, tokens, chunkSize, window, kvs + [kv], start, seen);
    }
  }

  lemma RunEnds<E>(d: Device<E>, tokens: seq<nat>, chunkSize: nat, window: nat, kvs: seq<seq<E>>, start: nat,
                   logits: seq<real>)
    requires ChunkRun(d, tokens, chunkSize, window, kvs) && |kvs| > 1 && start == Start(|kvs| - 2, chunkSize) < |tokens|
    requires |tokens| <= start + chunkSize && PieceEnd(tokens, start, chunkSize, window) <= |kvs[|kvs| - 1]|
    requires logits == d.logits(kvs[|kvs| - 1][..PieceEnd(tokens, start, chunkSize, window)])
    ensures RunGives(d, tokens, chunkSize, window, kvs, logits)
  {
    assert ChunkStep(d, tokens, chunkSize, window, kvs, |kvs| - 2);
  }

  /** Zero up to the position, hidden behind it. */
  method FillCausalAttnBias(pos: nat, maxKv: nat) returns (bias: seq<real>)
    ensures |bias| == AtLeastOne(maxKv) && IsCausal(bias, pos)
  {
    bias := seq(AtLeastOne(maxKv), _ => 0.0);
    for j := 0 to |bias|
      invariant |bias| == AtLeastOne(maxKv)
      invariant forall k :: 0 <= k < |bias| ==> bias[k] == if k <= pos || k >= j then 0.0 else HIDDEN
    {
      if j > pos {
        bias := bias[j := HIDDEN];
      }
    }
  }
}
