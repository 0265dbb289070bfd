/** The compiled model as the session sees it: key/value entries by position, chunks and single steps.
    The compiled code is unknown; its result depends only on the entries up to the last real token, and it may leave
    anything behind them. */
module Executor {
  import opened Wrappers
  import opened Sequences

  datatype Error = BatchSize | EmptyPrompt | OverWindow | OverLimit | Execution | WrongVocabulary | InvalidToken

  /** The entry of a token after a prefix of entries, the logits after a list of entries, and the token the device
      picks from logits. */
  datatype Device<!E> = Device(entry: (seq<E>, nat) -> E, logits: seq<E> -> seq<real>, pick: seq<real> -> int)

  /** The entries after tokens were added to a prefix one by one. */
  function Extend<E>(d: Device<E>, prefix: seq<E>, tokens: seq<nat>): (r: seq<E>)
    ensures |r| == |prefix| + |tokens| && r[..|prefix|] == prefix
  {
    if tokens == [] then prefix
    else
      var before := Extend(d, prefix, tokens[..|tokens| - 1]);
      before + [d.entry(before, tokens[|tokens| - 1])]
  }

  /** One plain list of tokens, and what the model says after it. */
  function LogitsAfter<E>(d: Device<E>, tokens: seq<nat>): seq<real> { d.logits(Extend(d, [], tokens)) }

  lemma {:induction false} ExtendAppend<E>(d: Device<E>, prefix: seq<E>, a: seq<nat>, b: seq<nat>)
    ensures Extend(d, Extend(d, prefix, a), b) == Extend(d, prefix, a + b)
  {
    if b == [] {
      assert a + b == a;
    } else {
      ExtendAppend(d, prefix, a, b[..|b| - 1]);
      assert (a + b)[..|a + b| - 1] == a + b[..|b| - 1];
    }
  }

  // ---- the bias that hides later positions ----

  const HIDDEN := -10000000.0

  /** The entries whose bias is zero. */
  function Visible<E>(kv: seq<E>, bias: seq<real>): seq<E> {
    if kv == [] || bias == [] then []
    else (if bias[0] == 0.0 then [kv[0]] else []) + Visible(kv[1..], bias[1..])
  }

  ghost predicate IsCausal(bias: seq<real>, pos: int) {
    forall j :: 0 <= j < |bias| ==> bias[j] == if j <= pos then 0.0 else HIDDEN
  }

  /** A causal bias shows exactly the positions up to its own. */
  lemma {:induction false} VisibleIsPrefix<E>(kv: seq<E>, bias: seq<real>, pos: int)
    requires IsCausal(bias, pos) && -1 <= pos < |bias|
    ensures Visible(kv, bias) == kv[..Min(|kv|, pos + 1)]
  {
    if kv != [] && bias != [] {
      if pos >= 0 {
        VisibleIsPrefix(kv[1..], bias[1..], pos - 1);
        assert kv[..Min(|kv|, pos + 1)] == [kv[0]] + kv[1..][..Min(|kv| - 1, pos)];
      } else {
        HiddenAll(kv, bias);
      }
    }
  }

  lemma {:induction false} HiddenAll<E>(kv: seq<E>, bias: seq<real>)
    requires forall j :: 0 <= j < |bias| ==> bias[j] != 0.0
    ensures Visible(kv, bias) == []
  {
    if kv != [] && bias != [] {
      HiddenAll(kv[1..], bias[1..]);
    }
  }

  // ---- chunks ----

  /** One chunk: the entries of the tokens follow those in front, and anything may stand behind. */
  ghost predicate Writes<E>(d: Device<E>, kv: seq<E>, start: nat, tokens: seq<nat>, kv': seq<E>) {
    && |kv'| == |kv| && start + |tokens| <= |kv|
    && kv'[..start] == kv[..start]
    && kv'[..start + |tokens|] == Extend(d, kv[..start], tokens)
  }

  /** The chunk at a start, cut to the window as the session cuts it. */
  function Piece(tokens: seq<nat>, start: nat, chunkSize: nat, window: nat): seq<nat>
    requires start <= |tokens|
  {
    var piece := if |tokens| - start < chunkSize then tokens[start..] else tokens[start..start + chunkSize];
    if |piece| < window then piece else piece[..window]
  }

  /** Where chunk n starts: n times the chunk size. */
  function Start(n: nat, chunkSize: nat): nat {
    if n == 0 then 0 else Start(n - 1, chunkSize) + chunkSize
  }

  lemma {:induction false} StartIsProduct(n: nat, chunkSize: nat)
    ensures Start(n, chunkSize) == n * chunkSize
  {
    if n > 0 {
      StartIsProduct(n - 1, chunkSize);
      assert n * chunkSize == (n - 1) * chunkSize + chunkSize;
    }
  }

  /** Chunk k of a run: the memories before and after it. */
  ghost predicate ChunkStep<E>(d: Device<E>, tokens: seq<nat>, chunkSize: nat, window: nat, kvs: seq<seq<E>>, k: nat) {
    && k + 1 < |kvs| && Start(k, chunkSize) < |tokens|
    && Writes(d, kvs[k], Start(k, chunkSize), Piece(tokens, Start(k, chunkSize), chunkSize, window), kvs[k + 1])
  }

  /** A prefill in chunks: the memory before the first chunk, and after each one. */
  ghost predicate ChunkRun<E>(d: Device<E>, tokens: seq<nat>, chunkSize: nat, window: nat, kvs: seq<seq<E>>) {
    && kvs != []
    && forall k: nat {:trigger ChunkStep(d, tokens, chunkSize, window, kvs, k)} ::
         k + 1 < |kvs| ==> ChunkStep(d, tokens, chunkSize, window, kvs, k)
  }

  /** One more chunk of a run. */
  lemma RunGrows<E>(d: Device<E>, tokens: seq<nat>, chunkSize: nat, window: nat, kvs: seq<seq<E>>, kv: seq<E>,
                    start: nat)
    requires ChunkRun(d, tokens, chunkSize, window, kvs) && start == Start(|kvs| - 1, chunkSize) < |tokens|
    requires Writes(d, kvs[|kvs| - 1], start, Piece(tokens, start, chunkSize, window), kv)
    ensures ChunkRun(d, tokens, chunkSize, window, kvs + [kv])
  {
    forall k: nat | k + 1 < |kvs + [kv]| ensures ChunkStep(d, tokens, chunkSize, window, kvs + [kv], k) {
      if k + 1 < |kvs| {
        StepStays(d, tokens, chunkSize, window, kvs, kv, k);
      } else {
        assert k == |kvs| - 1 && (kvs + [kv])[k] == kvs[k] && (kvs + [kv])[k + 1] == kv;
      }
    }
  }

  lemma StepStays<E>(d: Device<E>, tokens: seq<nat>, chunkSize: nat, window: nat, kvs: seq<seq<E>>, kv: seq<E>, k: nat)
    requires ChunkStep(d, tokens, chunkSize, window, kvs, k)
    ensures ChunkStep(d, tokens, chunkSize, window, kvs + [kv], k)
  {
    assert (kvs + [kv])[k] == kvs[k] && (kvs + [kv])[k + 1] == kvs[k + 1];
  }

  /** A run whose last chunk reaches the end of the list, and the logits it ends with. */
  ghost predicate RunGives<E>(d: Device<E>, tokens: seq<nat>, chunkSize: nat, window: nat, kvs: seq<seq<E>>,
                              logits: seq<real>)
  {
    && ChunkRun(d, tokens, chunkSize, window, kvs)
    && |kvs| > 1 && ChunkStep(d, tokens, chunkSize, window, kvs, |kvs| - 2)
    && var start := Start(|kvs| - 2, chunkSize);
       && |tokens| <= start + chunkSize
       && PieceEnd(tokens, start, chunkSize, window) <= |kvs[|kvs| - 1]|
       && logits == d.logits(kvs[|kvs| - 1][..PieceEnd(tokens, start, chunkSize, window)])
  }

  /** Where the entries of the chunk at a start end. */
  function PieceEnd(tokens: seq<nat>, start: nat, chunkSize: nat, window: nat): nat
    requires start <= |tokens|
  {
    start + |Piece(tokens, start, chunkSize, window)|
  }

  /** Every chunk fits the window. */
  predicate ChunksFit(tokens: seq<nat>, chunkSize: nat, window: nat) {
    chunkSize <= window || |tokens| <= window
  }

  lemma PieceOfFitting(tokens: seq<nat>, start: nat, chunkSize: nat, window: nat)
    requires start <= |tokens| && ChunksFit(tokens, chunkSize, window)
    ensures Piece(tokens, start, chunkSize, window) == tokens[start..Min(|tokens|, start + chunkSize)]
  {
  }

  /** One more fitting chunk after a plain prefix. */
  lemma PrefixGrows<E>(d: Device<E>, kv: seq<E>, kv': seq<E>, tokens: seq<nat>, start: nat, end: nat)
    requires start <= end <= |tokens| && start <= |kv| && kv[..start] == Extend(d, [], tokens[..start])
    requires Writes(d, kv, start, tokens[start..end], kv')
    ensures kv'[..end] == Extend(d, [], tokens[..end])
  {
    ExtendAppend(d, [], tokens[..start], tokens[start..end]);
    assert tokens[..start] + tokens[start..end] == tokens[..end];
  }

  /** Chunks that fit the window write the plain list: after n of them it is there up to their end. */
  lemma {:induction false} FittingRun<E>(d: Device<E>, tokens: seq<nat>, chunkSize: nat, window: nat, kvs: seq<seq<E>>,
                                         n: nat)
    requires ChunkRun(d, tokens, chunkSize, window, kvs) && ChunksFit(tokens, chunkSize, window) && n < |kvs|
    ensures var end := Min(|tokens|, Start(n, chunkSize));
            end <= |kvs[n]| && kvs[n][..end] == Extend(d, [], tokens[..end])
  {
    if n > 0 {
      var start := Start(n - 1, chunkSize);
      FittingRun(d, tokens, chunkSize, window, kvs, n - 1);
      assert ChunkStep(d, tokens, chunkSize, window, kvs, n - 1);
      PieceOfFitting(tokens, start, chunkSize, window);
      PrefixGrows(d, kvs[n - 1], kvs[n], tokens, start, Min(|tokens|, start + chunkSize));
    }
  }

  lemma LastPieceEnds(tokens: seq<nat>, start: nat, chunkSize: nat, window: nat)
    requires start <= |tokens| <= start + chunkSize && ChunksFit(tokens, chunkSize, window)
    ensures PieceEnd(tokens, start, chunkSize, window) == |tokens|
  {
    PieceOfFitting(tokens, start, chunkSize, window);
  }

  /** The list is written as a whole once the next chunk would start behind it. */
  lemma FittingRunEnds<E>(d: Device<E>, tokens: seq<nat>, chunkSize: nat, window: nat, kvs: seq<seq<E>>, n: nat)
    requires ChunkRun(d, tokens, chunkSize, window, kvs) && ChunksFit(tokens, chunkSize, window)
    requires n < |kvs| && |tokens| <= Start(n, chunkSize)
    ensures |tokens| <= |kvs[n]| && kvs[n][..|tokens|] == Extend(d, [], tokens)
  {
    FittingRun(d, tokens, chunkSize, window, kvs, n);
    assert tokens[..|tokens|] == tokens;
  }

  /** Prefill in chunks that fit gives the logits of the plain list: padding is never seen. */
  lemma FittingRunGives<E>(d: Device<E>, tokens: seq<nat>, chunkSize: nat, window: nat, kvs: seq<seq<E>>, logits: seq<real>)
    requires RunGives(d, tokens, chunkSize, window, kvs, logits) && ChunksFit(tokens, chunkSize, window)
    ensures logits == LogitsAfter(d, tokens)
    ensures |tokens| <= |kvs[|kvs| - 1]| && kvs[|kvs| - 1][..|tokens|] == Extend(d, [], tokens)
  {
    var n := |kvs| - 1;
    LastPieceEnds(tokens, Start(n - 1, chunkSize), chunkSize, window);
    FittingRunEnds(d, tokens, chunkSize, window, kvs, n);
  }

  // ---- chunks that do not fit ----

  function Copies<E>(e: E, n: nat): (s: seq<E>)
    ensures |s| == n
  {
    seq(n, _ => e)
  }

  ghost predicate OneEntry<E(!new)>(d: Device<E>, e: E) { forall p, t :: d.entry(p, t) == e }

  lemma {:induction false} CopiesExtend<E(!new)>(d: Device<E>, e: E, prefix: seq<E>, tokens: seq<nat>)
    requires OneEntry(d, e)
    ensures Extend(d, prefix, tokens) == prefix + Copies(e, |tokens|)
  {
    if tokens == [] {
      assert prefix + Copies(e, 0) == prefix;
    } else {
      CopiesExtend(d, e, prefix, tokens[..|tokens| - 1]);
      assert prefix + Copies(e, |tokens|) == prefix + Copies(e, |tokens| - 1) + [e];
    }
  }

  /** A chunk that leaves one value in every place behind its tokens. */
  function Filled<E>(kv: seq<E>, start: nat, size: nat, e: E, filler: E): (r: seq<E>)
    requires start + size <= |kv|
    ensures |r| == |kv| && r[..start] == kv[..start]
  {
    kv[..start] + Copies(e, size) + Copies(filler, |kv| - start - size)
  }

  function FilledRun<E>(tokens: seq<nat>, chunkSize: nat, window: nat, e: E, filler: E, n: nat): (kvs: seq<seq<E>>)
    requires n > 0 ==> Start(n - 1, chunkSize) < |tokens|
    ensures |kvs| == n + 1 && |kvs[n]| == |tokens|
  {
    if n == 0 then [Copies(filler, |tokens|)]
    else
      var before := FilledRun(tokens, chunkSize, window, e, filler, n - 1);
      var start := Start(n - 1, chunkSize);
      before + [Filled(before[n - 1], start, |Piece(tokens, start, chunkSize, window)|, e, filler)]
  }

  lemma FilledWrites<E(!new)>(d: Device<E>, kv: seq<E>, start: nat, piece: seq<nat>, e: E, filler: E)
    requires OneEntry(d, e) && start + |piece| <= |kv|
    ensures Writes(d, kv, start, piece, Filled(kv, start, |piece|, e, filler))
  {
    CopiesExtend(d, e, kv[..start], piece);
    assert Filled(kv, start, |piece|, e, filler)[..start + |piece|] == kv[..start] + Copies(e, |piece|);
  }

  lemma {:induction false} FilledRunIsRun<E(!new)>(d: Device<E>, tokens: seq<nat>, chunkSize: nat, window: nat, e: E,
                                             filler: E, n: nat)
    requires OneEntry(d, e) && (n > 0 ==> Start(n - 1, chunkSize) < |tokens|)
    ensures ChunkRun(d, tokens, chunkSize, window, FilledRun(tokens, chunkSize, window, e, filler, n))
  {
    if n > 0 {
      FilledRunIsRun(d, tokens, chunkSize, window, e, filler, n - 1);
      var before, start := FilledRun(tokens, chunkSize, window, e, filler, n - 1), Start(n - 1, chunkSize);
      var piece := Piece(tokens, start, chunkSize, window);
      FilledWrites(d, before[n - 1], start, piece, e, filler);
      RunGrows(d, tokens, chunkSize, window, before, Filled(before[n - 1], start, |piece|, e, filler), start);
    }
  }

  /** The first place the first chunk did not fill keeps its filler. */
  lemma {:induction false} FillerStays<E>(tokens: seq<nat>, chunkSize: nat, window: nat, e: E, filler: E, n: nat)
    requires n > 0 && Start(n - 1, chunkSize) < |tokens| && window < chunkSize && window < |tokens|
    ensures FilledRun(tokens, chunkSize, window, e, filler, n)[n][window] == filler
  {
    var kvs := FilledRun(tokens, chunkSize, window, e, filler, n);
    if n > 1 {
      FillerStays(tokens, chunkSize, window, e, filler, n - 1);
      assert kvs[n][..Start(n - 1, chunkSize)][window] == kvs[n - 1][..Start(n - 1, chunkSize)][window];
    }
  }

  /** The number of chunks. */
  lemma {:induction false} LastChunk(length: nat, chunkSize: nat, n: nat) returns (last: nat)
    requires chunkSize > 0 && Start(n, chunkSize) < length
    ensures Start(last, chunkSize) < length <= Start(last, chunkSize) + chunkSize
    decreases length - Start(n, chunkSize)
  {
    if length <= Start(n, chunkSize) + chunkSize {
      last := n;
    } else {
      last := LastChunk(length, chunkSize, n + 1);
    }
  }

  /** A run that ends seeing another list of entries. */
  lemma MisfitRun<E(!new)>(d: Device<E>, tokens: seq<nat>, chunkSize: nat, window: nat, e: E, filler: E)
    returns (kvs: seq<seq<E>>, seen: seq<E>)
    requires chunkSize > 0 && !ChunksFit(tokens, chunkSize, window) && OneEntry(d, e) && e != filler
    ensures RunGives(d, tokens, chunkSize, window, kvs, d.logits(seen)) && seen != Copies(e, |tokens|)
  {
    var last;
    kvs, last := MisfitMemory(d, tokens, chunkSize, window, e, filler);
    var end := PieceEnd(tokens, Start(last, chunkSize), chunkSize, window);
    seen := kvs[last + 1][..end];
    SeenIsOther(kvs[last + 1], e, window, end);
  }

  lemma MisfitMemory<E(!new)>(d: Device<E>, tokens: seq<nat>, chunkSize: nat, window: nat, e: E, filler: E)
    returns (kvs: seq<seq<E>>, last: nat)
    requires chunkSize > 0 && !ChunksFit(tokens, chunkSize, window) && OneEntry(d, e) && e != filler
    ensures ChunkRun(d, tokens, chunkSize, window, kvs) && |kvs| == last + 2
    ensures Start(last, chunkSize) < |tokens| <= Start(last, chunkSize) + chunkSize
    ensures |kvs[last + 1]| == |tokens| && kvs[last + 1][window] != e
  {
    last := LastChunk(|tokens|, chunkSize, 0);
    kvs := FilledRun(tokens, chunkSize, window, e, filler, last + 1);
    FilledRunIsRun(d, tokens, chunkSize, window, e, filler, last + 1);
    FillerStays(tokens, chunkSize, window, e, filler, last + 1);
  }

  lemma SeenIsOther<E>(kv: seq<E>, e: E, window: nat, end: nat)
    requires window < |kv| && kv[window] != e && end <= |kv|
    ensures kv[..end] != Copies(e, |kv|)
  {
    if end == |kv| {
      assert kv[..end] == kv && Copies(e, |kv|)[window] == e;
    }
  }

  /** A device with one and the same entry for every token, whose logits tell that many of them from all other lists. */
  ghost function Detector<E>(tokens: seq<nat>, e: E): Device<E> {
    Device((p, t) => e, (p: seq<E>) => if p == Copies(e, |tokens|) then [1.0] else [0.0], (l: seq<real>) => 0)
  }

  /** When some chunk does not fit, there are a device and a run whose logits are not those of the list, whatever the
      entries are, as long as there are two different ones. */
  lemma MisfitGoesWrong<E(!new)>(tokens: seq<nat>, chunkSize: nat, window: nat, e: E, filler: E)
    requires chunkSize > 0 && !ChunksFit(tokens, chunkSize, window) && e != filler
    ensures exists d: Device<E>, kvs, logits ::
      RunGives(d, tokens, chunkSize, window, kvs, logits) && logits != LogitsAfter(d, tokens)
  {
    var d := Detector(tokens, e);
    var kvs, seen := MisfitRun(d, tokens, chunkSize, window, e, filler);
    CopiesExtend(d, e, [], tokens);
    assert [] + Copies(e, |tokens|) == Copies(e, |tokens|);
    assert d.logits(seen)[0] != LogitsAfter(d, tokens)[0];
  }

  ghost predicate AlwaysRight<E(!new)>(tokens: seq<nat>, chunkSize: nat, window: nat) {
    forall d: Device<E>, kvs: seq<seq<E>>, logits ::
      RunGives(d, tokens, chunkSize, window, kvs, logits) ==> logits == LogitsAfter(d, tokens)
  }

  /** For entries of any type with two different values, chunked prefill is right for every device exactly when every
      chunk fits the window. */
  lemma RightIffChunksFit<E(!new)>(tokens: seq<nat>, chunkSize: nat, window: nat, e: E, filler: E)
    requires chunkSize > 0 && e != filler
    ensures AlwaysRight<E>(tokens, chunkSize, window) <==> ChunksFit(tokens, chunkSize, window)
  {
    if ChunksFit(tokens, chunkSize, window) {
      forall d: Device<E>, kvs: seq<seq<E>>, logits | RunGives(d, tokens, chunkSize, window, kvs, logits)
        ensures logits == LogitsAfter(d, tokens)
      {
        FittingRunGives(d, tokens, chunkSize, window, kvs, logits);
      }
    } else {
      MisfitGoesWrong(tokens, chunkSize, window, e, filler);
    }
  }

  // ---- the device's memory ----

  /** The device's memory.  Every call may fail; what a failed or successful call leaves behind the positions it was
      asked for is arbitrary. */
  class Context<E> {
    const device: Device<E>
    const blank: E
    var kv: seq<E>

    constructor (device: Device<E>, blank: E, kv: seq<E>)
      ensures this.device == device && this.kv == kv
    {
      this.device := device;
      this.blank := blank;
      this.kv := kv;
    }

    method ResetPagedKv() returns (r: Result<(), Error>)
      modifies this`kv
      ensures r.Err? ==> r.error == Execution && kv == old(kv)
    {
      var fails: bool := *;
      if fails {
        return Err(Execution);
      }
      kv := *;
      return Ok(());
    }

    /** Memory for a number of positions, without touching the entries there are. */
    method EnsureKvPages(positions: nat) returns (r: Result<(), Error>)
      modifies this`kv
      ensures old(kv) <= kv
      ensures r.Ok? ==> positions <= |kv|
      ensures r.Err? ==> r.error == Execution
    {
      var fails: bool := *;
      if fails {
        return Err(Execution);
      }
      if |kv| < positions {
        kv := kv + seq(positions - |kv|, _ => blank);
      }
      return Ok(());
    }

    /** The entries of the tokens from the start, and anything behind them. */
    method Store(start: nat, entries: seq<E>)
      requires start + |entries| <= |kv|
      modifies this`kv
      ensures |kv| == |old(kv)| && kv[..start] == old(kv)[..start] && kv[start..start + |entries|] == entries
    {
      var spill: seq<E> := *;
      if |spill| != |kv| {
        spill := kv;
      }
      kv := kv[..start] + entries + spill[start + |entries|..];
    }

    method InvokePagedChunkEx(window: seq<nat>, last: nat, start: nat, wantLogits: bool)
      returns (r: Result<(Option<seq<real>>, int), Error>)
      requires last < |window| && start + last < |kv|
      modifies this`kv
      ensures |kv| == |old(kv)| && kv[..start] == old(kv)[..start]
      ensures r.Err? ==> r.error == Execution
      ensures r.Ok? ==> Writes(device, old(kv), start, window[..last + 1], kv)
      ensures r.Ok? ==> var logits := device.logits(kv[..start + last + 1]);
                        r.value == (if wantLogits then Some(logits) else None, device.pick(logits))
    {
      var fails: bool := *;
      if fails {
        Store(start, []);
        return Err(Execution);
      }
      var written := Extend(device, kv[..start], window[..last + 1]);
      Store(start, written[start..]);
      assert kv[..start + last + 1] == kv[..start] + kv[start..start + last + 1] == written;
      var logits := device.logits(kv[..start + last + 1]);
      return Ok((if wantLogits then Some(logits) else None, device.pick(logits)));
    }

    method InvokePrefill(window: seq<nat>, last: nat) returns (r: Result<seq<real>, Error>)
      requires last < |window| && last < |kv|
      modifies this`kv
      ensures |kv| == |old(kv)|
      ensures r.Err? ==> r.error == Execution
      ensures r.Ok? ==> kv[..last + 1] == Extend(device, [], window[..last + 1]) && r.value == device.logits(kv[..last + 1])
    {
      var out :- InvokePagedChunkEx(window, last, 0, true);
      return Ok(out.0.value);
    }

    /** One token at a position, seeing the positions whose bias is zero. */
    method InvokeDecode(token: nat, pos: nat, bias: seq<real>) returns (r: Result<seq<real>, Error>)
      requires pos < |kv|
      modifies this`kv
      ensures |kv| == |old(kv)| && kv[..pos] == old(kv)[..pos]
      ensures r.Err? ==> r.error == Execution
      ensures r.Ok? ==> kv[pos] == device.entry(Visible(old(kv)[..pos], bias), token)
                        && r.value == device.logits(Visible(kv, bias))
    {
      var fails: bool := *;
      if fails {
        Store(pos, []);
        return Err(Execution);
      }
      Store(pos, [device.entry(Visible(kv[..pos], bias), token)]);
      assert kv[pos..pos + 1][0] == kv[pos];
      return Ok(device.logits(Visible(kv, bias)));
    }
  }
}
