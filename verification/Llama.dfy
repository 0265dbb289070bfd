/** The Llama decoder, built layer by layer. */
module Llama {
  import opened Bytes
  import opened Wrappers
  import opened Sequences
  import opened Graph
  import opened Names
  import opened Builder

  datatype Config = Config(numLayers: nat, spec: DecoderSpec, vocabSize: nat)

  // ---- names of layers and of the rest ----

  predicate StartsLikeLayer(name: string) { name != "" && name[0] == 'b' }

  predicate LayerNamed(o: Operation) {
    && StartsLikeLayer(o.id)
    && (forall x :: x in o.outputs ==> StartsLikeLayer(x)) && forall x :: x in o.parameters ==> StartsLikeLayer(x)
  }

  ghost predicate AllLayerNamed(ops: seq<Operation>) { forall o :: o in ops ==> LayerNamed(o) }

  predicate LookUp(layer: nat, s: Stem) { true }

  ghost predicate LayerNaming(n: Naming) {
    forall layer: nat, s {:trigger LookUp(layer, s)} :: LookUp(layer, s) ==>
      && StartsLikeLayer(n.opName(layer, s)) && StartsLikeLayer(n.outName(n.opName(layer, s)))
      && StartsLikeLayer(n.weightName(layer, s))
  }

  lemma StandardNamesAreLayered()
    ensures LayerNaming(StandardNames())
  {
    forall layer: nat, s | LookUp(layer, s)
      ensures StartsLikeLayer(OperationName(layer, s)) && StartsLikeLayer(OutputName(OperationName(layer, s)))
      ensures StartsLikeLayer(WeightName(layer, s))
    {
      LayerNamesStart(layer, s);
    }
  }

  lemma LayerOperationNamed(n: Naming, layer: nat, s: Stem, kind: OpKind, inputs: seq<Handle>, hasOutput: bool,
                            hasWeight: bool)
    requires LayerNaming(n)
    ensures LayerNamed(n.LayerOperation(layer, s, kind, inputs, hasOutput, hasWeight))
  {
    assert LookUp(layer, s);
  }

  lemma AllStepsNamed(n: Naming, layer: nat)
    requires LayerNaming(n)
    ensures forall s, kind, inputs, out, weight :: LayerNamed(n.LayerOperation(layer, s, kind, inputs, out, weight))
  {
    forall s, kind, inputs, out, weight ensures LayerNamed(n.LayerOperation(layer, s, kind, inputs, out, weight)) {
      LayerOperationNamed(n, layer, s, kind, inputs, out, weight);
    }
  }

  lemma NamedConcat(a: seq<Operation>, b: seq<Operation>)
    requires AllLayerNamed(a) && AllLayerNamed(b)
    ensures AllLayerNamed(a + b)
  {
  }

  lemma ProjectNamed(n: Naming, input: Handle, layer: nat, spec: DecoderSpec)
    requires LayerNaming(n)
    ensures AllLayerNamed(n.ProjectInputOps(input, layer, spec))
  {
    AllStepsNamed(n, layer);
  }

  lemma PrepareNamed(n: Naming, query: Handle, key: Handle, layer: nat, hasQkNorm: bool, spec: DecoderSpec)
    requires LayerNaming(n)
    ensures AllLayerNamed(n.PrepareOps(query, key, layer, hasQkNorm, spec))
  {
    AllStepsNamed(n, layer);
  }

  lemma CachedNamed(n: Naming, input: Handle, query: Handle, key: Handle, value: Handle, layer: nat, spec: DecoderSpec)
    requires LayerNaming(n)
    ensures AllLayerNamed(n.CachedOps(input, query, key, value, layer, spec))
  {
    AllStepsNamed(n, layer);
  }

  lemma FeedForwardNamed(n: Naming, input: Handle, layer: nat, spec: DecoderSpec)
    requires LayerNaming(n)
    ensures AllLayerNamed(n.FeedForwardOps(input, layer, spec))
  {
    AllStepsNamed(n, layer);
  }

  lemma BlockNamed(n: Naming, input: Handle, layer: nat, hasQkNorm: bool, spec: DecoderSpec)
    requires LayerNaming(n)
    ensures AllLayerNamed(n.BlockOps(input, layer, hasQkNorm, spec))
  {
    var q, k := n.Out(layer, AttnQ, QueryType(spec)), n.Out(layer, AttnK, KeyType(spec));
    var prepared := n.PreparedPair(q, k, layer, hasQkNorm, spec);
    ProjectNamed(n, input, layer, spec);
    PrepareNamed(n, q, k, layer, hasQkNorm, spec);
    CachedNamed(n, input, prepared.0, prepared.1, n.ValueOf(layer, spec), layer, spec);
    FeedForwardNamed(n, n.Out(layer, AttnResidual, input.tensorType), layer, spec);
    NamedConcat(n.ProjectInputOps(input, layer, spec), n.PrepareOps(q, k, layer, hasQkNorm, spec));
  }

  // ---- the layers, one after the other ----

  /** What goes into a layer: the embedding, or the sum at the end of the layer before. */
  function InputOf(n: Naming, first: Handle, layer: nat): Handle {
    if layer == 0 then first else n.Out(layer - 1, FfnResidual, first.tensorType)
  }

  function LayerOps(n: Naming, first: Handle, count: nat, spec: DecoderSpec): seq<Operation> {
    if count == 0 then []
    else LayerOps(n, first, count - 1, spec) + n.BlockOps(InputOf(n, first, count - 1), count - 1, false, spec)
  }

  lemma LayersGrow(n: Naming, first: Handle, count: nat, spec: DecoderSpec, blocks: seq<Operation>, block: seq<Operation>)
    requires LayerNaming(n) && AllLayerNamed(blocks) && blocks == LayerOps(n, first, count, spec)
    requires n.IsBlock(block, InputOf(n, first, count), count, false, spec)
    ensures blocks + block == LayerOps(n, first, count + 1, spec) && AllLayerNamed(blocks + block)
  {
    OpenBlock(n, InputOf(n, first, count), count, spec, block);
    NamedConcat(blocks, block);
  }

  lemma OpenBlock(n: Naming, input: Handle, layer: nat, spec: DecoderSpec, block: seq<Operation>)
    requires LayerNaming(n) && n.IsBlock(block, input, layer, false, spec)
    ensures block == n.BlockOps(input, layer, false, spec) && AllLayerNamed(block)
  {
    assert LookAt(block);
    BlockNamed(n, input, layer, false, spec);
  }

  // ---- names that are free ----

  /** No operation has, produces or consumes these names. */
  ghost predicate Avoids(ops: seq<Operation>, id: string, value: string, slot: string) {
    forall o :: o in ops ==> o.id != id && value !in o.outputs && slot !in o.parameters
  }

  lemma {:induction false} InFlatMap(f: Operation -> seq<string>, ops: seq<Operation>, x: string)
    requires forall o :: o in ops ==> x !in f(o)
    ensures x !in FlatMap(f, ops)
  {
    if ops != [] {
      InFlatMap(f, ops[1..], x);
      assert ops[0] in ops;
    }
  }

  lemma AvoidedIsFree(p: Parts, id: string, value: string, slot: string)
    requires Built(p) && Avoids(p.operations, id, value, slot)
    ensures id !in OperationIds(p.operations) && value !in ValueIds(p.values) && slot !in SlotIds(p.slots)
  {
    forall o | o in p.operations ensures value !in OutputsOf(o) && slot !in ParametersOf(o) {
    }
    InFlatMap(OutputsOf, p.operations, value);
    InFlatMap(ParametersOf, p.operations, slot);
    forall i | 0 <= i < |p.operations| ensures OperationIds(p.operations)[i] != id {
      assert OperationIds(p.operations)[i] == OperationId(p.operations[i]);
    }
  }

  lemma AvoidsConcat(a: seq<Operation>, b: seq<Operation>, id: string, value: string, slot: string)
    requires Avoids(a, id, value, slot) && Avoids(b, id, value, slot)
    ensures Avoids(a + b, id, value, slot)
  {
  }

  lemma LayersAvoid(ops: seq<Operation>, id: string, value: string, slot: string)
    requires AllLayerNamed(ops)
    requires !StartsLikeLayer(id) && !StartsLikeLayer(value) && !StartsLikeLayer(slot)
    ensures Avoids(ops, id, value, slot)
  {
  }

  /** A graph without names of layers has all of them free. */
  lemma FreshAtFirst(p: Parts, n: Naming)
    requires Built(p) && LayerNaming(n)
    requires forall o :: o in p.operations ==>
      && !StartsLikeLayer(o.id)
      && (forall x :: x in o.outputs ==> !StartsLikeLayer(x)) && forall x :: x in o.parameters ==> !StartsLikeLayer(x)
    ensures n.FreshFrom(p, 0, 0)
  {
    forall layer: nat, s ensures n.Unused(p, layer, s) {
      assert LookUp(layer, s);
      AvoidedIsFree(p, n.opName(layer, s), n.outName(n.opName(layer, s)), n.weightName(layer, s));
    }
  }

  // ---- the architecture ----

  const TOKENS := "tokens"
  const EMBEDDING := "token_embedding"
  const EMBEDDING_WEIGHT := "token_embd.weight"
  const NORM_NAME := "output_norm"
  const NORM_WEIGHT := "output_norm.weight"
  const OUTPUT := "output_projection"
  const OUTPUT_WEIGHT := "output.weight"

  function Embedded(spec: DecoderSpec): Handle { Handle(OutputName(EMBEDDING), Activations(spec.hiddenSize)) }

  function Front(n: Naming): seq<Operation> {
    [Operation("input." + TOKENS, Input, [], [TOKENS], []),
     n.SingleOperation(EMBEDDING, Embedding, Handle(TOKENS, Tokens), EMBEDDING_WEIGHT)]
  }

  function Back(n: Naming, last: Handle, spec: DecoderSpec): seq<Operation> {
    [n.SingleOperation(NORM_NAME, RmsNorm(spec.epsilon), last, NORM_WEIGHT),
     n.SingleOperation(OUTPUT, OutputProjection, Handle(n.outName(NORM_NAME), last.tensorType), OUTPUT_WEIGHT)]
  }

  /** The whole model: embedding, layers, final norm, projection to the vocabulary. */
  function ModelOps(n: Naming, c: Config): seq<Operation> {
    Front(n) + LayerOps(n, Embedded(c.spec), c.numLayers, c.spec)
    + Back(n, InputOf(n, Embedded(c.spec), c.numLayers), c.spec)
  }

  lemma FrontIsForeign(o: Operation)
    requires o in Front(StandardNames())
    ensures !StartsLikeLayer(o.id)
    ensures (forall x :: x in o.outputs ==> !StartsLikeLayer(x)) && forall x :: x in o.parameters ==> !StartsLikeLayer(x)
  {
  }

  lemma FrontAvoidsBack()
    ensures Avoids(Front(StandardNames()), NORM_NAME, OutputName(NORM_NAME), NORM_WEIGHT)
    ensures Avoids(Front(StandardNames()), OUTPUT, OutputName(OUTPUT), OUTPUT_WEIGHT)
  {
  }

  lemma TokensAvoidEmbedding(ops: seq<Operation>)
    requires ops == [Operation("input." + TOKENS, Input, [], [TOKENS], [])]
    ensures Avoids(ops, EMBEDDING, OutputName(EMBEDDING), EMBEDDING_WEIGHT)
  {
  }

  predicate LookAtNaming(n: Naming) { true }

  /** The names are the standard ones, which are looked at only when asked for. */
  ghost predicate IsStandard(n: Naming) {
    forall m {:trigger LookAtNaming(m)} :: LookAtNaming(m) && m == n ==> m == StandardNames()
  }

  // ---- the cache ----

  predicate WritesFor(w: Operation, o: Operation) {
    && o.kind.KvCacheRead? && w.kind == KvCacheWrite(o.kind.layer, o.kind.component) && w.inputs == o.inputs
  }

  ghost predicate WrittenIn(ops: seq<Operation>, o: Operation) { exists w :: w in ops && WritesFor(w, o) }

  /** What is read from the cache of a layer has been written to it before, in the same pass. */
  ghost predicate CacheDiscipline(ops: seq<Operation>) {
    forall k :: 0 <= k < |ops| && ops[k].kind.KvCacheRead? ==> WrittenIn(ops[..k], ops[k])
  }

  predicate NoReads(ops: seq<Operation>) { forall o :: o in ops ==> !o.kind.KvCacheRead? }

  /** The same, looked into only when asked for. */
  ghost predicate Disciplined(ops: seq<Operation>) {
    forall z {:trigger LookAt(z)} :: LookAt(z) && z == ops ==> CacheDiscipline(z)
  }

  lemma DisciplineConcat(a: seq<Operation>, b: seq<Operation>)
    requires Disciplined(a) && Disciplined(b)
    ensures Disciplined(a + b)
  {
    var all := a + b;
    assert LookAt(a) && LookAt(b);
    forall k | 0 <= k < |all| && all[k].kind.KvCacheRead? ensures WrittenIn(all[..k], all[k]) {
      if k < |a| {
        assert all[..k] == a[..k];
      } else {
        assert WrittenIn(b[..k - |a|], b[k - |a|]);
        assert all[..k] == a + b[..k - |a|];
      }
    }
  }

  lemma WritesThenReads(n: Naming, key: Handle, value: Handle, layer: nat)
    ensures Disciplined(n.WriteOps(key, value, layer) + n.ReadOps(key, value, layer))
  {
    var w, d := n.WriteOps(key, value, layer), n.ReadOps(key, value, layer);
    var all := w + d;
    forall k | 0 <= k < |all| && all[k].kind.KvCacheRead? ensures WrittenIn(all[..k], all[k]) {
      assert 2 <= k && all[..k][k - 2] == w[k - 2] && WritesFor(w[k - 2], all[k]);
    }
  }

  lemma NoReadsNeedNoWrites(ops: seq<Operation>)
    requires NoReads(ops)
    ensures Disciplined(ops)
  {
  }

  lemma ProjectDiscipline(n: Naming, input: Handle, layer: nat, spec: DecoderSpec)
    ensures Disciplined(n.ProjectInputOps(input, layer, spec))
  {
    NoReadsNeedNoWrites(n.ProjectInputOps(input, layer, spec));
  }

  lemma PrepareDiscipline(n: Naming, query: Handle, key: Handle, layer: nat, hasQkNorm: bool, spec: DecoderSpec)
    ensures Disciplined(n.PrepareOps(query, key, layer, hasQkNorm, spec))
  {
    NoReadsNeedNoWrites(n.PrepareOps(query, key, layer, hasQkNorm, spec));
  }

  lemma CachedDiscipline(n: Naming, input: Handle, query: Handle, key: Handle, value: Handle, layer: nat, spec: DecoderSpec)
    ensures Disciplined(n.CachedOps(input, query, key, value, layer, spec))
  {
    var keys, cached := n.Out(layer, KeyCacheRead, CacheType(spec)), n.Out(layer, ValueCacheRead, CacheType(spec));
    var after := n.AddOps(input, query, keys, cached, layer, spec);
    NoReadsNeedNoWrites(after);
    WritesThenReads(n, key, value, layer);
    DisciplineConcat(n.WriteOps(key, value, layer) + n.ReadOps(key, value, layer), after);
  }

  lemma FeedForwardDiscipline(n: Naming, input: Handle, layer: nat, spec: DecoderSpec)
    ensures Disciplined(n.FeedForwardOps(input, layer, spec))
  {
    NoReadsNeedNoWrites(n.FeedForwardOps(input, layer, spec));
  }

  lemma AttentionDiscipline(n: Naming, input: Handle, layer: nat, hasQkNorm: bool, spec: DecoderSpec)
    ensures Disciplined(n.AttentionOps(input, layer, hasQkNorm, spec))
  {
    var q, k := n.Out(layer, AttnQ, QueryType(spec)), n.Out(layer, AttnK, KeyType(spec));
    var prepared := n.PreparedPair(q, k, layer, hasQkNorm, spec);
    ProjectDiscipline(n, input, layer, spec);
    PrepareDiscipline(n, q, k, layer, hasQkNorm, spec);
    DisciplineConcat(n.ProjectInputOps(input, layer, spec), n.PrepareOps(q, k, layer, hasQkNorm, spec));
    CachedDiscipline(n, input, prepared.0, prepared.1, n.ValueOf(layer, spec), layer, spec);
    DisciplineConcat(n.ProjectInputOps(input, layer, spec) + n.PrepareOps(q, k, layer, hasQkNorm, spec),
                     n.CachedOps(input, prepared.0, prepared.1, n.ValueOf(layer, spec), layer, spec));
  }

  lemma BlockDiscipline(n: Naming, input: Handle, layer: nat, hasQkNorm: bool, spec: DecoderSpec)
    ensures Disciplined(n.BlockOps(input, layer, hasQkNorm, spec))
  {
    var attended := n.Out(layer, AttnResidual, input.tensorType);
    AttentionDiscipline(n, input, layer, hasQkNorm, spec);
    FeedForwardDiscipline(n, attended, layer, spec);
    DisciplineConcat(n.AttentionOps(input, layer, hasQkNorm, spec), n.FeedForwardOps(attended, layer, spec));
  }

  lemma {:induction false} LayersDiscipline(n: Naming, first: Handle, count: nat, spec: DecoderSpec)
    ensures Disciplined(LayerOps(n, first, count, spec))
  {
    if count == 0 {
      NoReadsNeedNoWrites([]);
    } else {
      LayersDiscipline(n, first, count - 1, spec);
      BlockDiscipline(n, InputOf(n, first, count - 1), count - 1, false, spec);
      DisciplineConcat(LayerOps(n, first, count - 1, spec),
                       n.BlockOps(InputOf(n, first, count - 1), count - 1, false, spec));
    }
  }

  /** In the whole model each layer writes its keys and values before it reads them back. */
  lemma ModelCacheDiscipline(n: Naming, c: Config)
    ensures CacheDiscipline(ModelOps(n, c))
  {
    var layers := LayerOps(n, Embedded(c.spec), c.numLayers, c.spec);
    var back := Back(n, InputOf(n, Embedded(c.spec), c.numLayers), c.spec);
    NoReadsNeedNoWrites(Front(n));
    NoReadsNeedNoWrites(back);
    LayersDiscipline(n, Embedded(c.spec), c.numLayers, c.spec);
    DisciplineConcat(Front(n), layers);
    DisciplineConcat(Front(n) + layers, back);
    assert LookAt(ModelOps(n, c));
  }

  ghost predicate IsNew(p: Parts, primaryInput: Option<string>) { p == Parts([], [], []) && primaryInput.None? }

  lemma FrontLeavesLayersFree(p: Parts, n: Naming)
    requires Sound(p, Some(TOKENS)) && n == StandardNames() && p.operations == Front(n)
    ensures n.FreshFrom(p, 0, 0)
  {
    assert LookInto(p);
    StandardNamesAreLayered();
    forall o | o in p.operations
      ensures !StartsLikeLayer(o.id)
      ensures (forall x :: x in o.outputs ==> !StartsLikeLayer(x)) && forall x :: x in o.parameters ==> !StartsLikeLayer(x)
    {
      FrontIsForeign(o);
    }
    FreshAtFirst(p, n);
  }

  /** The parts of the model, looked at only when asked for. */
  ghost predicate IsFront(ops: seq<Operation>, n: Naming) {
    forall z {:trigger LookAt(z)} :: LookAt(z) && z == ops ==> z == Front(n)
  }

  ghost predicate IsBack(ops: seq<Operation>, n: Naming, last: Handle, spec: DecoderSpec) {
    forall z {:trigger LookAt(z)} :: LookAt(z) && z == ops ==> z == Back(n, last, spec)
  }

  ghost predicate IsModel(ops: seq<Operation>, n: Naming, c: Config) {
    forall z {:trigger LookAt(z)} :: LookAt(z) && z == ops ==> z == ModelOps(n, c)
  }

  lemma ModelParts(front: seq<Operation>, layers: seq<Operation>, back: seq<Operation>, n: Naming, c: Config)
    requires IsFront(front, n) && layers == LayerOps(n, Embedded(c.spec), c.numLayers, c.spec)
    requires IsBack(back, n, InputOf(n, Embedded(c.spec), c.numLayers), c.spec)
    ensures IsModel(front + layers + back, n, c)
  {
    assert LookAt(front) && LookAt(back);
  }

  /** Tokens and embedding. */
  method Begin(b: ModelBuilder, spec: DecoderSpec) returns (r: Result<Handle, Error>, ghost front: seq<Operation>)
    requires IsStandard(b.names) && b.Valid()
    modifies b`slots, b`values, b`operations, b`primaryInput
    ensures r.Ok? ==> b.Valid() && r.value == Embedded(spec) && b.Has(r.value) && b.primaryInput == Some(TOKENS)
    ensures r.Ok? ==> b.operations == old(b.operations) + front && IsFront(front, b.names)
    ensures IsNew(old(b.State()), old(b.primaryInput)) ==> r.Ok? && b.names.FreshFrom(b.State(), 0, 0)
  {
    assert LookAtNaming(b.names);
    front := Front(b.names);
    ghost var start := b.operations;
    ghost var isNew := IsNew(b.State(), b.primaryInput);
    var tokens :- b.InputTokens(TOKENS);
    if isNew {
      assert LookInto(b.State());
      TokensAvoidEmbedding(b.operations);
      AvoidedIsFree(b.State(), EMBEDDING, OutputName(EMBEDDING), EMBEDDING_WEIGHT);
    }
    r := b.Single(EMBEDDING, Embedding, tokens, Slot(EMBEDDING_WEIGHT, "embedding", 2, false),
                  Activations(spec.hiddenSize));
    if r.Ok? {
      assert b.operations == start + front;
      if isNew {
        FrontLeavesLayersFree(b.State(), b.names);
      }
    }
  }

  lemma NormIsFree(p: Parts, n: Naming, layers: seq<Operation>)
    requires Sound(p, Some(TOKENS)) && n == StandardNames() && p.operations == Front(n) + layers && AllLayerNamed(layers)
    ensures && NORM_NAME !in OperationIds(p.operations) && n.outName(NORM_NAME) !in ValueIds(p.values)
            && NORM_WEIGHT !in SlotIds(p.slots)
  {
    assert LookInto(p);
    FrontAvoidsBack();
    LayersAvoid(layers, NORM_NAME, OutputName(NORM_NAME), NORM_WEIGHT);
    AvoidsConcat(Front(n), layers, NORM_NAME, OutputName(NORM_NAME), NORM_WEIGHT);
    AvoidedIsFree(p, NORM_NAME, OutputName(NORM_NAME), NORM_WEIGHT);
  }

  lemma NormAvoidsOutput(o: Operation, n: Naming, spec: DecoderSpec, last: Handle)
    requires n == StandardNames() && o == n.SingleOperation(NORM_NAME, RmsNorm(spec.epsilon), last, NORM_WEIGHT)
    ensures Avoids([o], OUTPUT, OutputName(OUTPUT), OUTPUT_WEIGHT)
  {
  }

  lemma OutputIsFree(p: Parts, n: Naming, layers: seq<Operation>, spec: DecoderSpec, last: Handle)
    requires Sound(p, Some(TOKENS)) && n == StandardNames() && AllLayerNamed(layers)
    requires p.operations == Front(n) + layers + [n.SingleOperation(NORM_NAME, RmsNorm(spec.epsilon), last, NORM_WEIGHT)]
    ensures && OUTPUT !in OperationIds(p.operations) && n.outName(OUTPUT) !in ValueIds(p.values)
            && OUTPUT_WEIGHT !in SlotIds(p.slots)
  {
    assert LookInto(p);
    var norm := n.SingleOperation(NORM_NAME, RmsNorm(spec.epsilon), last, NORM_WEIGHT);
    FrontAvoidsBack();
    LayersAvoid(layers, OUTPUT, OutputName(OUTPUT), OUTPUT_WEIGHT);
    AvoidsConcat(Front(n), layers, OUTPUT, OutputName(OUTPUT), OUTPUT_WEIGHT);
    NormAvoidsOutput(norm, n, spec, last);
    AvoidsConcat(Front(n) + layers, [norm], OUTPUT, OutputName(OUTPUT), OUTPUT_WEIGHT);
    AvoidedIsFree(p, OUTPUT, OutputName(OUTPUT), OUTPUT_WEIGHT);
  }

  /** The final norm and the projection to the vocabulary. */
  method Project(b: ModelBuilder, x: Handle, c: Config, ghost front: seq<Operation>, ghost layers: seq<Operation>)
    returns (r: Result<Handle, Error>, ghost back: seq<Operation>)
    requires IsStandard(b.names) && b.Valid() && b.Has(x) && b.primaryInput == Some(TOKENS)
    requires IsFront(front, b.names) && AllLayerNamed(layers)
    modifies b`slots, b`values, b`operations
    ensures r.Ok? ==> b.Valid() && r.value == Handle(OutputName(OUTPUT), Activations(c.vocabSize)) && b.Has(r.value)
    ensures r.Ok? ==> b.operations == old(b.operations) + back && IsBack(back, b.names, x, c.spec)
    ensures old(b.operations) == front + layers ==> r.Ok?
  {
    assert LookAtNaming(b.names) && LookAt(front);
    back := Back(b.names, x, c.spec);
    ghost var start := b.operations;
    if start == front + layers {
      NormIsFree(b.State(), b.names, layers);
    }
    var norm :- b.Single(NORM_NAME, RmsNorm(c.spec.epsilon), x, Slot(NORM_WEIGHT, "norm", 1, false), x.tensorType);
    if start == front + layers {
      OutputIsFree(b.State(), b.names, layers, c.spec, x);
    }
    r := b.Single(OUTPUT, OutputProjection, norm, Slot(OUTPUT_WEIGHT, "output", 2, false), Activations(c.vocabSize));
    if r.Ok? {
      assert b.operations == start + back;
    }
  }

  /** One more layer. */
  method AddLayer(b: ModelBuilder, x: Handle, first: Handle, layer: nat, spec: DecoderSpec, ghost layers: seq<Operation>)
    returns (r: Result<Handle, Error>, ghost layers': seq<Operation>)
    requires IsStandard(b.names) && b.Valid() && b.Has(x) && x == InputOf(b.names, first, layer)
    requires AllLayerNamed(layers) && layers == LayerOps(b.names, first, layer, spec)
    modifies b`slots, b`values, b`operations
    ensures r.Ok? ==> b.Valid() && r.value == InputOf(b.names, first, layer + 1) && b.Has(r.value)
    ensures r.Ok? ==> AllLayerNamed(layers') && layers' == LayerOps(b.names, first, layer + 1, spec)
    ensures r.Ok? ==> exists block :: b.operations == old(b.operations) + block && layers' == layers + block
    ensures old(b.names.FreshFrom(b.State(), layer, 0)) && spec.Valid() && first.tensorType == Activations(spec.hiddenSize)
            ==> r.Ok? && b.names.FreshFrom(b.State(), layer + 1, 0)
    ensures !spec.Valid() ==> r == Err(BadSpec)
  {
    assert LookAtNaming(b.names);
    layers' := layers;
    StandardNamesAreGood();
    ghost var block;
    r, block := b.DecoderBlock(x, layer, false, spec);
    if r.Ok? {
      StandardNamesAreLayered();
      LayersGrow(b.names, first, layer, spec, layers, block);
      layers' := layers + block;
    }
  }

  /** Everything between the embedding and the final norm. */
  method Layers(b: ModelBuilder, first: Handle, c: Config) returns (r: Result<Handle, Error>, ghost layers: seq<Operation>)
    requires IsStandard(b.names) && b.Valid() && b.Has(first) && first.tensorType == Activations(c.spec.hiddenSize)
    modifies b`slots, b`values, b`operations
    ensures r.Ok? ==> b.Valid() && r.value == InputOf(b.names, first, c.numLayers) && b.Has(r.value)
    ensures r.Ok? ==> b.operations == old(b.operations) + layers && AllLayerNamed(layers)
                      && layers == LayerOps(b.names, first, c.numLayers, c.spec)
    ensures !c.spec.Valid() && c.numLayers > 0 ==> r == Err(BadSpec)
    ensures old(b.names.FreshFrom(b.State(), 0, 0)) && (c.spec.Valid() || c.numLayers == 0) ==> r.Ok?
  {
    var x := first;
    layers := [];
    ghost var start := b.operations;
    ghost var free := b.names.FreshFrom(b.State(), 0, 0);
    for layer := 0 to c.numLayers
      invariant b.Valid() && x == InputOf(b.names, first, layer) && b.Has(x)
      invariant b.operations == start + layers && AllLayerNamed(layers)
      invariant layers == LayerOps(b.names, first, layer, c.spec)
      invariant layer > 0 ==> c.spec.Valid()
      invariant free ==> b.names.FreshFrom(b.State(), layer, 0)
    {
      ghost var before := layers;
      x, layers :- AddLayer(b, x, first, layer, c.spec, layers);
      ghost var block :| b.operations == start + before + block && layers == before + block;
      Associate(start, before, block);
    }
    return Ok(x), layers;
  }

  /** The operations before the final norm. */
  method Trunk(b: ModelBuilder, c: Config)
    returns (r: Result<Handle, Error>, ghost front: seq<Operation>, ghost layers: seq<Operation>)
    requires IsStandard(b.names) && b.Valid()
    modifies b`slots, b`values, b`operations, b`primaryInput
    ensures r.Ok? ==> b.Valid() && b.Has(r.value) && b.primaryInput == Some(TOKENS)
                      && r.value == InputOf(b.names, Embedded(c.spec), c.numLayers)
    ensures r.Ok? ==> b.operations == old(b.operations) + front + layers && IsFront(front, b.names)
                      && AllLayerNamed(layers) && layers == LayerOps(b.names, Embedded(c.spec), c.numLayers, c.spec)
    ensures IsNew(old(b.State()), old(b.primaryInput)) ==>
              if c.spec.Valid() || c.numLayers == 0 then r.Ok? else r == Err(BadSpec)
  {
    layers := [];
    var first;
    first, front :- Begin(b, c.spec);
    r, layers := Layers(b, first, c);
  }

  lemma AfterNothing(start: seq<Operation>, front: seq<Operation>, layers: seq<Operation>, back: seq<Operation>)
    ensures start + front + layers + back == start + (front + layers + back)
    ensures start == [] ==> start + front + layers == front + layers
  {
    AssociateThree(start, front, layers, back);
    assert start == [] ==> start + front == front;
  }

  /** All operations of the model. */
  method Assemble(b: ModelBuilder, c: Config) returns (r: Result<Handle, Error>, ghost model: seq<Operation>)
    requires IsStandard(b.names) && b.Valid()
    modifies b`slots, b`values, b`operations, b`primaryInput
    ensures r.Ok? ==> b.Valid() && b.Has(r.value) && r.value.id == OutputName(OUTPUT) && b.primaryInput == Some(TOKENS)
    ensures r.Ok? ==> b.operations == old(b.operations) + model && IsModel(model, b.names, c)
    ensures IsNew(old(b.State()), old(b.primaryInput)) ==>
              if c.spec.Valid() || c.numLayers == 0 then r.Ok? else r == Err(BadSpec)
  {
    model := [];
    ghost var start := b.operations;
    var x, front, layers :- Trunk(b, c);
    AfterNothing(start, front, layers, []);
    ghost var back;
    r, back := Project(b, x, c, front, layers);
    if r.Ok? {
      model := front + layers + back;
      AfterNothing(start, front, layers, back);
      ModelParts(front, layers, back, b.names, c);
    }
  }

  /**
   * Builds the model.  From a new builder it succeeds for every number of layers and every valid set of dimensions,
   * and the graph conforms, reads only what was produced earlier, and holds exactly the model's operations.
   */
  method Build(b: ModelBuilder, c: Config) returns (r: Result<Graph, Error>, ghost model: seq<Operation>)
    requires IsStandard(b.names) && b.Valid() && b.exports == [] && b.architectureId.Some?
    modifies b
    ensures IsNew(old(b.State()), old(b.primaryInput)) ==>
              if c.spec.Valid() || c.numLayers == 0 then r.Ok? else r == Err(BadSpec)
    ensures r.Ok? ==> Conforms(r.value) && ReadsBefore(r.value.operations)
    ensures r.Ok? ==> r.value.operations == old(b.operations) + model && IsModel(model, b.names, c)
    ensures r.Ok? ==> r.value.exports == StandardExports(TOKENS, OutputName(OUTPUT))
  {
    var logits;
    logits, model :- Assemble(b, c);
    r := Close(b, logits);
  }

  /** The exports, and the check of the graph. */
  method Close(b: ModelBuilder, logits: Handle) returns (r: Result<Graph, Error>)
    requires b.Valid() && b.Has(logits) && b.exports == [] && b.architectureId.Some? && b.primaryInput.Some?
    modifies b
    ensures r.Ok? && Conforms(r.value) && ReadsBefore(r.value.operations) && r.value.operations == old(b.operations)
    ensures r.value.exports == StandardExports(old(b.primaryInput).value, logits.id)
  {
    var exported := b.ExportPrefillAndDecode(logits);
    b.FinishAccepts(b.architectureId.value, logits);
    r := b.Finish();
  }

  /** The model of an architecture, built from scratch. */
  method BuildModel(id: string, c: Config) returns (r: Result<Graph, Error>)
    ensures r.Ok? <==> c.spec.Valid() || c.numLayers == 0
    ensures r.Ok? ==> Conforms(r.value) && ReadsBefore(r.value.operations) && CacheDiscipline(r.value.operations)
    ensures r.Ok? ==> r.value.operations == ModelOps(StandardNames(), c)
                      && r.value.exports == StandardExports(TOKENS, OutputName(OUTPUT))
  {
    var b := new ModelBuilder();
    b.SetArchitectureId(id);
    ghost var model;
    r, model := Build(b, c);
    if r.Ok? {
      assert LookAt(model);
      assert [] + model == model;
      ModelCacheDiscipline(b.names, c);
    }
  }

  /** Widths that fit 32 bits do not wrap: the key width is at most the query width. */
  lemma WidthsAreExact(spec: DecoderSpec)
    requires spec.Valid() && spec.numHeads * spec.headDim < TWO32
    ensures QueryType(spec) == Activations(spec.numHeads * spec.headDim)
    ensures KeyType(spec) == Activations(spec.numKvHeads * spec.headDim)
  {
    assert spec.numHeads == spec.numKvHeads * (spec.numHeads / spec.numKvHeads);
    assert spec.numKvHeads <= spec.numHeads;
    assert spec.numKvHeads * spec.headDim <= spec.numHeads * spec.headDim;
  }
}
