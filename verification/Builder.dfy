/** The model builder: typed operations appended to a graph. */
module Builder {
  import opened Bytes
  import opened Wrappers
  import opened Sequences
  import opened Graph
  import opened Names

  datatype Error = DuplicateSlot | DuplicateValue | DuplicateOperation | SecondInput | TypeMismatch | BadSpec | NoInput
                 | NoArchitecture | NotConforming

  /** A handle on a value of the graph. */
  datatype Handle = Handle(id: string, tensorType: TensorType)

  datatype DecoderSpec = DecoderSpec(hiddenSize: nat, intermediateSize: nat, numHeads: nat, numKvHeads: nat, headDim: nat,
                                     epsilon: real, ropeTheta: Option<real>)
  {
    predicate Valid() {
      hiddenSize > 0 && intermediateSize > 0 && numHeads > 0 && numKvHeads > 0 && headDim > 0 && numHeads % numKvHeads == 0
    }
  }

  datatype ShortConvSpec = ShortConvSpec(hiddenSize: nat, channels: nat, kernelSize: nat, epsilon: real)
  {
    predicate Valid() { hiddenSize > 0 && channels > 0 && kernelSize > 0 }
  }

  /** Multiplication of 32-bit numbers, which wraps. */
  function MulU32(a: nat, b: nat): nat { a * b % TWO32 }

  // ---- what every successful step keeps ----

  datatype Parts = Parts(slots: seq<Slot>, values: seq<GraphValue>, operations: seq<Operation>)

  /** Operations read only what was produced earlier. */
  ghost predicate ReadsBefore(ops: seq<Operation>) {
    forall k :: 0 <= k < |ops| ==> Among(ops[k].inputs, Outputs(ops[..k]))
  }

  /** Values are produced and slots consumed once, in the order of their declaration. */
  ghost predicate Built(p: Parts) {
    && Distinct(ValueIds(p.values)) && Distinct(SlotIds(p.slots)) && Distinct(OperationIds(p.operations))
    && Outputs(p.operations) == ValueIds(p.values) && Consumed(p.operations) == SlotIds(p.slots)
    && (forall s :: s in p.slots ==> !s.optional)
    && ReadsBefore(p.operations)
    && forall o :: o in p.operations && IsBinary(o.kind) ==> EqualOperands(p.values, o)
  }

  function Added(p: Parts, slots: seq<Slot>, values: seq<GraphValue>, o: Operation): Parts {
    Parts(p.slots + slots, p.values + values, p.operations + [o])
  }

  /** None of the names is taken. */
  predicate Free(p: Parts, operation: string, values: seq<string>, slots: seq<string>) {
    && operation !in OperationIds(p.operations)
    && (forall v :: v in values ==> v !in ValueIds(p.values))
    && forall s :: s in slots ==> s !in SlotIds(p.slots)
  }

  lemma {:induction false} TypesStay(values: seq<GraphValue>, v: GraphValue, id: string)
    requires id != v.id
    ensures TypeOf(values + [v], id) == TypeOf(values, id)
  {
    assert (values + [v])[..|values|] == values;
  }

  lemma OperandsStay(values: seq<GraphValue>, more: seq<GraphValue>, o: Operation)
    requires |more| <= 1 && EqualOperands(values, o) && Among(o.inputs, ValueIds(values))
    requires forall v :: v in ValueIds(more) ==> v !in ValueIds(values)
    ensures EqualOperands(values + more, o)
  {
    if more == [] {
      assert values + more == values;
    } else {
      assert ValueIds(more)[0] == ValueId(more[0]) && ValueIds(more)[0] in ValueIds(more);
      assert o.inputs[0] in o.inputs && o.inputs[1] in o.inputs;
      assert values + more == values + [more[0]];
      TypesStay(values, more[0], o.inputs[0]);
      TypesStay(values, more[0], o.inputs[1]);
    }
  }

  lemma PrefixOutputs(ops: seq<Operation>, k: nat, x: string)
    requires k <= |ops| && x in Outputs(ops[..k])
    ensures x in Outputs(ops)
  {
    FlatMapAppend(OutputsOf, ops[..k], ops[k..]);
    assert ops == ops[..k] + ops[k..];
  }

  lemma EarlierIsKnown(ops: seq<Operation>, k: nat)
    requires ReadsBefore(ops) && k < |ops|
    ensures Among(ops[k].inputs, Outputs(ops))
  {
    forall x | x in ops[k].inputs ensures x in Outputs(ops) {
      PrefixOutputs(ops, k, x);
    }
  }

  lemma InputsKnown(p: Parts, o: Operation)
    requires Built(p) && o in p.operations
    ensures Among(o.inputs, ValueIds(p.values))
  {
    var k :| 0 <= k < |p.operations| && p.operations[k] == o;
    EarlierIsKnown(p.operations, k);
  }

  lemma OperandsAfter(p: Parts, values: seq<GraphValue>, o: Operation)
    requires Built(p) && |values| <= 1 && (IsBinary(o.kind) ==> EqualOperands(p.values, o))
    requires Among(o.inputs, ValueIds(p.values)) && forall v :: v in ValueIds(values) ==> v !in ValueIds(p.values)
    ensures forall x :: x in p.operations + [o] && IsBinary(x.kind) ==> EqualOperands(p.values + values, x)
  {
    forall x | x in p.operations + [o] && IsBinary(x.kind) ensures EqualOperands(p.values + values, x) {
      if x in p.operations {
        InputsKnown(p, x);
      }
      OperandsStay(p.values, values, x);
    }
  }

  lemma IdsGrow<T>(id: T -> string, s: seq<T>, more: seq<T>)
    requires |more| <= 1 && Distinct(Ids(id, s)) && forall x :: x in Ids(id, more) ==> x !in Ids(id, s)
    ensures Ids(id, s + more) == Ids(id, s) + Ids(id, more) && Distinct(Ids(id, s + more))
  {
    if more == [] {
      assert s + more == s;
    } else {
      assert more == [more[0]] && Ids(id, more) == [id(more[0])] && id(more[0]) in Ids(id, more);
      IdsAppend(id, s, more[0]);
      DistinctAppend(Ids(id, s), id(more[0]));
    }
  }

  lemma ReadsBeforeGrows(ops: seq<Operation>, o: Operation)
    requires ReadsBefore(ops) && Among(o.inputs, Outputs(ops))
    ensures ReadsBefore(ops + [o])
  {
    var all := ops + [o];
    forall k | 0 <= k < |all| ensures Among(all[k].inputs, Outputs(all[..k])) {
      assert all[..k] == ops[..k];
      assert ops[..|ops|] == ops;
    }
  }

  /** Adding an operation with what it consumes and produces keeps a graph built. */
  lemma StepKeepsBuilt(p: Parts, slots: seq<Slot>, values: seq<GraphValue>, o: Operation)
    requires Built(p) && |slots| <= 1 && |values| <= 1 && Free(p, o.id, ValueIds(values), SlotIds(slots))
    requires o.outputs == ValueIds(values) && o.parameters == SlotIds(slots) && (forall s :: s in slots ==> !s.optional)
    requires Among(o.inputs, ValueIds(p.values)) && (IsBinary(o.kind) ==> EqualOperands(p.values, o))
    ensures Built(Added(p, slots, values, o))
  {
    IdsGrow(ValueId, p.values, values);
    IdsGrow(SlotId, p.slots, slots);
    IdsAppend(OperationId, p.operations, o);
    DistinctAppend(OperationIds(p.operations), o.id);
    FlatMapAppend(OutputsOf, p.operations, [o]);
    FlatMapOne(OutputsOf, o);
    FlatMapAppend(ParametersOf, p.operations, [o]);
    FlatMapOne(ParametersOf, o);
    ReadsBeforeGrows(p.operations, o);
    OperandsAfter(p, values, o);
  }

  lemma InputKeepsBuilt(p: Parts, name: string, o: Operation)
    requires Built(p) && name !in ValueIds(p.values) && o.id !in OperationIds(p.operations)
    requires o.kind == Input && o.inputs == [] && o.outputs == [name] && o.parameters == []
    ensures Built(Parts(p.slots, p.values + [GraphValue(name, Tokens)], p.operations + [o]))
    ensures name in ValueIds(p.values + [GraphValue(name, Tokens)])
  {
    var v := GraphValue(name, Tokens);
    assert ValueIds([v])[0] == ValueId(v);
    assert ValueIds([v]) == [name] && SlotIds([]) == [];
    StepKeepsBuilt(p, [], [v], o);
    assert p.slots + [] == p.slots;
    IdsAppend(ValueId, p.values, v);
  }

  // ---- finished graphs ----

  function GraphOf(id: string, p: Parts, exports: seq<Export>): Graph {
    Graph(1, id, p.values, p.operations, p.slots, exports)
  }

  function StandardExports(input: string, logits: string): seq<Export> {
    [Export("prefill", Prefill, [input], [logits]), Export("decode", Decode, [input], [logits])]
  }

  lemma BuiltOperationOk(p: Parts, id: string, exports: seq<Export>, o: Operation)
    requires Built(p) && o in p.operations
    ensures OperationOk(GraphOf(id, p, exports), o)
  {
    InputsKnown(p, o);
    var k :| 0 <= k < |p.operations| && p.operations[k] == o;
    var ops := p.operations;
    FlatMapStep(OutputsOf, ops, k);
    FlatMapStep(ParametersOf, ops, k);
    FlatMapAppend(OutputsOf, ops[..k + 1], ops[k + 1..]);
    FlatMapAppend(ParametersOf, ops[..k + 1], ops[k + 1..]);
    assert ops == ops[..k + 1] + ops[k + 1..];
  }

  /** A built graph with the standard exports is accepted by the verifier. */
  lemma BuiltConforms(p: Parts, id: string, input: string, logits: string)
    requires Built(p) && input in ValueIds(p.values) && logits in ValueIds(p.values)
    ensures Conforms(GraphOf(id, p, StandardExports(input, logits)))
  {
    var exports := StandardExports(input, logits);
    var g := GraphOf(id, p, exports);
    forall o | o in p.operations ensures OperationOk(g, o) {
      BuiltOperationOk(p, id, exports, o);
    }
    forall s | s in p.slots ensures s.id in Consumed(p.operations) {
      var k :| 0 <= k < |p.slots| && p.slots[k] == s;
      assert SlotIds(p.slots)[k] == SlotId(s);
    }
    assert Ids(ExportName, exports)[0] == ExportName(exports[0]) == "prefill";
    assert Ids(ExportName, exports)[1] == ExportName(exports[1]) == "decode";
    assert exports[0] in exports && exports[1] in exports;
  }

  lemma NotAdded(x: string, names: seq<string>, more: seq<string>, y: string)
    requires x !in names && x != y && forall m :: m in more ==> m == y
    ensures x !in names + more
  {
  }

  lemma IdsConcat<T>(id: T -> string, s: seq<T>, more: seq<T>)
    ensures Ids(id, s + more) == Ids(id, s) + Ids(id, more)
  {
  }

  lemma AssociateThree<T>(a: seq<T>, b: seq<T>, c: seq<T>, d: seq<T>)
    ensures a + b + c + d == a + (b + c + d)
  {
    Associate(a, b + c, d);
    Associate(a, b, c);
  }

  predicate LookAt(ops: seq<Operation>) { true }

  function QueryType(spec: DecoderSpec): TensorType { Activations(MulU32(spec.numHeads, spec.headDim)) }

  function KeyType(spec: DecoderSpec): TensorType { Activations(MulU32(spec.numKvHeads, spec.headDim)) }

  function InnerType(spec: DecoderSpec): TensorType { Activations(spec.intermediateSize) }

  function CacheType(spec: DecoderSpec): TensorType { KvCache(spec.numKvHeads, spec.headDim) }

  lemma IdsOfSlots(slot: Option<Slot>)
    ensures SlotIds(SlotsFor(slot)) == if slot.Some? then [slot.value.id] else []
  {
    if slot.Some? {
      assert SlotIds(SlotsFor(slot))[0] == SlotId(SlotsFor(slot)[0]);
    }
  }

  // ---- names of layers ----

  predicate LookForNames(p: Parts) { true }

  predicate Apart(k: nat, s: Stem, l: nat, t: Stem) { true }

  /** How operations, their outputs and their weights are named. */
  datatype Naming = Naming(opName: (nat, Stem) -> string, outName: string -> string, weightName: (nat, Stem) -> string)
  {
    /** Different operations have different names, outputs and weights. */
    ghost predicate Good() {
      forall k: nat, s, l: nat, t {:trigger Apart(k, s, l, t)} :: Apart(k, s, l, t) && (k, s) != (l, t) ==>
        && opName(k, s) != opName(l, t) && outName(opName(k, s)) != outName(opName(l, t))
        && weightName(k, s) != weightName(l, t)
    }

    predicate Unused(p: Parts, layer: nat, s: Stem) {
      && opName(layer, s) !in OperationIds(p.operations)
      && outName(opName(layer, s)) !in ValueIds(p.values)
      && weightName(layer, s) !in SlotIds(p.slots)
    }

    /** No name of a later layer is taken, and of this layer only names of earlier stages. */
    ghost predicate NoNamesFrom(p: Parts, layer: nat, stage: nat) {
      forall l: nat, s :: l > layer || (l == layer && Stage(s) >= stage) ==> Unused(p, l, s)
    }

    ghost predicate FreshFrom(p: Parts, layer: nat, stage: nat) {
      forall q {:trigger LookForNames(q)} :: LookForNames(q) && q == p ==> NoNamesFrom(q, layer, stage)
    }

    /** The names that are taken in addition. */
    lemma TakesNames(p: Parts, slots: seq<Slot>, values: seq<GraphValue>, o: Operation, layer: nat, s: Stem, l: nat,
                     t: Stem)
      requires Good() && Unused(p, l, t) && (l, t) != (layer, s)
      requires o.id == opName(layer, s)
      requires forall v :: v in ValueIds(values) ==> v == outName(o.id)
      requires forall w :: w in SlotIds(slots) ==> w == weightName(layer, s)
      requires |slots| <= 1 && |values| <= 1
      ensures Unused(Added(p, slots, values, o), l, t)
    {
      assert Apart(layer, s, l, t);
      IdsAppend(OperationId, p.operations, o);
      IdsConcat(ValueId, p.values, values);
      IdsConcat(SlotId, p.slots, slots);
      assert OperationId(o) == o.id;
      NotAdded(opName(l, t), OperationIds(p.operations), [o.id], o.id);
      NotAdded(outName(opName(l, t)), ValueIds(p.values), ValueIds(values), outName(o.id));
      NotAdded(weightName(l, t), SlotIds(p.slots), SlotIds(slots), weightName(layer, s));
    }

    lemma TakesStem(p: Parts, slots: seq<Slot>, values: seq<GraphValue>, o: Operation, layer: nat, s: Stem, stage: nat)
      requires Good() && FreshFrom(p, layer, stage) && stage <= Stage(s) && o.id == opName(layer, s)
      requires forall v :: v in ValueIds(values) ==> v == outName(o.id)
      requires forall w :: w in SlotIds(slots) ==> w == weightName(layer, s)
      requires |slots| <= 1 && |values| <= 1
      ensures FreshFrom(Added(p, slots, values, o), layer, Stage(s) + 1)
    {
      assert LookForNames(p);
      forall l: nat, t | l > layer || (l == layer && Stage(t) >= Stage(s) + 1)
        ensures Unused(Added(p, slots, values, o), l, t) {
        TakesNames(p, slots, values, o, layer, s, l, t);
      }
    }

    function ValuesFor(id: string, output: Option<TensorType>): (v: seq<GraphValue>)
      ensures |v| <= 1
    {
      if output.Some? then [GraphValue(outName(id), output.value)] else []
    }

    function NewOperation(id: string, kind: OpKind, inputs: seq<Handle>, output: Option<TensorType>, weight: Option<Slot>)
      : Operation
    {
      Operation(id, kind, HandleIds(inputs), ValueIds(ValuesFor(id, output)), SlotIds(SlotsFor(weight)))
    }

    function Out(layer: nat, s: Stem, tensorType: TensorType): Handle {
      Handle(outName(opName(layer, s)), tensorType)
    }

    /** An operation with a weight and an output, and one with an output only. */
    function Weighted(layer: nat, s: Stem, kind: OpKind, inputs: seq<Handle>): Operation {
      LayerOperation(layer, s, kind, inputs, true, true)
    }

    function Plain(layer: nat, s: Stem, kind: OpKind, inputs: seq<Handle>): Operation {
      LayerOperation(layer, s, kind, inputs, true, false)
    }

    function ValueOf(layer: nat, spec: DecoderSpec): Handle { Out(layer, AttnV, KeyType(spec)) }

    /** Query, key and value are projected from the normalized input. */
    function ProjectOps(x: Handle, layer: nat, spec: DecoderSpec): seq<Operation> {
      [Weighted(layer, AttnQ, Linear("q"), [x]), Weighted(layer, AttnK, Linear("k"), [x]),
       Weighted(layer, AttnV, Linear("v"), [x])]
    }

    function NormOps(query: Handle, key: Handle, layer: nat, spec: DecoderSpec): seq<Operation> {
      [Weighted(layer, AttnQNorm, PerHeadRmsNorm(spec.epsilon, spec.numHeads, spec.headDim), [query]),
       Weighted(layer, AttnKNorm, PerHeadRmsNorm(spec.epsilon, spec.numKvHeads, spec.headDim), [key])]
    }

    function RopeOps(query: Handle, key: Handle, layer: nat, spec: DecoderSpec, theta: real): seq<Operation> {
      [Plain(layer, AttnQRope, Rope(spec.numHeads, spec.headDim, theta), [query]),
       Plain(layer, AttnKRope, Rope(spec.numKvHeads, spec.headDim, theta), [key])]
    }

    function WriteOps(key: Handle, value: Handle, layer: nat): seq<Operation> {
      [LayerOperation(layer, KeyCacheWrite, OpKind.KvCacheWrite(layer, Key), [key], false, false),
       LayerOperation(layer, ValueCacheWrite, OpKind.KvCacheWrite(layer, Component.Value), [value], false, false)]
    }

    function ReadOps(key: Handle, value: Handle, layer: nat): seq<Operation> {
      [Plain(layer, KeyCacheRead, OpKind.KvCacheRead(layer, Key), [key]),
       Plain(layer, ValueCacheRead, OpKind.KvCacheRead(layer, Component.Value), [value])]
    }

    function MixOps(query: Handle, keys: Handle, cached: Handle, layer: nat, spec: DecoderSpec): seq<Operation> {
      [Plain(layer, Attended, Attention(spec.numHeads, spec.numKvHeads, spec.headDim), [query, keys, cached]),
       Weighted(layer, AttnOutput, Linear("o"), [Out(layer, Attended, QueryType(spec))])]
    }

    function AddOps(input: Handle, query: Handle, keys: Handle, cached: Handle, layer: nat, spec: DecoderSpec)
      : seq<Operation>
    {
      MixOps(query, keys, cached, layer, spec)
      + [Plain(layer, AttnResidual, Residual, [input, Out(layer, AttnOutput, Activations(spec.hiddenSize))])]
    }

    function ProjectInputOps(input: Handle, layer: nat, spec: DecoderSpec): seq<Operation> {
      [Weighted(layer, AttnNorm, RmsNorm(spec.epsilon), [input])]
      + ProjectOps(Out(layer, AttnNorm, input.tensorType), layer, spec)
    }

    function PreparedPair(query: Handle, key: Handle, layer: nat, hasQkNorm: bool, spec: DecoderSpec): (Handle, Handle) {
      if spec.ropeTheta.Some? then (Out(layer, AttnQRope, query.tensorType), Out(layer, AttnKRope, key.tensorType))
      else NormedPair(query, key, layer, hasQkNorm)
    }

    function NormedPair(query: Handle, key: Handle, layer: nat, hasQkNorm: bool): (Handle, Handle) {
      if hasQkNorm then (Out(layer, AttnQNorm, query.tensorType), Out(layer, AttnKNorm, key.tensorType)) else (query, key)
    }

    function PrepareOps(query: Handle, key: Handle, layer: nat, hasQkNorm: bool, spec: DecoderSpec): seq<Operation> {
      var normed := NormedPair(query, key, layer, hasQkNorm);
      (if hasQkNorm then NormOps(query, key, layer, spec) else [])
      + (if spec.ropeTheta.Some? then RopeOps(normed.0, normed.1, layer, spec, spec.ropeTheta.value) else [])
    }

    function CachedOps(input: Handle, query: Handle, key: Handle, value: Handle, layer: nat, spec: DecoderSpec)
      : seq<Operation>
    {
      WriteOps(key, value, layer) + ReadOps(key, value, layer)
      + AddOps(input, query, Out(layer, KeyCacheRead, CacheType(spec)), Out(layer, ValueCacheRead, CacheType(spec)),
               layer, spec)
    }

    /** The attention half: what is normalized, projected, prepared, cached, attended to and added. */
    function AttentionOps(input: Handle, layer: nat, hasQkNorm: bool, spec: DecoderSpec): seq<Operation> {
      var q, k := Out(layer, AttnQ, QueryType(spec)), Out(layer, AttnK, KeyType(spec));
      var prepared := PreparedPair(q, k, layer, hasQkNorm, spec);
      ProjectInputOps(input, layer, spec) + PrepareOps(q, k, layer, hasQkNorm, spec)
      + CachedOps(input, prepared.0, prepared.1, ValueOf(layer, spec), layer, spec)
    }

    /** The operations are the ones listed, looked at only when asked for. */
    ghost predicate IsProject(ops: seq<Operation>, x: Handle, layer: nat, spec: DecoderSpec) {
      forall z {:trigger LookAt(z)} :: LookAt(z) && z == ops ==> z == ProjectOps(x, layer, spec)
    }

    ghost predicate IsPrepare(ops: seq<Operation>, query: Handle, key: Handle, layer: nat, hasQkNorm: bool,
                              spec: DecoderSpec) {
      forall z {:trigger LookAt(z)} :: LookAt(z) && z == ops ==> z == PrepareOps(query, key, layer, hasQkNorm, spec)
    }

    ghost predicate IsWrite(ops: seq<Operation>, key: Handle, value: Handle, layer: nat) {
      forall z {:trigger LookAt(z)} :: LookAt(z) && z == ops ==> z == WriteOps(key, value, layer)
    }

    ghost predicate IsRead(ops: seq<Operation>, key: Handle, value: Handle, layer: nat) {
      forall z {:trigger LookAt(z)} :: LookAt(z) && z == ops ==> z == ReadOps(key, value, layer)
    }

    ghost predicate IsAdd(ops: seq<Operation>, input: Handle, query: Handle, keys: Handle, cached: Handle, layer: nat,
                          spec: DecoderSpec)
    {
      forall z {:trigger LookAt(z)} :: LookAt(z) && z == ops ==> z == AddOps(input, query, keys, cached, layer, spec)
    }

    ghost predicate IsCached(ops: seq<Operation>, input: Handle, query: Handle, key: Handle, value: Handle, layer: nat,
                             spec: DecoderSpec)
    {
      forall z {:trigger LookAt(z)} :: LookAt(z) && z == ops ==> z == CachedOps(input, query, key, value, layer, spec)
    }

    ghost predicate IsAttention(ops: seq<Operation>, input: Handle, layer: nat, hasQkNorm: bool, spec: DecoderSpec) {
      forall z {:trigger LookAt(z)} :: LookAt(z) && z == ops ==> z == AttentionOps(input, layer, hasQkNorm, spec)
    }

    lemma CachedParts(w: seq<Operation>, d: seq<Operation>, e: seq<Operation>, input: Handle, query: Handle, key: Handle,
                      value: Handle, layer: nat, spec: DecoderSpec)
      requires IsWrite(w, key, value, layer) && IsRead(d, key, value, layer)
      requires IsAdd(e, input, query, Out(layer, KeyCacheRead, CacheType(spec)),
                     Out(layer, ValueCacheRead, CacheType(spec)),
                     layer, spec)
      ensures IsCached(w + d + e, input, query, key, value, layer, spec)
    {
      assert LookAt(w) && LookAt(d) && LookAt(e);
    }

    ghost predicate IsMix(ops: seq<Operation>, query: Handle, keys: Handle, cached: Handle, layer: nat, spec: DecoderSpec) {
      forall z {:trigger LookAt(z)} :: LookAt(z) && z == ops ==> z == MixOps(query, keys, cached, layer, spec)
    }

    ghost predicate IsProjectInput(ops: seq<Operation>, input: Handle, layer: nat, spec: DecoderSpec) {
      forall z {:trigger LookAt(z)} :: LookAt(z) && z == ops ==> z == ProjectInputOps(input, layer, spec)
    }

    lemma AddParts(m: seq<Operation>, last: seq<Operation>, input: Handle, query: Handle, keys: Handle, cached: Handle,
                   layer: nat, spec: DecoderSpec)
      requires IsMix(m, query, keys, cached, layer, spec)
      requires last == [Plain(layer, AttnResidual, Residual, [input, Out(layer, AttnOutput, Activations(spec.hiddenSize))])]
      ensures IsAdd(m + last, input, query, keys, cached, layer, spec)
    {
      assert LookAt(m);
    }

    lemma ProjectInputParts(n: seq<Operation>, p: seq<Operation>, input: Handle, layer: nat, spec: DecoderSpec)
      requires n == [Weighted(layer, AttnNorm, RmsNorm(spec.epsilon), [input])]
      requires IsProject(p, Out(layer, AttnNorm, input.tensorType), layer, spec)
      ensures IsProjectInput(n + p, input, layer, spec)
    {
      assert LookAt(p);
    }

    lemma AttentionParts(p: seq<Operation>, q: seq<Operation>, c: seq<Operation>, input: Handle, layer: nat,
                         hasQkNorm: bool, spec: DecoderSpec)
      requires IsProjectInput(p, input, layer, spec)
      requires IsPrepare(q, Out(layer, AttnQ, QueryType(spec)), Out(layer, AttnK, KeyType(spec)), layer, hasQkNorm, spec)
      requires var prepared := PreparedPair(Out(layer, AttnQ, QueryType(spec)), Out(layer, AttnK, KeyType(spec)), layer,
                                            hasQkNorm, spec);
               IsCached(c, input, prepared.0, prepared.1, ValueOf(layer, spec), layer, spec)
      ensures IsAttention(p + q + c, input, layer, hasQkNorm, spec)
    {
      assert LookAt(p) && LookAt(q) && LookAt(c);
    }

    // ---- feed-forward and short convolution ----

    function BranchOps(x: Handle, layer: nat): seq<Operation> {
      [Weighted(layer, FfnGate, Linear("gate"), [x]), Weighted(layer, FfnUp, Linear("up"), [x])]
    }

    function GateAndUpOps(input: Handle, layer: nat, spec: DecoderSpec): seq<Operation> {
      [Weighted(layer, FfnNorm, RmsNorm(spec.epsilon), [input])] + BranchOps(Out(layer, FfnNorm, input.tensorType), layer)
    }

    function ActivateOps(gate: Handle, up: Handle, layer: nat): seq<Operation> {
      [Plain(layer, FfnSilu, Silu, [gate]),
       Plain(layer, FfnMultiply, Multiply, [Out(layer, FfnSilu, gate.tensorType), up])]
    }

    function DownAndAddOps(input: Handle, gated: Handle, layer: nat, spec: DecoderSpec): seq<Operation> {
      [Weighted(layer, FfnDown, Linear("down"), [gated]),
       Plain(layer, FfnResidual, Residual, [input, Out(layer, FfnDown, Activations(spec.hiddenSize))])]
    }

    function NarrowOps(input: Handle, gate: Handle, up: Handle, layer: nat, spec: DecoderSpec): seq<Operation> {
      ActivateOps(gate, up, layer) + DownAndAddOps(input, Out(layer, FfnMultiply, gate.tensorType), layer, spec)
    }

    function FeedForwardOps(input: Handle, layer: nat, spec: DecoderSpec): seq<Operation> {
      GateAndUpOps(input, layer, spec)
      + NarrowOps(input, Out(layer, FfnGate, InnerType(spec)), Out(layer, FfnUp, InnerType(spec)), layer, spec)
    }

    /** A whole decoder layer. */
    function BlockOps(input: Handle, layer: nat, hasQkNorm: bool, spec: DecoderSpec): seq<Operation> {
      AttentionOps(input, layer, hasQkNorm, spec) + FeedForwardOps(Out(layer, AttnResidual, input.tensorType), layer, spec)
    }

    function GatesType(spec: ShortConvSpec): TensorType { Activations(MulU32(3, spec.channels)) }

    function GatesOps(input: Handle, layer: nat, spec: ShortConvSpec): seq<Operation> {
      [Weighted(layer, AttnNorm, RmsNorm(spec.epsilon), [input]),
       Weighted(layer, ShortConvIn, Linear("shortconv.in"), [Out(layer, AttnNorm, input.tensorType)])]
    }

    function MixOperation(layer: nat, spec: ShortConvSpec): Operation {
      Weighted(layer, ShortConvMix, ShortConv(layer, spec.channels, spec.kernelSize),
               [Out(layer, ShortConvIn, GatesType(spec))])
    }

    function OutAndAddOps(input: Handle, mixed: Handle, layer: nat, spec: ShortConvSpec): seq<Operation> {
      [Weighted(layer, ShortConvOut, Linear("shortconv.out"), [mixed]),
       Plain(layer, ShortConvResidual, Residual, [input, Out(layer, ShortConvOut, Activations(spec.hiddenSize))])]
    }

    function ConvolveOps(input: Handle, layer: nat, spec: ShortConvSpec): seq<Operation> {
      [MixOperation(layer, spec)]
      + OutAndAddOps(input, Out(layer, ShortConvMix, Activations(spec.channels)), layer, spec)
    }

    function ShortConvOps(input: Handle, layer: nat, spec: ShortConvSpec): seq<Operation> {
      GatesOps(input, layer, spec) + ConvolveOps(input, layer, spec)
    }

    ghost predicate IsGateAndUp(ops: seq<Operation>, input: Handle, layer: nat, spec: DecoderSpec) {
      forall z {:trigger LookAt(z)} :: LookAt(z) && z == ops ==> z == GateAndUpOps(input, layer, spec)
    }

    ghost predicate IsActivate(ops: seq<Operation>, gate: Handle, up: Handle, layer: nat) {
      forall z {:trigger LookAt(z)} :: LookAt(z) && z == ops ==> z == ActivateOps(gate, up, layer)
    }

    ghost predicate IsDownAndAdd(ops: seq<Operation>, input: Handle, gated: Handle, layer: nat, spec: DecoderSpec) {
      forall z {:trigger LookAt(z)} :: LookAt(z) && z == ops ==> z == DownAndAddOps(input, gated, layer, spec)
    }

    ghost predicate IsFeedForward(ops: seq<Operation>, input: Handle, layer: nat, spec: DecoderSpec) {
      forall z {:trigger LookAt(z)} :: LookAt(z) && z == ops ==> z == FeedForwardOps(input, layer, spec)
    }

    ghost predicate IsBlock(ops: seq<Operation>, input: Handle, layer: nat, hasQkNorm: bool, spec: DecoderSpec) {
      forall z {:trigger LookAt(z)} :: LookAt(z) && z == ops ==> z == BlockOps(input, layer, hasQkNorm, spec)
    }

    ghost predicate IsGates(ops: seq<Operation>, input: Handle, layer: nat, spec: ShortConvSpec) {
      forall z {:trigger LookAt(z)} :: LookAt(z) && z == ops ==> z == GatesOps(input, layer, spec)
    }

    ghost predicate IsOutAndAdd(ops: seq<Operation>, input: Handle, mixed: Handle, layer: nat, spec: ShortConvSpec) {
      forall z {:trigger LookAt(z)} :: LookAt(z) && z == ops ==> z == OutAndAddOps(input, mixed, layer, spec)
    }

    ghost predicate IsConvolve(ops: seq<Operation>, input: Handle, layer: nat, spec: ShortConvSpec) {
      forall z {:trigger LookAt(z)} :: LookAt(z) && z == ops ==> z == ConvolveOps(input, layer, spec)
    }

    ghost predicate IsShortConv(ops: seq<Operation>, input: Handle, layer: nat, spec: ShortConvSpec) {
      forall z {:trigger LookAt(z)} :: LookAt(z) && z == ops ==> z == ShortConvOps(input, layer, spec)
    }

    ghost predicate IsBranches(ops: seq<Operation>, x: Handle, layer: nat) {
      forall z {:trigger LookAt(z)} :: LookAt(z) && z == ops ==> z == BranchOps(x, layer)
    }

    ghost predicate IsNarrow(ops: seq<Operation>, input: Handle, gate: Handle, up: Handle, layer: nat, spec: DecoderSpec) {
      forall z {:trigger LookAt(z)} :: LookAt(z) && z == ops ==> z == NarrowOps(input, gate, up, layer, spec)
    }

    lemma GateAndUpParts(n: seq<Operation>, b: seq<Operation>, input: Handle, layer: nat, spec: DecoderSpec)
      requires n == [Weighted(layer, FfnNorm, RmsNorm(spec.epsilon), [input])]
      requires IsBranches(b, Out(layer, FfnNorm, input.tensorType), layer)
      ensures IsGateAndUp(n + b, input, layer, spec)
    {
      assert LookAt(b);
    }

    lemma NarrowParts(a: seq<Operation>, d: seq<Operation>, input: Handle, gate: Handle, up: Handle, layer: nat,
                      spec: DecoderSpec)
      requires IsActivate(a, gate, up, layer)
      requires IsDownAndAdd(d, input, Out(layer, FfnMultiply, gate.tensorType), layer, spec)
      ensures IsNarrow(a + d, input, gate, up, layer, spec)
    {
      assert LookAt(a) && LookAt(d);
    }

    lemma FeedForwardParts(g: seq<Operation>, d: seq<Operation>, input: Handle, layer: nat, spec: DecoderSpec)
      requires IsGateAndUp(g, input, layer, spec)
      requires IsNarrow(d, input, Out(layer, FfnGate, InnerType(spec)), Out(layer, FfnUp, InnerType(spec)), layer, spec)
      ensures IsFeedForward(g + d, input, layer, spec)
    {
      assert LookAt(g) && LookAt(d);
    }

    lemma BlockParts(a: seq<Operation>, f: seq<Operation>, input: Handle, layer: nat, hasQkNorm: bool, spec: DecoderSpec)
      requires IsAttention(a, input, layer, hasQkNorm, spec)
      requires IsFeedForward(f, Out(layer, AttnResidual, input.tensorType), layer, spec)
      ensures IsBlock(a + f, input, layer, hasQkNorm, spec)
    {
      assert LookAt(a) && LookAt(f);
    }

    lemma ConvolveParts(m: seq<Operation>, d: seq<Operation>, input: Handle, layer: nat, spec: ShortConvSpec)
      requires m == [MixOperation(layer, spec)]
      requires IsOutAndAdd(d, input, Out(layer, ShortConvMix, Activations(spec.channels)), layer, spec)
      ensures IsConvolve(m + d, input, layer, spec)
    {
      assert LookAt(d);
    }

    lemma ShortConvParts(g: seq<Operation>, c: seq<Operation>, input: Handle, layer: nat, spec: ShortConvSpec)
      requires IsGates(g, input, layer, spec) && IsConvolve(c, input, layer, spec)
      ensures IsShortConv(g + c, input, layer, spec)
    {
      assert LookAt(g) && LookAt(c);
    }

    lemma NextLayer(p: Parts, layer: nat, stage: nat)
      requires FreshFrom(p, layer, stage)
      ensures FreshFrom(p, layer + 1, 0)
    {
      assert LookForNames(p);
    }

    function SingleOperation(id: string, kind: OpKind, input: Handle, weight: string): Operation {
      Operation(id, kind, [input.id], [outName(id)], [weight])
    }

    /** The operation a layer step appends. */
    function LayerOperation(layer: nat, s: Stem, kind: OpKind, inputs: seq<Handle>, hasOutput: bool, hasWeight: bool)
      : Operation
    {
      Operation(opName(layer, s), kind, HandleIds(inputs),
                if hasOutput then [outName(opName(layer, s))] else [],
                if hasWeight then [weightName(layer, s)] else [])
    }

    lemma NewOperationIs(layer: nat, s: Stem, kind: OpKind, inputs: seq<Handle>, output: Option<TensorType>,
                         slot: Option<Slot>)
      requires slot.Some? ==> slot.value.id == weightName(layer, s)
      ensures NewOperation(opName(layer, s), kind, inputs, output, slot)
           == LayerOperation(layer, s, kind, inputs, output.Some?, slot.Some?)
    {
      var id := opName(layer, s);
      IdsOfValues(id, output);
      IdsOfSlots(slot);
    }

    lemma IdsOfValues(id: string, output: Option<TensorType>)
      ensures ValueIds(ValuesFor(id, output)) == if output.Some? then [outName(id)] else []
    {
      if output.Some? {
        assert ValueIds(ValuesFor(id, output))[0] == ValueId(ValuesFor(id, output)[0]);
      }
    }

    lemma FreeMeans(p: Parts, id: string, output: Option<TensorType>, slot: Option<Slot>)
      ensures Free(p, id, ValueIds(ValuesFor(id, output)), SlotIds(SlotsFor(slot)))
          <==> && id !in OperationIds(p.operations)
               && (output.Some? ==> outName(id) !in ValueIds(p.values))
               && (slot.Some? ==> slot.value.id !in SlotIds(p.slots))
    {
      IdsOfValues(id, output);
      IdsOfSlots(slot);
      if output.Some? {
        assert outName(id) in [outName(id)];
      }
      if slot.Some? {
        assert slot.value.id in [slot.value.id];
      }
    }

    lemma StemIsFree(p: Parts, layer: nat, s: Stem, output: Option<TensorType>, slot: Option<Slot>)
      requires slot.Some? ==> slot.value.id == weightName(layer, s)
      ensures Unused(p, layer, s) ==> Free(p, opName(layer, s), ValueIds(ValuesFor(opName(layer, s), output)),
                                           SlotIds(SlotsFor(slot)))
    {
      FreeMeans(p, opName(layer, s), output, slot);
    }
  }

  function StandardNames(): Naming {
    Naming((layer: nat, s) => OperationName(layer, s), id => OutputName(id), (layer: nat, s) => WeightName(layer, s))
  }

  lemma StandardNamesAreGood()
    ensures StandardNames().Good()
  {
    forall k: nat, s, l: nat, t | Apart(k, s, l, t) && (k, s) != (l, t)
      ensures OperationName(k, s) != OperationName(l, t)
      ensures OutputName(OperationName(k, s)) != OutputName(OperationName(l, t))
      ensures WeightName(k, s) != WeightName(l, t)
    {
      NamesDiffer(k, s, l, t);
    }
  }

  // ---- the builder ----

  function SlotsFor(weight: Option<Slot>): (s: seq<Slot>)
    ensures |s| <= 1
  {
    if weight.Some? then [weight.value] else []
  }

  function HandleIds(inputs: seq<Handle>): seq<string> {
    seq(|inputs|, i requires 0 <= i < |inputs| => inputs[i].id)
  }

  predicate LookInto(p: Parts) { true }

  /** The graph is built and the primary input is one of its values; its parts are looked into only when asked for. */
  ghost predicate Sound(p: Parts, primaryInput: Option<string>) {
    forall q {:trigger LookInto(q)} :: LookInto(q) && q == p ==>
      Built(q) && (primaryInput.Some? ==> primaryInput.value in ValueIds(q.values))
  }

  /** Every value is still there. */
  ghost predicate Kept(values: seq<GraphValue>, values': seq<GraphValue>) {
    forall v {:trigger v in values'} :: v in values ==> v in values'
  }

  class ModelBuilder {
    const names: Naming
    var architectureId: Option<string>
    var slots: seq<Slot>
    var values: seq<GraphValue>
    var operations: seq<Operation>
    var exports: seq<Export>
    var primaryInput: Option<string>

    constructor ()
      ensures names == StandardNames() && Valid() && State() == Parts([], [], []) && exports == []
              && primaryInput.None? && architectureId.None?
    {
      names := StandardNames();
      architectureId, slots, values, operations, exports, primaryInput := None, [], [], [], [], None;
    }

    ghost function State(): Parts
      reads this
    {
      Parts(slots, values, operations)
    }

    ghost predicate Valid()
      reads this
    {
      Sound(State(), primaryInput)
    }

    /** The handle belongs to this graph. */
    ghost predicate Has(h: Handle)
      reads this
    {
      GraphValue(h.id, h.tensorType) in values
    }

    method SetArchitectureId(id: string)
      modifies this`architectureId
      ensures architectureId == Some(id)
    {
      architectureId := Some(id);
    }

    method DeclareParameter(slot: Slot) returns (r: Result<(), Error>)
      modifies this`slots
      ensures r.Ok? <==> slot.id !in SlotIds(old(slots))
      ensures slots == if r.Ok? then old(slots) + [slot] else old(slots)
    {
      if slot.id in SlotIds(slots) {
        return Err(DuplicateSlot);
      }
      slots := slots + [slot];
      return Ok(());
    }

    method NewValue(id: string, tensorType: TensorType) returns (r: Result<Handle, Error>)
      modifies this`values
      ensures r.Ok? <==> id !in ValueIds(old(values))
      ensures r.Ok? ==> r.value == Handle(id, tensorType) && values == old(values) + [GraphValue(id, tensorType)]
      ensures r.Err? ==> values == old(values)
    {
      if id in ValueIds(values) {
        return Err(DuplicateValue);
      }
      values := values + [GraphValue(id, tensorType)];
      return Ok(Handle(id, tensorType));
    }

    method AddOperation(o: Operation) returns (r: Result<(), Error>)
      modifies this`operations
      ensures r.Ok? <==> o.id !in OperationIds(old(operations))
      ensures operations == if r.Ok? then old(operations) + [o] else old(operations)
    {
      if o.id in OperationIds(operations) {
        return Err(DuplicateOperation);
      }
      operations := operations + [o];
      return Ok(());
    }

    /** Slot, output value and operation, in this order.  A failure may leave a slot or a value behind. */
    method Append(id: string, kind: OpKind, inputs: seq<Handle>, output: Option<TensorType>, weight: Option<Slot>)
      returns (r: Result<(), Error>)
      requires Valid() && (forall h :: h in inputs ==> Has(h)) && (weight.Some? ==> !weight.value.optional)
      requires IsBinary(kind) ==> |inputs| == 2 && inputs[0].tensorType == inputs[1].tensorType
      modifies this`slots, this`values, this`operations
      ensures r.Ok? <==> Free(old(State()), id, ValueIds(names.ValuesFor(id, output)), SlotIds(SlotsFor(weight)))
      ensures r.Ok? ==> Valid()
      ensures r.Ok? ==>
        State() == Added(old(State()), SlotsFor(weight), names.ValuesFor(id, output),
                         names.NewOperation(id, kind, inputs, output, weight))
    {
      ghost var before := State();
      assert LookInto(before);
      names.FreeMeans(before, id, output, weight);
      if weight.Some? {
        var declared := DeclareParameter(weight.value);
        if declared.Err? {
          return declared;
        }
      }
      if output.Some? {
        var value := NewValue(names.outName(id), output.value);
        if value.Err? {
          return Err(value.error);
        }
      }
      var o := names.NewOperation(id, kind, inputs, output, weight);
      r := AddOperation(o);
      if r.Ok? {
        assert State() == Added(before, SlotsFor(weight), names.ValuesFor(id, output), o);
        InputsOfHandles(before, kind, inputs, o);
        StepKeepsBuilt(before, SlotsFor(weight), names.ValuesFor(id, output), o);
        IdsConcat(ValueId, before.values, names.ValuesFor(id, output));
      }
    }

    /** An operation of a layer, under the names of its stem. */
    method LayerStep(layer: nat, s: Stem, kind: OpKind, inputs: seq<Handle>, output: Option<TensorType>,
                     weight: Option<(string, nat)>, ghost stage: nat) returns (r: Result<Handle, Error>)
      requires Valid() && (forall h :: h in inputs ==> Has(h))
      requires IsBinary(kind) ==> |inputs| == 2 && inputs[0].tensorType == inputs[1].tensorType
      modifies this`slots, this`values, this`operations
      ensures r.Ok? ==> Valid() && Kept(old(values), values)
      ensures r.Ok? ==>
              operations == old(operations) + [names.LayerOperation(layer, s, kind, inputs, output.Some?, weight.Some?)]
      ensures r.Ok? && output.Some? ==>
        r.value == Handle(names.outName(names.opName(layer, s)), output.value) && Has(r.value)
      ensures names.Good() && names.FreshFrom(old(State()), layer, stage) && stage <= Stage(s) ==>
              r.Ok? && names.FreshFrom(State(), layer, Stage(s) + 1)
    {
      var id := names.opName(layer, s);
      var slot := if weight.Some? then Some(Slot(names.weightName(layer, s), weight.value.0, weight.value.1, false))
          else None;
      ghost var before := State();
      assert LookForNames(before);
      names.StemIsFree(before, layer, s, output, slot);
      var added := Append(id, kind, inputs, output, slot);
      if added.Err? {
        return Err(added.error);
      }
      if names.Good() && names.FreshFrom(before, layer, stage) && stage <= Stage(s) {
        names.IdsOfValues(id, output);
        IdsOfSlots(slot);
        names.TakesStem(before, SlotsFor(slot), names.ValuesFor(id, output),
                        names.NewOperation(id, kind, inputs, output, slot), layer, s, stage);
      }
      names.NewOperationIs(layer, s, kind, inputs, output, slot);
      return Ok(Handle(names.outName(id), if output.Some? then output.value else Tokens));
    }

    // ---- the ends of the graph ----

    method InputTokens(name: string) returns (r: Result<Handle, Error>)
      requires Valid()
      modifies this`values, this`operations, this`primaryInput
      ensures r.Ok? <==> old(primaryInput).None? && name !in ValueIds(old(values))
                         && "input." + name !in OperationIds(old(operations))
      ensures r.Ok? ==> Valid() && r.value == Handle(name, Tokens) && Has(r.value) && primaryInput == Some(name)
      ensures r.Ok? ==> Kept(old(values), values)
                        && operations == old(operations) + [Operation("input." + name, Input, [], [name], [])]
    {
      if primaryInput.Some? {
        return Err(SecondInput);
      }
      ghost var before := State();
      assert LookInto(before);
      var value :- NewValue(name, Tokens);
      var o := Operation("input." + name, Input, [], [name], []);
      var _ :- AddOperation(o);
      primaryInput := Some(name);
      InputKeepsBuilt(before, name, o);
      return Ok(value);
    }

    /** An operation with a weight under a name of its own: embedding, final norm and output projection. */
    method Single(id: string, kind: OpKind, input: Handle, weight: Slot, outputType: TensorType)
      returns (r: Result<Handle, Error>)
      requires Valid() && Has(input) && !weight.optional && !IsBinary(kind)
      modifies this`slots, this`values, this`operations
      ensures r.Ok? <==> && id !in OperationIds(old(operations)) && names.outName(id) !in ValueIds(old(values))
                         && weight.id !in SlotIds(old(slots))
      ensures r.Ok? ==> Valid() && r.value == Handle(names.outName(id), outputType) && Has(r.value)
      ensures r.Ok? ==> Kept(old(values), values)
                        && operations == old(operations) + [names.SingleOperation(id, kind, input, weight.id)]
    {
      ghost var before := State();
      names.FreeMeans(before, id, Some(outputType), Some(weight));
      names.IdsOfValues(id, Some(outputType));
      IdsOfSlots(Some(weight));
      var _ :- Append(id, kind, [input], Some(outputType), Some(weight));
      assert HandleIds([input]) == [input.id];
      return Ok(Handle(names.outName(id), outputType));
    }

    method ExportPrefillAndDecode(logits: Handle) returns (r: Result<(), Error>)
      requires Valid() && Has(logits)
      modifies this`exports
      ensures r.Ok? <==> primaryInput.Some?
      ensures exports ==
              if r.Ok? then old(exports) + StandardExports(primaryInput.value, logits.id) else old(exports)
    {
      if primaryInput.None? {
        return Err(NoInput);
      }
      exports := exports + StandardExports(primaryInput.value, logits.id);
      return Ok(());
    }

    /** Hands the graph over if it conforms. */
    method Finish() returns (r: Result<Graph, Error>)
      modifies this
      ensures old(architectureId).None? ==> r == Err(NoArchitecture)
      ensures old(architectureId).Some? ==>
                var g := GraphOf(old(architectureId).value, old(State()), old(exports));
                if Conforms(g) then r == Ok(g) else r == Err(NotConforming)
    {
      if architectureId.None? {
        return Err(NoArchitecture);
      }
      var g := Graph(1, architectureId.value, values, operations, slots, exports);
      architectureId, values, operations, slots, exports := None, [], [], [], [];
      var ok := VerifyConformance(g);
      r := if ok then Ok(g) else Err(NotConforming);
    }

    /** After successful steps and one export the graph conforms: nothing the builder made is rejected. */
    lemma FinishAccepts(id: string, logits: Handle)
      requires Valid() && Has(logits) && primaryInput.Some? && exports == StandardExports(primaryInput.value, logits.id)
      ensures Conforms(GraphOf(id, State(), exports)) && ReadsBefore(operations)
    {
      assert LookInto(State());
      HandleKnown(values, logits);
      BuiltConforms(State(), id, primaryInput.value, logits.id);
    }

    // ---- the layers ----

    method NormalizeInput(input: Handle, layer: nat, spec: DecoderSpec, ghost stage: nat)
      returns (r: Result<Handle, Error>)
      requires Valid() && Has(input)
      modifies this`slots, this`values, this`operations
      ensures r.Ok? ==> Valid() && Kept(old(values), values)
      ensures r.Ok? ==> operations == old(operations) + [names.Weighted(layer, AttnNorm, RmsNorm(spec.epsilon), [input])]
      ensures r.Ok? ==> r.value == names.Out(layer, AttnNorm, input.tensorType) && Has(r.value)
      ensures names.Good() && names.FreshFrom(old(State()), layer, stage) && stage <= Stage(AttnNorm) ==>
                r.Ok? && names.FreshFrom(State(), layer, Stage(AttnNorm) + 1)
    {
      r := LayerStep(layer, AttnNorm, RmsNorm(spec.epsilon), [input], Some(input.tensorType), Some(NORM), stage);
    }

    method Project(x: Handle, layer: nat, spec: DecoderSpec, ghost stage: nat)
      returns (r: Result<(Handle, Handle, Handle), Error>, ghost appended: seq<Operation>)
      requires Valid() && Has(x)
      modifies this`slots, this`values, this`operations
      ensures r.Ok? ==> Valid() && Kept(old(values), values)
      ensures r.Ok? ==> operations == old(operations) + appended && names.IsProject(appended, x, layer, spec)
      ensures r.Ok? ==> r.value == (names.Out(layer, AttnQ, QueryType(spec)), names.Out(layer, AttnK, KeyType(spec)),
                                    names.ValueOf(layer, spec))
                        && Has(r.value.0) && Has(r.value.1) && Has(r.value.2)
      ensures names.Good() && names.FreshFrom(old(State()), layer, stage) && stage <= Stage(AttnQ) ==>
                r.Ok? && names.FreshFrom(State(), layer, Stage(AttnV) + 1)
    {
      appended := names.ProjectOps(x, layer, spec);
      var query :- LayerStep(layer, AttnQ, Linear("q"), [x], Some(QueryType(spec)), Some(("q", 2)), stage);
      var key :- LayerStep(layer, AttnK, Linear("k"), [x], Some(KeyType(spec)), Some(("k", 2)), Stage(AttnQ) + 1);
      var value :- LayerStep(layer, AttnV, Linear("v"), [x], Some(KeyType(spec)), Some(("v", 2)), Stage(AttnK) + 1);
      return Ok((query, key, value)), appended;
    }

    /** Query and key normalized head by head. */
    method NormalizeHeads(query: Handle, key: Handle, layer: nat, spec: DecoderSpec, ghost stage: nat)
      returns (r: Result<(Handle, Handle), Error>)
      requires Valid() && Has(query) && Has(key)
      modifies this`slots, this`values, this`operations
      ensures r.Ok? ==> Valid() && Kept(old(values), values)
      ensures r.Ok? ==> operations == old(operations) + names.NormOps(query, key, layer, spec)
      ensures r.Ok? ==> r.value == (names.Out(layer, AttnQNorm, query.tensorType),
                                    names.Out(layer, AttnKNorm, key.tensorType))
                        && Has(r.value.0) && Has(r.value.1)
      ensures names.Good() && names.FreshFrom(old(State()), layer, stage) && stage <= Stage(AttnQNorm) ==>
                r.Ok? && names.FreshFrom(State(), layer, Stage(AttnKNorm) + 1)
    {
      var q :- LayerStep(layer, AttnQNorm, PerHeadRmsNorm(spec.epsilon, spec.numHeads, spec.headDim), [query],
                         Some(query.tensorType), Some(NORM), stage);
      var k :- LayerStep(layer, AttnKNorm, PerHeadRmsNorm(spec.epsilon, spec.numKvHeads, spec.headDim), [key],
                         Some(key.tensorType), Some(NORM), Stage(AttnQNorm) + 1);
      return Ok((q, k));
    }

    /** Query and key rotated by position. */
    method Rotate(query: Handle, key: Handle, layer: nat, spec: DecoderSpec, theta: real, ghost stage: nat)
      returns (r: Result<(Handle, Handle), Error>)
      requires Valid() && Has(query) && Has(key)
      modifies this`slots, this`values, this`operations
      ensures r.Ok? ==> Valid() && Kept(old(values), values)
      ensures r.Ok? ==> operations == old(operations) + names.RopeOps(query, key, layer, spec, theta)
      ensures r.Ok? ==> r.value == (names.Out(layer, AttnQRope, query.tensorType),
                                    names.Out(layer, AttnKRope, key.tensorType))
                        && Has(r.value.0) && Has(r.value.1)
      ensures names.Good() && names.FreshFrom(old(State()), layer, stage) && stage <= Stage(AttnQRope) ==>
                r.Ok? && names.FreshFrom(State(), layer, Stage(AttnKRope) + 1)
    {
      var q :- LayerStep(layer, AttnQRope, Rope(spec.numHeads, spec.headDim, theta), [query], Some(query.tensorType), None,
                         stage);
      var k :- LayerStep(layer, AttnKRope, Rope(spec.numKvHeads, spec.headDim, theta), [key], Some(key.tensorType), None,
                         Stage(AttnQRope) + 1);
      return Ok((q, k));
    }

    method WriteCache(key: Handle, value: Handle, layer: nat, ghost stage: nat)
      returns (r: Result<(), Error>, ghost appended: seq<Operation>)
      requires Valid() && Has(key) && Has(value)
      modifies this`slots, this`values, this`operations
      ensures r.Ok? ==> Valid() && Kept(old(values), values)
      ensures r.Ok? ==> operations == old(operations) + appended && names.IsWrite(appended, key, value, layer)
      ensures names.Good() && names.FreshFrom(old(State()), layer, stage) && stage <= Stage(KeyCacheWrite) ==>
                r.Ok? && names.FreshFrom(State(), layer, Stage(ValueCacheWrite) + 1)
    {
      appended := names.WriteOps(key, value, layer);
      var _ :- LayerStep(layer, KeyCacheWrite, OpKind.KvCacheWrite(layer, Key), [key], None, None, stage);
      var _ :- LayerStep(layer, ValueCacheWrite, OpKind.KvCacheWrite(layer, Component.Value), [value], None, None,
                         Stage(KeyCacheWrite) + 1);
      return Ok(()), appended;
    }

    method ReadCache(key: Handle, value: Handle, layer: nat, spec: DecoderSpec, ghost stage: nat)
      returns (r: Result<(Handle, Handle), Error>, ghost appended: seq<Operation>)
      requires Valid() && Has(key) && Has(value)
      modifies this`slots, this`values, this`operations
      ensures r.Ok? ==> Valid() && Kept(old(values), values)
      ensures r.Ok? ==> operations == old(operations) + appended && names.IsRead(appended, key, value, layer)
      ensures r.Ok? ==> r.value == (names.Out(layer, KeyCacheRead, CacheType(spec)),
                                    names.Out(layer, ValueCacheRead, CacheType(spec)))
                        && Has(r.value.0) && Has(r.value.1)
      ensures names.Good() && names.FreshFrom(old(State()), layer, stage) && stage <= Stage(KeyCacheRead) ==>
                r.Ok? && names.FreshFrom(State(), layer, Stage(ValueCacheRead) + 1)
    {
      appended := names.ReadOps(key, value, layer);
      var keys :- LayerStep(layer, KeyCacheRead, OpKind.KvCacheRead(layer, Key), [key], Some(CacheType(spec)), None, stage);
      var cached :- LayerStep(layer, ValueCacheRead, OpKind.KvCacheRead(layer, Component.Value), [value],
                              Some(CacheType(spec)), None, Stage(KeyCacheRead) + 1);
      return Ok((keys, cached)), appended;
    }

    /** Attention over the cache, projected back. */
    method AttendAndProject(query: Handle, keys: Handle, cached: Handle, layer: nat, spec: DecoderSpec, ghost stage: nat)
      returns (r: Result<Handle, Error>, ghost appended: seq<Operation>)
      requires Valid() && Has(query) && Has(keys) && Has(cached)
      modifies this`slots, this`values, this`operations
      ensures r.Ok? ==> Valid() && Kept(old(values), values)
      ensures r.Ok? ==> operations == old(operations) + appended
                        && names.IsMix(appended, query, keys, cached, layer, spec)
      ensures r.Ok? ==> r.value == names.Out(layer, AttnOutput, Activations(spec.hiddenSize)) && Has(r.value)
      ensures names.Good() && names.FreshFrom(old(State()), layer, stage) && stage <= Stage(Attended) ==>
                r.Ok? && names.FreshFrom(State(), layer, Stage(AttnOutput) + 1)
    {
      appended := names.MixOps(query, keys, cached, layer, spec);
      var attended :- LayerStep(layer, Attended, Attention(spec.numHeads, spec.numKvHeads, spec.headDim),
                                [query, keys, cached], Some(QueryType(spec)), None, stage);
      r := LayerStep(layer, AttnOutput, Linear("o"), [attended], Some(Activations(spec.hiddenSize)), Some(("o", 2)),
                     Stage(Attended) + 1);
    }

    /** The result of the attention added to the input of the layer. */
    method AttendAndAdd(input: Handle, query: Handle, keys: Handle, cached: Handle, layer: nat, spec: DecoderSpec,
                        ghost stage: nat) returns (r: Result<Handle, Error>, ghost appended: seq<Operation>)
      requires Valid() && Has(input) && Has(query) && Has(keys) && Has(cached)
      modifies this`slots, this`values, this`operations
      ensures r.Ok? ==> Valid() && Kept(old(values), values)
      ensures r.Ok? ==> operations == old(operations) + appended
                        && names.IsAdd(appended, input, query, keys, cached, layer, spec)
      ensures r.Ok? ==> r.value == names.Out(layer, AttnResidual, input.tensorType) && Has(r.value)
      ensures names.Good() && names.FreshFrom(old(State()), layer, stage) && stage <= Stage(Attended)
              && input.tensorType == Activations(spec.hiddenSize) ==>
                r.Ok? && names.FreshFrom(State(), layer, Stage(AttnResidual) + 1)
    {
      appended := [];
      ghost var start := operations;
      var projected, m :- AttendAndProject(query, keys, cached, layer, spec, stage);
      ghost var last := [names.Plain(layer, AttnResidual, Residual, [input, projected])];
      appended := m + last;
      if input.tensorType != projected.tensorType {
        return Err(TypeMismatch), appended;
      }
      r := LayerStep(layer, AttnResidual, Residual, [input, projected], Some(input.tensorType), None,
                     Stage(AttnOutput) + 1);
      Associate(start, m, last);
      names.AddParts(m, last, input, query, keys, cached, layer, spec);
    }

    /** Query and key, normalized and rotated where the layer asks for it. */
    method Prepare(query: Handle, key: Handle, layer: nat, hasQkNorm: bool, spec: DecoderSpec, ghost stage: nat)
      returns (r: Result<(Handle, Handle), Error>, ghost appended: seq<Operation>)
      requires Valid() && Has(query) && Has(key)
      modifies this`slots, this`values, this`operations
      ensures r.Ok? ==> Valid() && Kept(old(values), values)
      ensures r.Ok? ==>
              operations == old(operations) + appended
              && names.IsPrepare(appended, query, key, layer, hasQkNorm, spec)
      ensures r.Ok? ==>
              r.value == names.PreparedPair(query, key, layer, hasQkNorm, spec) && Has(r.value.0)
              && Has(r.value.1)
      ensures names.Good() && names.FreshFrom(old(State()), layer, stage) && stage <= Stage(AttnQNorm) ==>
                r.Ok? && names.FreshFrom(State(), layer, Stage(AttnKRope) + 1)
    {
      appended := names.PrepareOps(query, key, layer, hasQkNorm, spec);
      var q, k := query, key;
      ghost var reached := stage;
      if hasQkNorm {
        var normed :- NormalizeHeads(q, k, layer, spec, reached);
        q, k := normed.0, normed.1;
        reached := Stage(AttnKNorm) + 1;
      }
      if spec.ropeTheta.Some? {
        var rotated :- Rotate(q, k, layer, spec, spec.ropeTheta.value, reached);
        q, k := rotated.0, rotated.1;
      }
      return Ok((q, k)), appended;
    }

    /** The self-attention half of a layer, with its residual sum. */
    method AttentionSublayer(input: Handle, layer: nat, hasQkNorm: bool, spec: DecoderSpec, ghost stage: nat)
      returns (r: Result<Handle, Error>, ghost appended: seq<Operation>)
      requires Valid() && Has(input)
      modifies this`slots, this`values, this`operations
      ensures !spec.Valid() ==> r == Err(BadSpec)
      ensures r.Ok? ==> Valid() && Kept(old(values), values)
      ensures r.Ok? ==>
              operations == old(operations) + appended
              && names.IsAttention(appended, input, layer, hasQkNorm, spec)
      ensures r.Ok? ==> r.value == names.Out(layer, AttnResidual, input.tensorType) && Has(r.value)
      ensures names.Good() && names.FreshFrom(old(State()), layer, stage) && stage <= Stage(AttnNorm) && spec.Valid()
              && input.tensorType == Activations(spec.hiddenSize) ==>
                r.Ok? && names.FreshFrom(State(), layer, Stage(AttnResidual) + 1)
    {
      appended := [];
      if !spec.Valid() {
        return Err(BadSpec), appended;
      }
      ghost var start := operations;
      var projected, p :- ProjectInput(input, layer, spec, stage);
      var prepared, q :- Prepare(projected.0, projected.1, layer, hasQkNorm, spec, Stage(AttnV) + 1);
      ghost var c;
      r, c := AttendCached(input, prepared.0, prepared.1, projected.2, layer, spec, Stage(AttnKRope) + 1);
      appended := p + q + c;
      if r.Ok? {
        AssociateThree(start, p, q, c);
        names.AttentionParts(p, q, c, input, layer, hasQkNorm, spec);
      }
    }

    /** The normalized input, projected to query, key and value. */
    method ProjectInput(input: Handle, layer: nat, spec: DecoderSpec, ghost stage: nat)
      returns (r: Result<(Handle, Handle, Handle), Error>, ghost appended: seq<Operation>)
      requires Valid() && Has(input)
      modifies this`slots, this`values, this`operations
      ensures r.Ok? ==> Valid() && Kept(old(values), values)
      ensures r.Ok? ==> operations == old(operations) + appended && names.IsProjectInput(appended, input, layer, spec)
      ensures r.Ok? ==> && r.value.0 == names.Out(layer, AttnQ, QueryType(spec))
                        && r.value.1 == names.Out(layer, AttnK, KeyType(spec)) && r.value.2 == names.ValueOf(layer, spec)
                        && Has(r.value.0) && Has(r.value.1) && Has(r.value.2)
      ensures names.Good() && names.FreshFrom(old(State()), layer, stage) && stage <= Stage(AttnNorm) ==>
                r.Ok? && names.FreshFrom(State(), layer, Stage(AttnV) + 1)
    {
      appended := [];
      ghost var start := operations;
      var x :- NormalizeInput(input, layer, spec, stage);
      ghost var n := [names.Weighted(layer, AttnNorm, RmsNorm(spec.epsilon), [input])];
      ghost var p;
      r, p := Project(x, layer, spec, Stage(AttnNorm) + 1);
      appended := n + p;
      Associate(start, n, p);
      if r.Ok? {
        names.ProjectInputParts(n, p, input, layer, spec);
      }
    }

    /** Keys and values go through the cache, the query attends to both, and the result is added to the input. */
    method AttendCached(input: Handle, query: Handle, key: Handle, value: Handle, layer: nat, spec: DecoderSpec,
                        ghost stage: nat) returns (r: Result<Handle, Error>, ghost appended: seq<Operation>)
      requires Valid() && Has(input) && Has(query) && Has(key) && Has(value)
      modifies this`slots, this`values, this`operations
      ensures r.Ok? ==> Valid() && Kept(old(values), values)
      ensures r.Ok? ==>
              operations == old(operations) + appended
              && names.IsCached(appended, input, query, key, value, layer, spec)
      ensures r.Ok? ==> r.value == names.Out(layer, AttnResidual, input.tensorType) && Has(r.value)
      ensures names.Good() && names.FreshFrom(old(State()), layer, stage) && stage <= Stage(KeyCacheWrite)
              && input.tensorType == Activations(spec.hiddenSize) ==>
                r.Ok? && names.FreshFrom(State(), layer, Stage(AttnResidual) + 1)
    {
      appended := [];
      ghost var start := operations;
      var _, w :- WriteCache(key, value, layer, stage);
      var cached, d :- ReadCache(key, value, layer, spec, Stage(ValueCacheWrite) + 1);
      ghost var e;
      r, e := AttendAndAdd(input, query, cached.0, cached.1, layer, spec, Stage(ValueCacheRead) + 1);
      appended := w + d + e;
      if r.Ok? {
        AssociateThree(start, w, d, e);
        names.CachedParts(w, d, e, input, query, key, value, layer, spec);
      }
    }

    method GateAndUp(input: Handle, layer: nat, spec: DecoderSpec, ghost stage: nat)
      returns (r: Result<(Handle, Handle), Error>, ghost appended: seq<Operation>)
      requires Valid() && Has(input)
      modifies this`slots, this`values, this`operations
      ensures r.Ok? ==> Valid() && Kept(old(values), values)
      ensures r.Ok? ==> operations == old(operations) + appended && names.IsGateAndUp(appended, input, layer, spec)
      ensures r.Ok? ==> r.value == (names.Out(layer, FfnGate, InnerType(spec)), names.Out(layer, FfnUp, InnerType(spec)))
                        && Has(r.value.0) && Has(r.value.1)
      ensures names.Good() && names.FreshFrom(old(State()), layer, stage) && stage <= Stage(FfnNorm) ==>
                r.Ok? && names.FreshFrom(State(), layer, Stage(FfnUp) + 1)
    {
      appended := [];
      ghost var start := operations;
      var x :- LayerStep(layer, FfnNorm, RmsNorm(spec.epsilon), [input], Some(input.tensorType), Some(NORM), stage);
      ghost var n := [names.Weighted(layer, FfnNorm, RmsNorm(spec.epsilon), [input])];
      ghost var b;
      r, b := Branches(x, layer, spec, Stage(FfnNorm) + 1);
      appended := n + b;
      Associate(start, n, b);
      if r.Ok? {
        names.GateAndUpParts(n, b, input, layer, spec);
      }
    }

    method Branches(x: Handle, layer: nat, spec: DecoderSpec, ghost stage: nat)
      returns (r: Result<(Handle, Handle), Error>, ghost appended: seq<Operation>)
      requires Valid() && Has(x)
      modifies this`slots, this`values, this`operations
      ensures r.Ok? ==> Valid() && Kept(old(values), values)
      ensures r.Ok? ==> operations == old(operations) + appended && names.IsBranches(appended, x, layer)
      ensures r.Ok? ==> r.value == (names.Out(layer, FfnGate, InnerType(spec)), names.Out(layer, FfnUp, InnerType(spec)))
                        && Has(r.value.0) && Has(r.value.1)
      ensures names.Good() && names.FreshFrom(old(State()), layer, stage) && stage <= Stage(FfnGate) ==>
                r.Ok? && names.FreshFrom(State(), layer, Stage(FfnUp) + 1)
    {
      appended := names.BranchOps(x, layer);
      var gate :- LayerStep(layer, FfnGate, Linear("gate"), [x], Some(InnerType(spec)), Some(("gate", 2)), stage);
      var up :- LayerStep(layer, FfnUp, Linear("up"), [x], Some(InnerType(spec)), Some(("up", 2)), Stage(FfnGate) + 1);
      return Ok((gate, up)), appended;
    }

    /** The activated gate times the other branch. */
    method Activate(gate: Handle, up: Handle, layer: nat, ghost stage: nat)
      returns (r: Result<Handle, Error>, ghost appended: seq<Operation>)
      requires Valid() && Has(gate) && Has(up)
      modifies this`slots, this`values, this`operations
      ensures r.Ok? ==> Valid() && Kept(old(values), values)
      ensures r.Ok? ==> operations == old(operations) + appended && names.IsActivate(appended, gate, up, layer)
      ensures r.Ok? ==> r.value == names.Out(layer, FfnMultiply, gate.tensorType) && Has(r.value)
      ensures names.Good() && names.FreshFrom(old(State()), layer, stage) && stage <= Stage(FfnSilu)
              && gate.tensorType == up.tensorType ==>
                r.Ok? && names.FreshFrom(State(), layer, Stage(FfnMultiply) + 1)
    {
      appended := names.ActivateOps(gate, up, layer);
      var activated :- LayerStep(layer, FfnSilu, Silu, [gate], Some(gate.tensorType), None, stage);
      if activated.tensorType != up.tensorType {
        return Err(TypeMismatch), appended;
      }
      r := LayerStep(layer, FfnMultiply, Multiply, [activated, up], Some(activated.tensorType), None, Stage(FfnSilu) + 1);
    }

    method ProjectDown(gated: Handle, layer: nat, spec: DecoderSpec, ghost stage: nat) returns (r: Result<Handle, Error>)
      requires Valid() && Has(gated)
      modifies this`slots, this`values, this`operations
      ensures r.Ok? ==> Valid() && Kept(old(values), values)
      ensures r.Ok? ==> operations == old(operations) + [names.Weighted(layer, FfnDown, Linear("down"), [gated])]
      ensures r.Ok? ==> r.value == names.Out(layer, FfnDown, Activations(spec.hiddenSize)) && Has(r.value)
      ensures names.Good() && names.FreshFrom(old(State()), layer, stage) && stage <= Stage(FfnDown) ==>
                r.Ok? && names.FreshFrom(State(), layer, Stage(FfnDown) + 1)
    {
      r := LayerStep(layer, FfnDown, Linear("down"), [gated], Some(Activations(spec.hiddenSize)), Some(("down", 2)), stage);
    }

    method DownAndAdd(input: Handle, gated: Handle, layer: nat, spec: DecoderSpec, ghost stage: nat)
      returns (r: Result<Handle, Error>, ghost appended: seq<Operation>)
      requires Valid() && Has(input) && Has(gated)
      modifies this`slots, this`values, this`operations
      ensures r.Ok? ==> Valid() && Kept(old(values), values)
      ensures r.Ok? ==> operations == old(operations) + appended && names.IsDownAndAdd(appended, input, gated, layer, spec)
      ensures r.Ok? ==> r.value == names.Out(layer, FfnResidual, input.tensorType) && Has(r.value)
      ensures names.Good() && names.FreshFrom(old(State()), layer, stage) && stage <= Stage(FfnDown)
              && input.tensorType == Activations(spec.hiddenSize) ==>
                r.Ok? && names.FreshFrom(State(), layer, Stage(FfnResidual) + 1)
    {
      appended := names.DownAndAddOps(input, gated, layer, spec);
      var down :- ProjectDown(gated, layer, spec, stage);
      if input.tensorType != down.tensorType {
        return Err(TypeMismatch), appended;
      }
      r := LayerStep(layer, FfnResidual, Residual, [input, down], Some(input.tensorType), None, Stage(FfnDown) + 1);
    }

    /** The feed-forward half of a layer, with its residual sum. */
    method FeedForwardSublayer(input: Handle, layer: nat, spec: DecoderSpec, ghost stage: nat)
      returns (r: Result<Handle, Error>, ghost appended: seq<Operation>)
      requires Valid() && Has(input)
      modifies this`slots, this`values, this`operations
      ensures r.Ok? ==> Valid() && Kept(old(values), values)
      ensures r.Ok? ==> operations == old(operations) + appended && names.IsFeedForward(appended, input, layer, spec)
      ensures r.Ok? ==> r.value == names.Out(layer, FfnResidual, input.tensorType) && Has(r.value)
      ensures names.Good() && names.FreshFrom(old(State()), layer, stage) && stage <= Stage(FfnNorm)
              && input.tensorType == Activations(spec.hiddenSize) ==>
                r.Ok? && names.FreshFrom(State(), layer, Stage(FfnResidual) + 1)
    {
      appended := [];
      ghost var start := operations;
      var inner, g :- GateAndUp(input, layer, spec, stage);
      ghost var d;
      r, d := Narrow(input, inner.0, inner.1, layer, spec, Stage(FfnUp) + 1);
      appended := g + d;
      if r.Ok? {
        Associate(start, g, d);
        names.FeedForwardParts(g, d, input, layer, spec);
      }
    }

    /** The two branches multiplied, projected back, and added to the input. */
    method Narrow(input: Handle, gate: Handle, up: Handle, layer: nat, spec: DecoderSpec, ghost stage: nat)
      returns (r: Result<Handle, Error>, ghost appended: seq<Operation>)
      requires Valid() && Has(input) && Has(gate) && Has(up)
      modifies this`slots, this`values, this`operations
      ensures r.Ok? ==> Valid() && Kept(old(values), values)
      ensures r.Ok? ==> operations == old(operations) + appended && names.IsNarrow(appended, input, gate, up, layer, spec)
      ensures r.Ok? ==> r.value == names.Out(layer, FfnResidual, input.tensorType) && Has(r.value)
      ensures names.Good() && names.FreshFrom(old(State()), layer, stage) && stage <= Stage(FfnSilu)
              && gate.tensorType == up.tensorType && input.tensorType == Activations(spec.hiddenSize) ==>
                r.Ok? && names.FreshFrom(State(), layer, Stage(FfnResidual) + 1)
    {
      appended := [];
      ghost var start := operations;
      var gated, a :- Activate(gate, up, layer, stage);
      ghost var d;
      r, d := DownAndAdd(input, gated, layer, spec, Stage(FfnMultiply) + 1);
      appended := a + d;
      if r.Ok? {
        Associate(start, a, d);
        names.NarrowParts(a, d, input, gate, up, layer, spec);
      }
    }

    /** A causal decoder layer: attention, then feed-forward. */
    method DecoderBlock(input: Handle, layer: nat, hasQkNorm: bool, spec: DecoderSpec)
      returns (r: Result<Handle, Error>, ghost appended: seq<Operation>)
      requires Valid() && Has(input)
      modifies this`slots, this`values, this`operations
      ensures r.Ok? ==> Valid() && Kept(old(values), values)
      ensures r.Ok? ==> operations == old(operations) + appended
                        && names.IsBlock(appended, input, layer, hasQkNorm, spec)
      ensures r.Ok? ==> r.value == names.Out(layer, FfnResidual, input.tensorType) && Has(r.value)
      ensures !spec.Valid() ==> r == Err(BadSpec)
      ensures names.Good() && names.FreshFrom(old(State()), layer, 0) && spec.Valid()
              && input.tensorType == Activations(spec.hiddenSize) ==>
                r.Ok? && names.FreshFrom(State(), layer + 1, 0)
    {
      appended := [];
      ghost var start := operations;
      var attended, a :- AttentionSublayer(input, layer, hasQkNorm, spec, 0);
      ghost var f;
      r, f := FeedForwardSublayer(attended, layer, spec, Stage(AttnResidual) + 1);
      appended := a + f;
      if r.Ok? {
        Associate(start, a, f);
        names.BlockParts(a, f, input, layer, hasQkNorm, spec);
        if names.FreshFrom(State(), layer, Stage(FfnResidual) + 1) {
          names.NextLayer(State(), layer, Stage(FfnResidual) + 1);
        }
      }
    }

    /** The normalized input, projected to the concatenated gates. */
    method Gates(input: Handle, layer: nat, spec: ShortConvSpec, ghost stage: nat)
      returns (r: Result<Handle, Error>, ghost appended: seq<Operation>)
      requires Valid() && Has(input)
      modifies this`slots, this`values, this`operations
      ensures r.Ok? ==> Valid() && Kept(old(values), values)
      ensures r.Ok? ==> operations == old(operations) + appended && names.IsGates(appended, input, layer, spec)
      ensures r.Ok? ==> r.value == names.Out(layer, ShortConvIn, names.GatesType(spec)) && Has(r.value)
      ensures names.Good() && names.FreshFrom(old(State()), layer, stage) && stage <= Stage(AttnNorm) ==>
                r.Ok? && names.FreshFrom(State(), layer, Stage(ShortConvIn) + 1)
    {
      appended := names.GatesOps(input, layer, spec);
      var x :- LayerStep(layer, AttnNorm, RmsNorm(spec.epsilon), [input], Some(input.tensorType), Some(NORM), stage);
      r := LayerStep(layer, ShortConvIn, Linear("shortconv.in"), [x], Some(names.GatesType(spec)),
                     Some(("shortconv.in", 2)), Stage(AttnNorm) + 1);
    }

    method Convolve(gates: Handle, layer: nat, spec: ShortConvSpec, ghost stage: nat)
      returns (r: Result<Handle, Error>)
      requires Valid() && Has(gates) && gates == names.Out(layer, ShortConvIn, names.GatesType(spec))
      modifies this`slots, this`values, this`operations
      ensures r.Ok? ==> Valid() && Kept(old(values), values)
      ensures r.Ok? ==> operations == old(operations) + [names.MixOperation(layer, spec)]
      ensures r.Ok? ==> r.value == names.Out(layer, ShortConvMix, Activations(spec.channels)) && Has(r.value)
      ensures names.Good() && names.FreshFrom(old(State()), layer, stage) && stage <= Stage(ShortConvMix) ==>
                r.Ok? && names.FreshFrom(State(), layer, Stage(ShortConvMix) + 1)
    {
      r := LayerStep(layer, ShortConvMix, ShortConv(layer, spec.channels, spec.kernelSize), [gates],
                     Some(Activations(spec.channels)), Some(("shortconv.conv", 3)), stage);
    }

    method ProjectOut(mixed: Handle, layer: nat, spec: ShortConvSpec, ghost stage: nat)
      returns (r: Result<Handle, Error>)
      requires Valid() && Has(mixed)
      modifies this`slots, this`values, this`operations
      ensures r.Ok? ==> Valid() && Kept(old(values), values)
      ensures r.Ok? ==>
              operations == old(operations) + [names.Weighted(layer, ShortConvOut, Linear("shortconv.out"), [mixed])]
      ensures r.Ok? ==> r.value == names.Out(layer, ShortConvOut, Activations(spec.hiddenSize)) && Has(r.value)
      ensures names.Good() && names.FreshFrom(old(State()), layer, stage) && stage <= Stage(ShortConvOut) ==>
                r.Ok? && names.FreshFrom(State(), layer, Stage(ShortConvOut) + 1)
    {
      r := LayerStep(layer, ShortConvOut, Linear("shortconv.out"), [mixed], Some(Activations(spec.hiddenSize)),
                     Some(("shortconv.out", 2)), stage);
    }

    method OutAndAdd(input: Handle, mixed: Handle, layer: nat, spec: ShortConvSpec, ghost stage: nat)
      returns (r: Result<Handle, Error>, ghost appended: seq<Operation>)
      requires Valid() && Has(input) && Has(mixed)
      modifies this`slots, this`values, this`operations
      ensures r.Ok? ==> Valid() && Kept(old(values), values)
      ensures r.Ok? ==> operations == old(operations) + appended && names.IsOutAndAdd(appended, input, mixed, layer, spec)
      ensures r.Ok? ==> r.value == names.Out(layer, ShortConvResidual, input.tensorType) && Has(r.value)
      ensures names.Good() && names.FreshFrom(old(State()), layer, stage) && stage <= Stage(ShortConvOut)
              && input.tensorType == Activations(spec.hiddenSize) ==>
                r.Ok? && names.FreshFrom(State(), layer, Stage(ShortConvResidual) + 1)
    {
      appended := names.OutAndAddOps(input, mixed, layer, spec);
      var projected :- ProjectOut(mixed, layer, spec, stage);
      if input.tensorType != projected.tensorType {
        return Err(TypeMismatch), appended;
      }
      r := LayerStep(layer, ShortConvResidual, Residual, [input, projected], Some(input.tensorType), None,
                     Stage(ShortConvOut) + 1);
    }

    /** The convolved gates, projected back, and added to the input. */
    method ConvolveAndAdd(input: Handle, gates: Handle, layer: nat, spec: ShortConvSpec, ghost stage: nat)
      returns (r: Result<Handle, Error>, ghost appended: seq<Operation>)
      requires Valid() && Has(input) && Has(gates) && gates == names.Out(layer, ShortConvIn, names.GatesType(spec))
      modifies this`slots, this`values, this`operations
      ensures r.Ok? ==> Valid() && Kept(old(values), values)
      ensures r.Ok? ==> operations == old(operations) + appended && names.IsConvolve(appended, input, layer, spec)
      ensures r.Ok? ==> r.value == names.Out(layer, ShortConvResidual, input.tensorType) && Has(r.value)
      ensures names.Good() && names.FreshFrom(old(State()), layer, stage) && stage <= Stage(ShortConvMix)
              && input.tensorType == Activations(spec.hiddenSize) ==>
                r.Ok? && names.FreshFrom(State(), layer, Stage(ShortConvResidual) + 1)
    {
      appended := [];
      ghost var start := operations;
      var mixed :- Convolve(gates, layer, spec, stage);
      ghost var m, d := [names.MixOperation(layer, spec)], [];
      r, d := OutAndAdd(input, mixed, layer, spec, Stage(ShortConvMix) + 1);
      appended := m + d;
      if r.Ok? {
        Associate(start, m, d);
        names.ConvolveParts(m, d, input, layer, spec);
      }
    }

    /** The gated short convolution in place of attention, with its residual sum. */
    method ShortConvSublayer(input: Handle, layer: nat, spec: ShortConvSpec)
      returns (r: Result<Handle, Error>, ghost appended: seq<Operation>)
      requires Valid() && Has(input)
      modifies this`slots, this`values, this`operations
      ensures !spec.Valid() ==> r == Err(BadSpec)
      ensures r.Ok? ==> Valid() && Kept(old(values), values)
      ensures r.Ok? ==> operations == old(operations) + appended && names.IsShortConv(appended, input, layer, spec)
      ensures r.Ok? ==> r.value == names.Out(layer, ShortConvResidual, input.tensorType) && Has(r.value)
      ensures names.Good() && names.FreshFrom(old(State()), layer, 0) && spec.Valid()
              && input.tensorType == Activations(spec.hiddenSize) ==>
                r.Ok? && names.FreshFrom(State(), layer, Stage(ShortConvResidual) + 1)
    {
      appended := [];
      if !spec.Valid() {
        return Err(BadSpec), appended;
      }
      ghost var start := operations;
      var gates, g :- Gates(input, layer, spec, 0);
      ghost var c;
      r, c := ConvolveAndAdd(input, gates, layer, spec, Stage(ShortConvIn) + 1);
      appended := g + c;
      if r.Ok? {
        Associate(start, g, c);
        names.ShortConvParts(g, c, input, layer, spec);
      }
    }
  }

  const NORM: (string, nat) := ("norm", 1)

  /** Handles of the graph are known inputs, and equal types of handles are equal operand types. */
  lemma InputsOfHandles(p: Parts, kind: OpKind, inputs: seq<Handle>, o: Operation)
    requires Built(p) && o.inputs == HandleIds(inputs) && o.kind == kind
    requires forall h :: h in inputs ==> GraphValue(h.id, h.tensorType) in p.values
    requires IsBinary(kind) ==> |inputs| == 2 && inputs[0].tensorType == inputs[1].tensorType
    ensures Among(o.inputs, ValueIds(p.values)) && (IsBinary(o.kind) ==> EqualOperands(p.values, o))
  {
    forall i | 0 <= i < |inputs|
      ensures inputs[i].id in ValueIds(p.values) && TypeOf(p.values, inputs[i].id) == Some(inputs[i].tensorType)
    {
      assert inputs[i] in inputs;
      HandleKnown(p.values, inputs[i]);
    }
  }

  lemma HandleKnown(values: seq<GraphValue>, h: Handle)
    requires Distinct(ValueIds(values)) && GraphValue(h.id, h.tensorType) in values
    ensures h.id in ValueIds(values) && TypeOf(values, h.id) == Some(h.tensorType)
  {
    var k :| 0 <= k < |values| && values[k] == GraphValue(h.id, h.tensorType);
    assert ValueIds(values)[k] == ValueId(values[k]);
    TypeOfKnown(values, k);
  }
}
