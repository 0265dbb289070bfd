/** Bound models, and the check that every operation has a lowering that implements it. */
module Lowering {
  import opened Wrappers
  import opened KernelRegistry
  import opened Coverage
  import opened Ordering
  import G = Graph

  datatype Error = BadGraph | Incomplete | NoLowering | WrongPrecision | WrongLowering

  // ---- bound models ----

  const PAGED_PREFILL_CHUNK_SIZE: nat := 512
  const PAGED_KERNEL := "attention.online_paged.generated.f32"
  const PAGED_LOWERING := "attention.online_paged.generated"

  datatype ShapeProfile = ShapeProfile(batchSizes: seq<nat>, sequenceBuckets: seq<nat>, maxSequenceLength: nat)
  datatype ExecutionShape = ExecutionShape(mode: G.Mode, batchSize: nat, sequenceLength: nat, maxKvLength: nat)
  datatype BoundModel = BoundModel(graph: G.Graph, shapes: seq<ExecutionShape>, kernels: seq<SelectedKernel>)

  function Max(a: nat, b: nat): nat { if a < b then b else a }

  function RequestedPrefill(profile: ShapeProfile): nat {
    Max(if profile.sequenceBuckets == [] then 1 else profile.sequenceBuckets[0], 1)
  }

  function MaxKv(profile: ShapeProfile): nat { Max(profile.maxSequenceLength, RequestedPrefill(profile)) }

  predicate IsPaged(profile: ShapeProfile) { MaxKv(profile) > PAGED_PREFILL_CHUNK_SIZE }

  predicate IsAttention(g: G.Graph, id: string) {
    exists o :: o in g.operations && o.kind.Attention? && o.id == id
  }

  /** The kernel of an attention operation gives way to the paged one when the cache is paged. */
  function Repaged(g: G.Graph, profile: ShapeProfile, k: SelectedKernel): SelectedKernel {
    if IsPaged(profile) && IsAttention(g, k.operationId) then k.(kernelId := PAGED_KERNEL, loweringId := PAGED_LOWERING)
    else k
  }

  ghost predicate IsBound(bound: BoundModel, g: G.Graph, kernels: seq<SelectedKernel>, profile: ShapeProfile) {
    && bound.graph == g && |bound.kernels| == |kernels|
    && forall i :: 0 <= i < |kernels| ==> bound.kernels[i] == Repaged(g, profile, kernels[i])
  }

  method AttentionIds(g: G.Graph) returns (ids: set<string>)
    ensures forall id :: id in ids <==> IsAttention(g, id)
  {
    ids := {};
    for i := 0 to |g.operations|
      invariant forall id :: id in ids <==>
                  exists k :: 0 <= k < i && g.operations[k].kind.Attention? && g.operations[k].id == id
    {
      if g.operations[i].kind.Attention? {
        ids := ids + {g.operations[i].id};
      }
    }
  }

  /** Verifies the graph, fixes the shapes and rewrites the attention kernels in place. */
  method BuildBoundModel(g: G.Graph, selected: seq<SelectedKernel>, profile: ShapeProfile)
    returns (r: Result<BoundModel, Error>)
    ensures r.Ok? <==> G.GraphOk(g)
    ensures r.Ok? ==> IsBound(r.value, g, selected, profile)
    ensures r.Ok? ==>
      && |r.value.shapes| == 2 && r.value.shapes[0].mode.Prefill? && r.value.shapes[1].mode.Decode?
      && r.value.shapes[1].sequenceLength == 1 && r.value.shapes[0].batchSize == r.value.shapes[1].batchSize
      && forall s :: s in r.value.shapes ==>
           1 <= s.sequenceLength <= s.maxKvLength == MaxKv(profile)
           && (IsPaged(profile) ==> s.sequenceLength <= PAGED_PREFILL_CHUNK_SIZE)
  {
    var verified := G.VerifyGraph(g);
    if !verified {
      return Err(BadGraph);
    }
    var batch := if profile.batchSizes == [] then 1 else profile.batchSizes[0];
    var maxKv := MaxKv(profile);
    var paged := maxKv > PAGED_PREFILL_CHUNK_SIZE;
    var prefill := if paged then PAGED_PREFILL_CHUNK_SIZE else RequestedPrefill(profile);
    var kernels := selected;
    if paged {
      var ids := AttentionIds(g);
      for i := 0 to |kernels|
        invariant |kernels| == |selected|
        invariant forall k :: 0 <= k < i ==> kernels[k] == Repaged(g, profile, selected[k])
        invariant forall k :: i <= k < |kernels| ==> kernels[k] == selected[k]
      {
        if kernels[i].operationId in ids {
          kernels := kernels[i := kernels[i].(kernelId := PAGED_KERNEL, loweringId := PAGED_LOWERING)];
        }
      }
    }
    var shapes := [ExecutionShape(G.Prefill, batch, prefill, maxKv), ExecutionShape(G.Decode, batch, 1, maxKv)];
    return Ok(BoundModel(g, shapes, kernels));
  }

  // ---- lowerings ----

  /** A lowering that an encoding definition contributes for the operation. */
  predicate IsRegistered(contributed: seq<Candidate>, kind: Kind, lowering: string) {
    exists c :: c in contributed && c.operation == kind && c.lowering == lowering
  }

  predicate LoweringMatches(kind: Kind, lowering: string, contributed: seq<Candidate>) {
    match kind
    case Input => lowering == "model.input.abi"
    case Embedding => lowering == "dense.gather.linalg" || IsRegistered(contributed, kind, lowering)
    case Linear => lowering == "dense.matmul.linalg" || IsRegistered(contributed, kind, lowering)
    case OutputProjection => lowering == "dense.matmul.linalg" || IsRegistered(contributed, kind, lowering)
    case RmsNorm => lowering == "dense.rms_norm.generated"
    case PerHeadRmsNorm => lowering == "dense.per_head_rms_norm.generated"
    case Rope => lowering == "rope.generated"
    case KvCacheWrite => lowering == "kv_cache.write.generated"
    case KvCacheRead => lowering == "kv_cache.read.generated"
    case Attention => lowering == "attention.gqa.generated" || lowering == PAGED_LOWERING
    case ShortConv => lowering == "short_conv.gated.generated"
    case Silu => lowering == "elementwise.silu.generated"
    case Multiply => lowering == "elementwise.multiply.generated"
    case Residual => lowering == "residual.add.generated"
  }

  predicate TypesQualified(k: SelectedKernel) {
    k.inputType == I64 || k.inputType == k.outputType == k.activationType == k.accumulatorType == F32
  }

  predicate IsFor(k: SelectedKernel, id: string, mode: G.Mode) { k.operationId == id && k.mode == mode }

  function FirstKernel(kernels: seq<SelectedKernel>, id: string, mode: G.Mode): Option<SelectedKernel> {
    if kernels == [] then None
    else if IsFor(kernels[0], id, mode) then Some(kernels[0])
    else FirstKernel(kernels[1..], id, mode)
  }

  lemma {:induction false} FirstKernelIsThere(kernels: seq<SelectedKernel>, id: string, mode: G.Mode)
    ensures var f := FirstKernel(kernels, id, mode);
            if f.Some? then f.value in kernels && IsFor(f.value, id, mode)
            else forall k :: k in kernels ==> !IsFor(k, id, mode)
  {
    if kernels != [] && !IsFor(kernels[0], id, mode) {
      FirstKernelIsThere(kernels[1..], id, mode);
      assert kernels == [kernels[0]] + kernels[1..];
    }
  }

  function Verdict(bound: BoundModel, o: G.Operation, mode: G.Mode, contributed: seq<Candidate>): Option<Error> {
    var k := FirstKernel(bound.kernels, o.id, mode);
    if k.None? then Some(NoLowering)
    else if !TypesQualified(k.value) then Some(WrongPrecision)
    else if !LoweringMatches(KindOf(o.kind), k.value.loweringId, contributed) then Some(WrongLowering)
    else None
  }

  /** Every operation has a qualified kernel that implements it, in every exported mode. */
  ghost predicate LoweringsValid(bound: BoundModel, contributed: seq<Candidate>) {
    forall o, m :: o in bound.graph.operations && m in ModesOf(bound.graph.exports) ==>
      Verdict(bound, o, m, contributed).None?
  }

  method ValidateLowerings(bound: BoundModel, contributed: seq<Candidate>) returns (r: Result<(), Error>)
    ensures r.Ok? <==> LoweringsValid(bound, contributed)
    ensures r.Err? ==> exists o, m :: o in bound.graph.operations && m in ModesOf(bound.graph.exports)
                                      && Verdict(bound, o, m, contributed) == Some(r.error)
  {
    var modes := ModesOf(bound.graph.exports);
    var ops := bound.graph.operations;
    for i := 0 to |ops|
      invariant forall k, m :: 0 <= k < i && m in modes ==> Verdict(bound, ops[k], m, contributed).None?
    {
      for j := 0 to |modes|
        invariant forall k :: 0 <= k < j ==> Verdict(bound, ops[i], modes[k], contributed).None?
      {
        assert ops[i] in ops && modes[j] in modes;
        var found := FindKernel(bound.kernels, ops[i].id, modes[j]);
        if found.None? {
          return Err(NoLowering);
        }
        if !TypesQualified(found.value) {
          return Err(WrongPrecision);
        }
        if !LoweringMatches(KindOf(ops[i].kind), found.value.loweringId, contributed) {
          return Err(WrongLowering);
        }
      }
    }
    return Ok(());
  }

  method FindKernel(kernels: seq<SelectedKernel>, id: string, mode: G.Mode) returns (found: Option<SelectedKernel>)
    ensures found == FirstKernel(kernels, id, mode)
  {
    for i := 0 to |kernels|
      invariant FirstKernel(kernels, id, mode) == FirstKernel(kernels[i..], id, mode)
    {
      assert kernels[i..][1..] == kernels[i + 1..];
      if IsFor(kernels[i], id, mode) {
        return Some(kernels[i]);
      }
    }
    return None;
  }

  // ---- complete coverage leads to a valid bound model ----

  /** The candidate names a lowering of its operation and offers the qualified types first. */
  predicate IsQualified(c: Candidate, contributed: seq<Candidate>) {
    && LoweringMatches(c.operation, c.lowering, contributed)
    && (HasTypes(c) ==>
          || (c.inputTypes[0] == I64 && !IsSensitive(c.operation))
          || (c.inputTypes[0] == c.outputTypes[0] == F32 && (IsSensitive(c.operation) || c.accumulatorTypes[0] == F32)))
  }

  predicate AllQualified(candidates: seq<Candidate>, contributed: seq<Candidate>) {
    forall c :: c in candidates ==> IsQualified(c, contributed)
  }

  predicate HasSensitive(g: G.Graph) { exists o :: o in g.operations && IsSensitive(KindOf(o.kind)) }

  lemma SameOperation(g: G.Graph, o: G.Operation, p: G.Operation)
    requires G.GraphOk(g) && o in g.operations && p in g.operations && o.id == p.id
    ensures o == p
  {
    var i :| 0 <= i < |g.operations| && g.operations[i] == o;
    var j :| 0 <= j < |g.operations| && g.operations[j] == p;
    assert G.OperationIds(g.operations)[i] == G.OperationId(o) && G.OperationIds(g.operations)[j] == G.OperationId(p);
  }

  lemma KernelIsThere(g: G.Graph, entries: seq<Entry>, profile: ShapeProfile, bound: BoundModel, e: Entry)
    requires IsBound(bound, g, SelectedKernels(entries), profile) && e in entries && e.selected.Some?
    ensures FirstKernel(bound.kernels, e.operationId, e.mode).Some?
  {
    var kernels := SelectedKernels(entries);
    KernelsComeFromEntries(entries);
    assert KernelOf(e) in kernels;
    var i :| 0 <= i < |kernels| && kernels[i] == KernelOf(e);
    assert IsFor(Repaged(g, profile, kernels[i]), e.operationId, e.mode);
    assert bound.kernels[i] in bound.kernels && IsFor(bound.kernels[i], e.operationId, e.mode);
    FirstKernelIsThere(bound.kernels, e.operationId, e.mode);
  }

  lemma KernelHasEntry(g: G.Graph, entries: seq<Entry>, profile: ShapeProfile, bound: BoundModel, k: SelectedKernel)
    returns (e: Entry)
    requires IsBound(bound, g, SelectedKernels(entries), profile) && k in bound.kernels
    ensures e in entries && e.selected.Some? && k == Repaged(g, profile, KernelOf(e))
  {
    var kernels := SelectedKernels(entries);
    var j :| 0 <= j < |bound.kernels| && bound.kernels[j] == k;
    assert kernels[j] in kernels;
    KernelsComeFromEntries(entries);
    e :| e in entries && e.selected.Some? && kernels[j] == KernelOf(e);
  }

  /** The kernel that is looked up for an operation is one selected for it. */
  lemma LookUpFinds(g: G.Graph, entries: seq<Entry>, inputs: Inputs, candidates: seq<Candidate>, profile: ShapeProfile,
                    bound: BoundModel, o: G.Operation, m: G.Mode) returns (e: Entry)
    requires G.GraphOk(g) && IsComplete(entries) && IsBound(bound, g, SelectedKernels(entries), profile)
    requires Covers(entries, g.operations, ModesOf(g.exports), inputs, candidates)
    requires o in g.operations && m in ModesOf(g.exports)
    ensures IsEntry(e, o, m, inputs, candidates) && e.selected.Some?
    ensures FirstKernel(bound.kernels, o.id, m) == Some(Repaged(g, profile, KernelOf(e)))
  {
    var modes := ModesOf(g.exports);
    OperationHasEntry(entries, g.operations, modes, inputs, candidates, o, m);
    var known :| known in entries && IsEntry(known, o, m, inputs, candidates);
    KernelIsThere(g, entries, profile, bound, known);
    FirstKernelIsThere(bound.kernels, o.id, m);
    e := KernelHasEntry(g, entries, profile, bound, FirstKernel(bound.kernels, o.id, m).value);
    EntryHasOperation(entries, g.operations, modes, inputs, candidates, e);
    var p, n :| p in g.operations && n in modes && IsEntry(e, p, n, inputs, candidates);
    SameOperation(g, o, p);
  }

  /** A kernel selected among qualified candidates passes, unless a sensitive operation accumulates in another type. */
  lemma SelectedPasses(g: G.Graph, e: Entry, o: G.Operation, m: G.Mode, inputs: Inputs, candidates: seq<Candidate>,
                       contributed: seq<Candidate>, profile: ShapeProfile)
    requires G.GraphOk(g) && o in g.operations && AllQualified(candidates, contributed)
    requires IsEntry(e, o, m, inputs, candidates) && e.selected.Some?
    ensures var k := Repaged(g, profile, KernelOf(e));
      && LoweringMatches(KindOf(o.kind), k.loweringId, contributed)
      && (TypesQualified(k) <==> inputs.sensitiveType == F32 || !IsSensitive(KindOf(o.kind)))
  {
    var c := e.selected.value.descriptor;
    assert IsQualified(c, contributed) && c.operation == KindOf(o.kind);
    if IsAttention(g, o.id) {
      var p :| p in g.operations && p.kind.Attention? && p.id == o.id;
      SameOperation(g, o, p);
    }
  }

  /**
   * With qualified candidates, complete coverage of a verified graph leads to a bound model that passes the validation,
   * paged or not, exactly when sensitive operations accumulate in the qualified type or there are none.
   */
  lemma CoverageImpliesLowering(g: G.Graph, entries: seq<Entry>, inputs: Inputs, candidates: seq<Candidate>,
                                contributed: seq<Candidate>, profile: ShapeProfile, bound: BoundModel)
    requires G.GraphOk(g) && IsComplete(entries) && AllQualified(candidates, contributed)
    requires Covers(entries, g.operations, ModesOf(g.exports), inputs, candidates)
    requires IsBound(bound, g, SelectedKernels(entries), profile)
    ensures LoweringsValid(bound, contributed)
       <==> inputs.sensitiveType == F32 || !HasSensitive(g) || ModesOf(g.exports) == []
  {
    forall o, m | o in g.operations && m in ModesOf(g.exports)
      ensures Verdict(bound, o, m, contributed).None?
         <==> inputs.sensitiveType == F32 || !IsSensitive(KindOf(o.kind))
    {
      var e := LookUpFinds(g, entries, inputs, candidates, profile, bound, o, m);
      SelectedPasses(g, e, o, m, inputs, candidates, contributed, profile);
    }
    if inputs.sensitiveType != F32 && HasSensitive(g) && ModesOf(g.exports) != [] {
      var o :| o in g.operations && IsSensitive(KindOf(o.kind));
      var m := ModesOf(g.exports)[0];
      assert m in ModesOf(g.exports) && Verdict(bound, o, m, contributed).Some?;
    }
  }

  function OneRope(): G.Graph {
    G.Graph(1, "rope", [G.GraphValue("v", G.Activations(8))], [G.Operation("r", G.Rope(1, 8, 1.0), [], ["v"], [])], [],
            [G.Export("prefill", G.Prefill, [], ["v"])])
  }

  function HalfRope(): Candidate {
    Candidate("rope", Kind.Rope, None, [F32], [F32], [F32, F16], None, [], [], ["any"], [], [], [G.Prefill],
              "rope.generated", 100, true)
  }

  lemma OneRopeIsOk()
    ensures G.GraphOk(OneRope())
  {
    var g := OneRope();
    assert G.ValueIds(g.values) == [G.ValueId(g.values[0])] == ["v"];
    assert G.OutputsOf(g.operations[0]) == ["v"];
    assert G.Outputs(g.operations) == ["v"] + G.Outputs(g.operations[1..]) == ["v"];
    assert g.operations == [g.operations[0]] && g.exports == [g.exports[0]];
    assert "v" in G.ValueIds(g.values);
  }

  lemma HalfRopeIsChosen(inputs: Inputs) returns (e: Entry)
    requires inputs == Inputs([], [], inputs.isValid, Target("cpu", None, []), F16)
    ensures e.selected.Some? && e.problem.None?
    ensures IsEntry(e, OneRope().operations[0], G.Prefill, inputs, [HalfRope()])
  {
    var c, o := HalfRope(), OneRope().operations[0];
    var r := RequestFor(o, G.Prefill, inputs);
    assert "any" in c.backends && F16 in c.accumulatorTypes && G.Prefill in c.modes;
    assert Eligible(c, r, inputs.target);
    LexLeIsOrder();
    assert IsBest(c, [c], r, inputs.target, DeterministicCost);
    var s := SelectedFor(c, r, DeterministicCost(c, inputs.target).value);
    e := Entry("r", Kind.Rope, G.Prefill, None, Some(s), None, [], None);
  }

  lemma CoversOne(e: Entry, o: G.Operation, mode: G.Mode, inputs: Inputs, candidates: seq<Candidate>)
    requires IsEntry(e, o, mode, inputs, candidates)
    ensures Covers([e], [o], [mode], inputs, candidates)
  {
    assert [e][0..] == [e] && [e][..0] == [] && [o][..0] == [];
    assert IsRow([e], o, [mode], inputs, candidates);
  }

  lemma OneRopeIsOne()
    ensures ModesOf(OneRope().exports) == [G.Prefill] && OneRope().operations == [OneRope().operations[0]]
  {
    assert OneRope().exports[0] in OneRope().exports;
  }

  lemma HalfRopeCovers(inputs: Inputs) returns (entries: seq<Entry>)
    requires inputs == Inputs([], [], inputs.isValid, Target("cpu", None, []), F16)
    ensures IsComplete(entries)
    ensures Covers(entries, OneRope().operations, ModesOf(OneRope().exports), inputs, [HalfRope()])
  {
    var e := HalfRopeIsChosen(inputs);
    entries := [e];
    CoversOne(e, OneRope().operations[0], G.Prefill, inputs, [HalfRope()]);
    OneRopeIsOne();
  }

  lemma HalfRopeIsQualified()
    ensures AllQualified([HalfRope()], [])
  {
    assert IsQualified(HalfRope(), []);
  }

  lemma OneRopeIsSensitive()
    ensures HasSensitive(OneRope()) && ModesOf(OneRope().exports) != []
  {
    assert OneRope().operations[0] in OneRope().operations && OneRope().exports[0] in OneRope().exports;
  }

  /** In any other type than the qualified one, what follows from complete coverage is refused. */
  lemma OtherTypeIsRefused(g: G.Graph, entries: seq<Entry>, inputs: Inputs, candidates: seq<Candidate>,
                           contributed: seq<Candidate>, profile: ShapeProfile) returns (bound: BoundModel)
    requires G.GraphOk(g) && IsComplete(entries) && AllQualified(candidates, contributed)
    requires Covers(entries, g.operations, ModesOf(g.exports), inputs, candidates)
    requires inputs.sensitiveType != F32 && HasSensitive(g) && ModesOf(g.exports) != []
    ensures IsBound(bound, g, SelectedKernels(entries), profile) && !LoweringsValid(bound, contributed)
  {
    var kernels := SelectedKernels(entries);
    bound := BoundModel(g, [], seq(|kernels|, i requires 0 <= i < |kernels| => Repaged(g, profile, kernels[i])));
    CoverageImpliesLowering(g, entries, inputs, candidates, contributed, profile, bound);
  }

  /** Complete coverage is not enough by itself: a rotation that accumulates in half precision is refused. */
  lemma SensitiveTypeMatters(profile: ShapeProfile) returns (entries: seq<Entry>, inputs: Inputs, bound: BoundModel)
    ensures G.GraphOk(OneRope()) && IsComplete(entries) && AllQualified([HalfRope()], [])
    ensures Covers(entries, OneRope().operations, ModesOf(OneRope().exports), inputs, [HalfRope()])
    ensures IsBound(bound, OneRope(), SelectedKernels(entries), profile) && !LoweringsValid(bound, [])
  {
    OneRopeIsOk();
    OneRopeIsSensitive();
    HalfRopeIsQualified();
    inputs := Inputs([], [], _ => true, Target("cpu", None, []), F16);
    entries := HalfRopeCovers(inputs);
    bound := OtherTypeIsRefused(OneRope(), entries, inputs, [HalfRope()], [], profile);
  }

  // ---- the builtin candidates ----

  function Builtin(operation: Kind, id: string, lowering: string, scalar: Scalar, score: int): Candidate {
    Candidate(id, operation, None, [scalar], [scalar], [scalar], None, [], [Orientation.Native], ["any"], [], [],
              [G.Prefill, G.Decode], lowering, score, true)
  }

  function Builtins(): seq<Candidate> {
    [Builtin(Kind.Input, "model.input.abi", "model.input.abi", I64, 100),
     Builtin(Kind.Rope, "rope.generated.f32", "rope.generated", F32, 100),
     Builtin(Kind.KvCacheWrite, "kv_cache.write.generated", "kv_cache.write.generated", F32, 100),
     Builtin(Kind.KvCacheRead, "kv_cache.read.generated", "kv_cache.read.generated", F32, 100),
     Builtin(Kind.Attention, "attention.gqa.generated.f32", "attention.gqa.generated", F32, 100),
     Builtin(Kind.Silu, "elementwise.silu.generated.f32", "elementwise.silu.generated", F32, 100),
     Builtin(Kind.Multiply, "elementwise.multiply.generated.f32", "elementwise.multiply.generated", F32, 100),
     Builtin(Kind.Residual, "residual.add.generated.f32", "residual.add.generated", F32, 100),
     Builtin(Kind.Attention, PAGED_KERNEL, PAGED_LOWERING, F32, 90)]
  }

  lemma BuiltinIsQualified(operation: Kind, id: string, lowering: string, scalar: Scalar, score: int,
                           contributed: seq<Candidate>)
    requires LoweringMatches(operation, lowering, contributed)
    requires scalar == F32 || (scalar == I64 && !IsSensitive(operation))
    ensures IsQualified(Builtin(operation, id, lowering, scalar, score), contributed)
  {
  }

  lemma BuiltinsAreQualified(contributed: seq<Candidate>, i: nat)
    requires i < |Builtins()|
    ensures IsQualified(Builtins()[i], contributed)
  {
    var c := Builtins()[i];
    assert LoweringMatches(c.operation, c.lowering, contributed);
    BuiltinIsQualified(c.operation, c.id, c.lowering, c.inputTypes[0], c.score, contributed);
  }

  predicate TakesParameter(k: Kind) { k.Embedding? || k.Linear? || k.OutputProjection? }

  /**
   * The builtin candidates are qualified, and so are those of the encodings that offer F32 first, as long as
   * they name the generated lowering for the norms and the short convolution; for the operations that read
   * an encoded weight any lowering they contribute will do.
   */
  lemma StandardRegistryIsQualified(contributed: seq<Candidate>)
    requires forall c :: c in contributed ==>
      && (TakesParameter(c.operation) || LoweringMatches(c.operation, c.lowering, contributed))
      && (HasTypes(c) ==> c.inputTypes[0] == c.outputTypes[0] == c.accumulatorTypes[0] == F32)
    ensures AllQualified(Builtins() + contributed, contributed)
  {
    forall i | 0 <= i < |Builtins()| ensures IsQualified(Builtins()[i], contributed) {
      BuiltinsAreQualified(contributed, i);
    }
    forall c | c in contributed ensures IsQualified(c, contributed) {
      assert TakesParameter(c.operation) ==> IsRegistered(contributed, c.operation, c.lowering);
    }
  }

  // ---- the steps together ----

  /** Covers, requires the coverage to be complete, binds and validates. */
  method Prepare(g: G.Graph, inputs: Inputs, registry: Registry, contributed: seq<Candidate>, profile: ShapeProfile)
    returns (r: Result<BoundModel, Error>)
    ensures G.GraphOk(g) && AllQualified(registry.candidates, contributed) && inputs.sensitiveType == F32 ==>
      (r.Ok? <==> AllServed(g.operations, ModesOf(g.exports), inputs, registry.candidates))
    ensures r.Ok? ==> G.GraphOk(g) && r.value.graph == g && LoweringsValid(r.value, contributed)
  {
    var entries := DryRunCoverage(g, inputs, registry);
    CompleteMeansServed(entries, g.operations, ModesOf(g.exports), inputs, registry.candidates);
    if !IsComplete(entries) {
      return Err(Incomplete);
    }
    var bound := BuildBoundModel(g, SelectedKernels(entries), profile);
    if bound.Err? {
      return bound;
    }
    if AllQualified(registry.candidates, contributed) {
      CoverageImpliesLowering(g, entries, inputs, registry.candidates, contributed, profile, bound.value);
    }
    var valid := ValidateLowerings(bound.value, contributed);
    return if valid.Ok? then bound else Err(valid.error);
  }
}
