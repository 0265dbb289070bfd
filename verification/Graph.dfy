/** Architecture graphs, and the verifier that accepts them. */
module Graph {
  import opened Wrappers
  import opened Sequences

  datatype Component = Key | Value

  datatype OpKind =
    | Input | Embedding | Linear(role: string) | RmsNorm(epsilon: real)
    | PerHeadRmsNorm(epsilon: real, headCount: nat, headDim: nat) | Rope(headCount: nat, headDim: nat, theta: real)
    | KvCacheWrite(layer: nat, component: Component) | KvCacheRead(layer: nat, component: Component)
    | Attention(numHeads: nat, numKvHeads: nat, headDim: nat) | ShortConv(layer: nat, channels: nat, kernelSize: nat)
    | Silu | Multiply | Residual | OutputProjection

  datatype TensorType = Tokens | Activations(width: nat) | KvCache(heads: nat, headDim: nat)

  datatype Slot = Slot(id: string, role: string, rank: nat, optional: bool)
  datatype GraphValue = GraphValue(id: string, tensorType: TensorType)
  datatype Operation = Operation(id: string, kind: OpKind, inputs: seq<string>, outputs: seq<string>,
                                 parameters: seq<string>)

  datatype Mode = Prefill | Decode

  datatype Export = Export(name: string, mode: Mode, inputs: seq<string>, outputs: seq<string>)

  datatype Graph = Graph(version: nat, architectureId: string, values: seq<GraphValue>, operations: seq<Operation>,
                         slots: seq<Slot>, exports: seq<Export>)

  // ---- identifiers ----

  lemma DistinctAppend<T>(s: seq<T>, x: T)
    ensures Distinct(s + [x]) <==> Distinct(s) && x !in s
  {
    var t := s + [x];
    if Distinct(t) {
      forall i, j | 0 <= i < j < |s| ensures s[i] != s[j] {
        assert t[i] != t[j];
      }
      forall i | 0 <= i < |s| ensures s[i] != x {
        assert t[i] != t[|s|];
      }
    }
  }

  function Ids<T>(id: T -> string, s: seq<T>): (r: seq<string>)
    ensures |r| == |s|
  {
    seq(|s|, i requires 0 <= i < |s| => id(s[i]))
  }

  lemma IdsAppend<T>(id: T -> string, s: seq<T>, x: T)
    ensures Ids(id, s + [x]) == Ids(id, s) + [id(x)]
  {
  }

  function ValueId(v: GraphValue): string { v.id }
  function SlotId(s: Slot): string { s.id }
  function OperationId(o: Operation): string { o.id }
  function ExportName(e: Export): string { e.name }

  function ValueIds(values: seq<GraphValue>): seq<string> { Ids(ValueId, values) }
  function SlotIds(slots: seq<Slot>): seq<string> { Ids(SlotId, slots) }
  function OperationIds(ops: seq<Operation>): seq<string> { Ids(OperationId, ops) }

  function OutputsOf(o: Operation): seq<string> { o.outputs }
  function ParametersOf(o: Operation): seq<string> { o.parameters }

  /** Everything produced, and every slot consumed, in order. */
  function Outputs(ops: seq<Operation>): seq<string> { FlatMap(OutputsOf, ops) }
  function Consumed(ops: seq<Operation>): seq<string> { FlatMap(ParametersOf, ops) }

  /** The type of a value; a later value of the same name would win. */
  function TypeOf(values: seq<GraphValue>, id: string): Option<TensorType> {
    if values == [] then None
    else if values[|values| - 1].id == id then Some(values[|values| - 1].tensorType)
    else TypeOf(values[..|values| - 1], id)
  }

  lemma {:induction false} TypeOfKnown(values: seq<GraphValue>, i: nat)
    requires Distinct(ValueIds(values)) && i < |values|
    ensures TypeOf(values, values[i].id) == Some(values[i].tensorType)
  {
    var n := |values| - 1;
    if i < n {
      assert ValueIds(values)[i] == ValueId(values[i]) && ValueIds(values)[n] == ValueId(values[n]);
      DistinctPrefix(values, n);
      TypeOfKnown(values[..n], i);
    }
  }

  lemma DistinctPrefix(values: seq<GraphValue>, n: nat)
    requires Distinct(ValueIds(values)) && n <= |values|
    ensures Distinct(ValueIds(values[..n]))
  {
    forall i, j | 0 <= i < j < n ensures ValueIds(values[..n])[i] != ValueIds(values[..n])[j] {
      assert ValueIds(values)[i] != ValueIds(values)[j];
    }
  }

  // ---- what the verifier accepts ----

  predicate IsBinary(kind: OpKind) { kind.Residual? || kind.Multiply? }

  predicate EqualOperands(values: seq<GraphValue>, o: Operation) {
    |o.inputs| == 2 && TypeOf(values, o.inputs[0]) == TypeOf(values, o.inputs[1])
  }

  predicate Among(names: seq<string>, known: seq<string>) { forall n :: n in names ==> n in known }

  predicate OperationOk(g: Graph, o: Operation) {
    && Among(o.inputs, ValueIds(g.values)) && Among(o.outputs, ValueIds(g.values))
    && Among(o.parameters, SlotIds(g.slots))
    && (IsBinary(o.kind) ==> EqualOperands(g.values, o))
  }

  predicate ExportOk(g: Graph, e: Export) {
    e.outputs != [] && Among(e.inputs, ValueIds(g.values)) && Among(e.outputs, ValueIds(g.values))
  }

  /** Unique names, known references, one producer for each value, a consumer for each required slot. */
  ghost predicate GraphOk(g: Graph) {
    && g.version == 1
    && Distinct(ValueIds(g.values)) && Distinct(SlotIds(g.slots)) && Distinct(OperationIds(g.operations))
    && (forall o :: o in g.operations ==> OperationOk(g, o))
    && Distinct(Outputs(g.operations)) && Among(ValueIds(g.values), Outputs(g.operations))
    && (forall s :: s in g.slots && !s.optional ==> s.id in Consumed(g.operations))
    && Distinct(Ids(ExportName, g.exports))
    && forall e :: e in g.exports ==> ExportOk(g, e)
  }

  ghost predicate HasExport(g: Graph, name: string, mode: Mode) {
    exists e :: e in g.exports && e.name == name && e.mode == mode
  }

  ghost predicate Conforms(g: Graph) {
    GraphOk(g) && HasExport(g, "prefill", Prefill) && HasExport(g, "decode", Decode)
  }

  // ---- the verifier ----

  /** Grows a set of names until one repeats. */
  method AllDistinct(names: seq<string>) returns (ok: bool, seen: set<string>)
    ensures ok <==> Distinct(names)
    ensures ok ==> seen == SetOf(names)
  {
    seen := {};
    for i := 0 to |names|
      invariant Distinct(names[..i]) && seen == SetOf(names[..i])
    {
      assert names[..i + 1] == names[..i] + [names[i]];
      DistinctAppend(names[..i], names[i]);
      if names[i] in seen {
        assert names == names[..i + 1] + names[i + 1..];
        NotDistinctStays(names, i + 1);
        return false, seen;
      }
      seen := seen + {names[i]};
    }
    assert names[..|names|] == names;
    return true, seen;
  }

  lemma NotDistinctStays<T>(s: seq<T>, n: nat)
    requires n <= |s| && !Distinct(s[..n])
    ensures !Distinct(s)
  {
    var i, j :| 0 <= i < j < n && s[..n][i] == s[..n][j];
    assert s[i] == s[j];
  }

  method AllKnown(names: seq<string>, known: set<string>) returns (ok: bool)
    ensures ok <==> forall n :: n in names ==> n in known
  {
    for i := 0 to |names|
      invariant forall k :: 0 <= k < i ==> names[k] in known
    {
      if names[i] !in known {
        return false;
      }
    }
    return true;
  }

  /** One operation: its references, and new producers. */
  method VerifyOperation(g: Graph, o: Operation, valueIds: set<string>, slotIds: set<string>, produced: set<string>)
    returns (ok: bool, produced': set<string>)
    requires valueIds == SetOf(ValueIds(g.values)) && slotIds == SetOf(SlotIds(g.slots))
    ensures ok <==> OperationOk(g, o) && Distinct(o.outputs) && forall x :: x in o.outputs ==> x !in produced
    ensures ok ==> produced' == produced + SetOf(o.outputs)
  {
    produced' := produced;
    var inputs := AllKnown(o.inputs, valueIds);
    var outputs := AllKnown(o.outputs, valueIds);
    var parameters := AllKnown(o.parameters, slotIds);
    if !inputs || !outputs || !parameters || (IsBinary(o.kind) && !EqualOperands(g.values, o)) {
      return false, produced;
    }
    for i := 0 to |o.outputs|
      invariant Distinct(o.outputs[..i]) && produced' == produced + SetOf(o.outputs[..i])
      invariant forall x :: x in o.outputs[..i] ==> x !in produced
    {
      assert o.outputs[..i + 1] == o.outputs[..i] + [o.outputs[i]];
      DistinctAppend(o.outputs[..i], o.outputs[i]);
      if o.outputs[i] in produced' {
        if o.outputs[i] !in produced {
          NotDistinctStays(o.outputs, i + 1);
        }
        return false, produced;
      }
      produced' := produced' + {o.outputs[i]};
    }
    assert o.outputs[..|o.outputs|] == o.outputs;
    return true, produced';
  }

  lemma {:induction false} DistinctConcat<T>(a: seq<T>, b: seq<T>)
    ensures Distinct(a + b) <==> Distinct(a) && Distinct(b) && forall x :: x in b ==> x !in a
  {
    if b == [] {
      assert a + b == a;
    } else {
      var n := |b| - 1;
      DistinctConcat(a, b[..n]);
      DistinctAppend(a + b[..n], b[n]);
      DistinctAppend(b[..n], b[n]);
      assert a + b == a + b[..n] + [b[n]] && b == b[..n] + [b[n]];
      assert forall x :: x in b <==> x in b[..n] || x == b[n];
    }
  }

  ghost predicate OperationsOk(g: Graph, ops: seq<Operation>) {
    && Distinct(OperationIds(ops)) && Distinct(Outputs(ops))
    && forall o :: o in ops ==> OperationOk(g, o)
  }

  lemma OperationsStep(g: Graph, ops: seq<Operation>, o: Operation)
    ensures OperationsOk(g, ops + [o])
        <==> OperationsOk(g, ops) && o.id !in OperationIds(ops) && OperationOk(g, o) && Distinct(o.outputs)
             && forall x :: x in o.outputs ==> x !in Outputs(ops)
  {
    IdsAppend(OperationId, ops, o);
    DistinctAppend(OperationIds(ops), o.id);
    FlatMapAppend(OutputsOf, ops, [o]);
    FlatMapOne(OutputsOf, o);
    DistinctConcat(Outputs(ops), o.outputs);
    assert forall x :: x in ops + [o] <==> x in ops || x == o;
  }

  lemma {:induction false} OperationsStayBad(g: Graph, n: nat)
    requires n <= |g.operations| && !OperationsOk(g, g.operations[..n])
    ensures !OperationsOk(g, g.operations)
    decreases |g.operations| - n
  {
    if n == |g.operations| {
      assert g.operations[..n] == g.operations;
    } else {
      assert g.operations[..n + 1] == g.operations[..n] + [g.operations[n]];
      OperationsStep(g, g.operations[..n], g.operations[n]);
      OperationsStayBad(g, n + 1);
    }
  }

  method VerifyOperations(g: Graph, valueIds: set<string>, slotIds: set<string>)
    returns (ok: bool, produced: set<string>, consumed: set<string>)
    requires valueIds == SetOf(ValueIds(g.values)) && slotIds == SetOf(SlotIds(g.slots))
    ensures ok <==> OperationsOk(g, g.operations)
    ensures ok ==> produced == SetOf(Outputs(g.operations)) && consumed == SetOf(Consumed(g.operations))
  {
    var ids: set<string> := {};
    produced, consumed := {}, {};
    var ops := g.operations;
    for i := 0 to |ops|
      invariant OperationsOk(g, ops[..i]) && ids == SetOf(OperationIds(ops[..i]))
      invariant produced == SetOf(Outputs(ops[..i])) && consumed == SetOf(Consumed(ops[..i]))
    {
      var o := ops[i];
      assert ops[..i + 1] == ops[..i] + [o];
      OperationsStep(g, ops[..i], o);
      IdsAppend(OperationId, ops[..i], o);
      FlatMapStep(OutputsOf, ops, i);
      FlatMapStep(ParametersOf, ops, i);
      if o.id in ids {
        OperationsStayBad(g, i + 1);
        return false, produced, consumed;
      }
      var good;
      good, produced := VerifyOperation(g, o, valueIds, slotIds, produced);
      if !good {
        OperationsStayBad(g, i + 1);
        return false, produced, consumed;
      }
      ids := ids + {o.id};
      consumed := consumed + SetOf(o.parameters);
    }
    assert ops[..|ops|] == ops;
    return true, produced, consumed;
  }

  method VerifyGraph(g: Graph) returns (ok: bool)
    ensures ok <==> GraphOk(g)
  {
    if g.version != 1 {
      return false;
    }
    var values, valueIds := AllDistinct(ValueIds(g.values));
    var slots, slotIds := AllDistinct(SlotIds(g.slots));
    if !values || !slots {
      return false;
    }
    var operations, produced, consumed := VerifyOperations(g, valueIds, slotIds);
    if !operations {
      return false;
    }
    var allProduced := AllKnown(ValueIds(g.values), produced);
    if !allProduced {
      return false;
    }
    var allConsumed := AllRequiredConsumed(g.slots, consumed);
    if !allConsumed {
      return false;
    }
    ok := VerifyExports(g, valueIds);
  }

  method AllRequiredConsumed(slots: seq<Slot>, consumed: set<string>) returns (ok: bool)
    ensures ok <==> forall s :: s in slots && !s.optional ==> s.id in consumed
  {
    for i := 0 to |slots|
      invariant forall k :: 0 <= k < i && !slots[k].optional ==> slots[k].id in consumed
    {
      if !slots[i].optional && slots[i].id !in consumed {
        return false;
      }
    }
    return true;
  }

  method VerifyExports(g: Graph, valueIds: set<string>) returns (ok: bool)
    requires valueIds == SetOf(ValueIds(g.values))
    ensures ok <==> Distinct(Ids(ExportName, g.exports)) && forall e :: e in g.exports ==> ExportOk(g, e)
  {
    var names, seen := AllDistinct(Ids(ExportName, g.exports));
    if !names {
      return false;
    }
    for i := 0 to |g.exports|
      invariant forall k :: 0 <= k < i ==> ExportOk(g, g.exports[k])
    {
      var e := g.exports[i];
      var inputs := AllKnown(e.inputs, valueIds);
      var outputs := AllKnown(e.outputs, valueIds);
      if e.outputs == [] || !inputs || !outputs {
        assert e in g.exports && !ExportOk(g, e);
        return false;
      }
    }
    return true;
  }

  method FindExport(g: Graph, name: string, mode: Mode) returns (found: bool)
    ensures found <==> HasExport(g, name, mode)
  {
    for i := 0 to |g.exports|
      invariant forall k :: 0 <= k < i ==> !(g.exports[k].name == name && g.exports[k].mode == mode)
    {
      if g.exports[i].name == name && g.exports[i].mode == mode {
        return true;
      }
    }
    return false;
  }

  method VerifyConformance(g: Graph) returns (ok: bool)
    ensures ok <==> Conforms(g)
  {
    var graph := VerifyGraph(g);
    if !graph {
      return false;
    }
    var prefill := FindExport(g, "prefill", Prefill);
    var decode := FindExport(g, "decode", Decode);
    ok := prefill && decode;
  }
}
