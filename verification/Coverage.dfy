/** Dry-run coverage: a kernel for every operation in every exported mode. */
module Coverage {
  import opened Wrappers
  import opened KernelRegistry
  import G = Graph

  /** A logical parameter, as far as kernel selection looks at it. */
  datatype Parameter = Parameter(canonicalName: string, encoding: EncodingKey)
  datatype Bound = Bound(slotId: string, canonicalName: string, logicalShape: seq<nat>, transposed: bool)

  datatype Problem = InvalidParameter | NotBound | SelectionFailed

  /** What a dry run is given besides the graph and the kernels. */
  datatype Inputs = Inputs(parameters: seq<Parameter>, bindings: seq<Bound>, isValid: Parameter -> bool, target: Target,
                           sensitiveType: Scalar)

  datatype Entry = Entry(operationId: string, operation: Kind, mode: G.Mode, encoding: Option<EncodingKey>,
                         selected: Option<Selected>, logicalShape: Option<seq<nat>>, parameterSlots: seq<string>,
                         problem: Option<Problem>)

  datatype SelectedKernel = SelectedKernel(operationId: string, mode: G.Mode, kernelId: string, loweringId: string,
                                           parameterSlots: seq<string>, inputType: Scalar, outputType: Scalar,
                                           activationType: Scalar, accumulatorType: Scalar)

  // ---- what a slot is bound to ----

  function FirstNamed(parameters: seq<Parameter>, name: string): Option<Parameter> {
    if parameters == [] then None
    else if parameters[0].canonicalName == name then Some(parameters[0])
    else FirstNamed(parameters[1..], name)
  }

  /** The last binding of the slot wins, for the binding itself and for the parameter behind it. */
  function BoundOf(bindings: seq<Bound>, slot: string): Option<Bound> {
    if bindings == [] then None
    else if bindings[|bindings| - 1].slotId == slot then Some(bindings[|bindings| - 1])
    else BoundOf(bindings[..|bindings| - 1], slot)
  }

  function DefinitionOf(bindings: seq<Bound>, parameters: seq<Parameter>, slot: string): Option<Parameter> {
    if bindings == [] then None
    else
      var last := bindings[|bindings| - 1];
      var found := FirstNamed(parameters, last.canonicalName);
      if last.slotId == slot && found.Some? then found
      else DefinitionOf(bindings[..|bindings| - 1], parameters, slot)
  }

  method LookUps(bindings: seq<Bound>, parameters: seq<Parameter>)
    returns (definitions: map<string, Parameter>, bounds: map<string, Bound>)
    ensures forall s :: DefinitionOf(bindings, parameters, s) == if s in definitions then Some(definitions[s]) else None
    ensures forall s :: BoundOf(bindings, s) == if s in bounds then Some(bounds[s]) else None
  {
    definitions, bounds := map[], map[];
    for i := 0 to |bindings|
      invariant forall s :: DefinitionOf(bindings[..i], parameters, s)
                            == if s in definitions then Some(definitions[s]) else None
      invariant forall s :: BoundOf(bindings[..i], s) == if s in bounds then Some(bounds[s]) else None
    {
      var b := bindings[i];
      var found := FirstNamed(parameters, b.canonicalName);
      if found.Some? {
        definitions := definitions[b.slotId := found.value];
      }
      bounds := bounds[b.slotId := b];
      assert bindings[..i + 1][..i] == bindings[..i];
    }
    assert bindings[..|bindings|] == bindings;
  }

  // ---- one operation in one mode ----

  function ParameterOf(o: G.Operation, inputs: Inputs): Option<Parameter> {
    if o.parameters == [] then None else DefinitionOf(inputs.bindings, inputs.parameters, o.parameters[0])
  }

  function BindingOf(o: G.Operation, inputs: Inputs): Option<Bound> {
    if o.parameters == [] then None else BoundOf(inputs.bindings, o.parameters[0])
  }

  function ProblemOf(o: G.Operation, inputs: Inputs): Option<Problem> {
    var p := ParameterOf(o, inputs);
    if p.Some? then if inputs.isValid(p.value) then None else Some(InvalidParameter)
    else if o.parameters != [] then Some(NotBound)
    else None
  }

  function EncodingOf(p: Option<Parameter>): Option<EncodingKey> { if p.Some? then Some(p.value.encoding) else None }

  function ShapeOf(b: Option<Bound>): Option<seq<nat>> { if b.Some? then Some(b.value.logicalShape) else None }

  function OrientationOf(b: Option<Bound>): Orientation {
    if b.Some? && b.value.transposed then LogicalTranspose else Native
  }

  function RequestFor(o: G.Operation, mode: G.Mode, inputs: Inputs): Request {
    var b := BindingOf(o, inputs);
    Request(KindOf(o.kind), EncodingOf(ParameterOf(o, inputs)), ShapeOf(b), OrientationOf(b), mode, inputs.sensitiveType)
  }

  /** The entry reports the operation, and the choice among the candidates for it. */
  ghost predicate IsEntry(e: Entry, o: G.Operation, mode: G.Mode, inputs: Inputs, candidates: seq<Candidate>) {
    && e.operationId == o.id && e.operation == KindOf(o.kind) && e.mode == mode && e.parameterSlots == o.parameters
    && e.encoding == EncodingOf(ParameterOf(o, inputs)) && e.logicalShape == ShapeOf(BindingOf(o, inputs))
    && e.problem == ProblemOf(o, inputs)
    && IsSelection(e.selected, candidates, RequestFor(o, mode, inputs), inputs.target, DeterministicCost)
  }

  // ---- the report ----

  /** The exported modes, each once, prefill first. */
  function ModesOf(exports: seq<G.Export>): seq<G.Mode> {
    (if exists e :: e in exports && e.mode.Prefill? then [G.Prefill] else [])
    + if exists e :: e in exports && e.mode.Decode? then [G.Decode] else []
  }

  ghost predicate IsRow(row: seq<Entry>, o: G.Operation, modes: seq<G.Mode>, inputs: Inputs, candidates: seq<Candidate>) {
    |row| == |modes| && forall j :: 0 <= j < |modes| ==> IsEntry(row[j], o, modes[j], inputs, candidates)
  }

  /** The entries of the operations in their order, a row of modes for each. */
  ghost predicate Covers(entries: seq<Entry>, ops: seq<G.Operation>, modes: seq<G.Mode>, inputs: Inputs,
                         candidates: seq<Candidate>)
    decreases |ops|
  {
    if ops == [] then entries == []
    else
      var n, last := |entries| - |modes|, |ops| - 1;
      0 <= n && IsRow(entries[n..], ops[last], modes, inputs, candidates)
      && Covers(entries[..n], ops[..last], modes, inputs, candidates)
  }

  method SelectFor(o: G.Operation, mode: G.Mode, inputs: Inputs, registry: Registry,
                   definitions: map<string, Parameter>, bounds: map<string, Bound>) returns (e: Entry)
    requires forall s :: DefinitionOf(inputs.bindings, inputs.parameters, s)
                         == if s in definitions then Some(definitions[s]) else None
    requires forall s :: BoundOf(inputs.bindings, s) == if s in bounds then Some(bounds[s]) else None
    ensures IsEntry(e, o, mode, inputs, registry.candidates)
  {
    var hasSlot := o.parameters != [];
    var parameter := if hasSlot && o.parameters[0] in definitions then Some(definitions[o.parameters[0]]) else None;
    var bound := if hasSlot && o.parameters[0] in bounds then Some(bounds[o.parameters[0]]) else None;
    var problem: Option<Problem> := None;
    if parameter.Some? {
      if !inputs.isValid(parameter.value) {
        problem := Some(InvalidParameter);
      }
    } else if hasSlot {
      problem := Some(NotBound);
    }
    var request := Request(KindOf(o.kind), EncodingOf(parameter), ShapeOf(bound), OrientationOf(bound), mode,
                           inputs.sensitiveType);
    assert request == RequestFor(o, mode, inputs);
    var selection := registry.Select(request, inputs.target, DeterministicCost);
    var selected := None;
    if selection.Ok? {
      selected := selection.value.selected;
    } else {
      problem := Some(SelectionFailed);
    }
    e := Entry(o.id, request.operation, mode, request.encoding, selected, request.logicalShape, o.parameters, problem);
  }

  method SelectForModes(o: G.Operation, modes: seq<G.Mode>, inputs: Inputs, registry: Registry,
                        definitions: map<string, Parameter>, bounds: map<string, Bound>) returns (row: seq<Entry>)
    requires forall s :: DefinitionOf(inputs.bindings, inputs.parameters, s)
                         == if s in definitions then Some(definitions[s]) else None
    requires forall s :: BoundOf(inputs.bindings, s) == if s in bounds then Some(bounds[s]) else None
    ensures IsRow(row, o, modes, inputs, registry.candidates)
  {
    row := [];
    for j := 0 to |modes|
      invariant |row| == j
      invariant forall k :: 0 <= k < j ==> IsEntry(row[k], o, modes[k], inputs, registry.candidates)
    {
      var e := SelectFor(o, modes[j], inputs, registry, definitions, bounds);
      row := row + [e];
    }
  }

  lemma CoversMore(entries: seq<Entry>, row: seq<Entry>, ops: seq<G.Operation>, o: G.Operation, modes: seq<G.Mode>,
                   inputs: Inputs, candidates: seq<Candidate>)
    requires Covers(entries, ops, modes, inputs, candidates) && IsRow(row, o, modes, inputs, candidates)
    ensures Covers(entries + row, ops + [o], modes, inputs, candidates)
  {
    var all, n := entries + row, |entries|;
    assert all[n..] == row && all[..n] == entries && n == |all| - |modes|;
    assert (ops + [o])[..|ops|] == ops && (ops + [o])[|ops|] == o;
  }

  method DryRunCoverage(g: G.Graph, inputs: Inputs, registry: Registry) returns (entries: seq<Entry>)
    ensures Covers(entries, g.operations, ModesOf(g.exports), inputs, registry.candidates)
  {
    var definitions, bounds := LookUps(inputs.bindings, inputs.parameters);
    var modes := ModesOf(g.exports);
    entries := [];
    for i := 0 to |g.operations|
      invariant Covers(entries, g.operations[..i], modes, inputs, registry.candidates)
    {
      var row := SelectForModes(g.operations[i], modes, inputs, registry, definitions, bounds);
      CoversMore(entries, row, g.operations[..i], g.operations[i], modes, inputs, registry.candidates);
      assert g.operations[..i + 1] == g.operations[..i] + [g.operations[i]];
      entries := entries + row;
    }
    assert g.operations[..|g.operations|] == g.operations;
  }

  predicate IsComplete(entries: seq<Entry>) {
    forall e :: e in entries ==> e.selected.Some? && e.problem.None?
  }

  function KernelOf(e: Entry): SelectedKernel
    requires e.selected.Some?
  {
    var s := e.selected.value;
    SelectedKernel(e.operationId, e.mode, s.descriptor.id, s.descriptor.lowering, e.parameterSlots, s.inputType,
                   s.outputType, s.activationType, s.accumulatorType)
  }

  function SelectedKernels(entries: seq<Entry>): seq<SelectedKernel> {
    if entries == [] then []
    else (if entries[0].selected.Some? then [KernelOf(entries[0])] else []) + SelectedKernels(entries[1..])
  }

  lemma {:induction false} KernelsComeFromEntries(entries: seq<Entry>)
    ensures forall k :: k in SelectedKernels(entries) <==>
              exists e :: e in entries && e.selected.Some? && k == KernelOf(e)
  {
    if entries != [] {
      KernelsComeFromEntries(entries[1..]);
      assert entries == [entries[0]] + entries[1..];
    }
  }

  /** Every entry belongs to an operation and an exported mode. */
  lemma {:induction false} EntryHasOperation(entries: seq<Entry>, ops: seq<G.Operation>, modes: seq<G.Mode>, inputs: Inputs,
                                             candidates: seq<Candidate>, e: Entry)
    requires Covers(entries, ops, modes, inputs, candidates) && e in entries
    ensures exists o, m :: o in ops && m in modes && IsEntry(e, o, m, inputs, candidates)
    decreases |ops|
  {
    var n, last := |entries| - |modes|, |ops| - 1;
    if e in entries[..n] {
      EntryHasOperation(entries[..n], ops[..last], modes, inputs, candidates, e);
    } else {
      var k :| 0 <= k < |entries| && entries[k] == e;
      assert n <= k && entries[n..][k - n] == e;
      assert modes[k - n] in modes && IsEntry(e, ops[last], modes[k - n], inputs, candidates);
    }
  }

  /** Every operation has an entry in every exported mode. */
  lemma {:induction false} OperationHasEntry(entries: seq<Entry>, ops: seq<G.Operation>, modes: seq<G.Mode>, inputs: Inputs,
                                             candidates: seq<Candidate>, o: G.Operation, m: G.Mode)
    requires Covers(entries, ops, modes, inputs, candidates) && o in ops && m in modes
    ensures exists e :: e in entries && IsEntry(e, o, m, inputs, candidates)
    decreases |ops|
  {
    var n, last := |entries| - |modes|, |ops| - 1;
    if o in ops[..last] {
      OperationHasEntry(entries[..n], ops[..last], modes, inputs, candidates, o, m);
      var e :| e in entries[..n] && IsEntry(e, o, m, inputs, candidates);
      assert e in entries;
    } else {
      var i :| 0 <= i < |ops| && ops[i] == o;
      assert i == last;
      var j :| 0 <= j < |modes| && modes[j] == m;
      assert IsEntry(entries[n..][j], o, m, inputs, candidates) && entries[n + j] in entries;
    }
  }

  ghost predicate AllServed(ops: seq<G.Operation>, modes: seq<G.Mode>, inputs: Inputs, candidates: seq<Candidate>) {
    forall o, m :: o in ops && m in modes ==>
      && ProblemOf(o, inputs).None?
      && exists c :: c in candidates && Eligible(c, RequestFor(o, m, inputs), inputs.target)
  }

  /** Coverage is complete exactly when every operation has a sound parameter and an eligible kernel in every mode. */
  lemma CompleteMeansServed(entries: seq<Entry>, ops: seq<G.Operation>, modes: seq<G.Mode>, inputs: Inputs,
                            candidates: seq<Candidate>)
    requires Covers(entries, ops, modes, inputs, candidates)
    ensures IsComplete(entries) <==> AllServed(ops, modes, inputs, candidates)
  {
    forall o, m | o in ops && m in modes
      ensures exists e :: e in entries && IsEntry(e, o, m, inputs, candidates)
    {
      OperationHasEntry(entries, ops, modes, inputs, candidates, o, m);
    }
    forall e | e in entries ensures exists o, m :: o in ops && m in modes && IsEntry(e, o, m, inputs, candidates) {
      EntryHasOperation(entries, ops, modes, inputs, candidates, e);
    }
    forall e, o, m | IsEntry(e, o, m, inputs, candidates)
      ensures e.selected.Some? <==> exists c :: c in candidates && Eligible(c, RequestFor(o, m, inputs), inputs.target)
    {
      SelectedIfAny(candidates, RequestFor(o, m, inputs), inputs.target, DeterministicCost, e.selected);
    }
  }
}
