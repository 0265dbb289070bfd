/** The provider plan of bound parameters, and its agreement with the compiled manifest. */
module Provider {
  import opened Bytes
  import opened Wrappers
  import opened Sequences
  import opened Ordering
  import opened Binding

  datatype SourceFile = SourceFile(path: string, size: nat)
  datatype Catalog = Catalog(files: seq<SourceFile>, parameters: seq<Parameter>)

  datatype Descriptor = Descriptor(externalKey: string, alias: string, file: nat, offset: nat, length: nat)

  datatype ProviderPlan = ProviderPlan(scope: string, paths: seq<string>, parameters: seq<Descriptor>)

  datatype PlanError = NoFiles | UnknownParameter | UnknownComponent | OtherFile | NotContiguous | OtherLength
                     | FileOutOfRange | Overflow | OutOfFile | DuplicateKey

  /** One component of one binding. */
  datatype Use = Use(bound: Bound, component: ComponentBinding)

  function UsesOf(b: Bound): seq<Use> {
    seq(|b.components|, i requires 0 <= i < |b.components| => Use(b, b.components[i]))
  }

  function Uses(bindings: seq<Bound>): seq<Use> { FlatMap(UsesOf, bindings) }

  // ---- the parameter of a binding ----

  function FirstParameter(ps: seq<Parameter>, name: string): Option<Parameter> {
    if ps == [] then None else if ps[0].canonicalName == name then Some(ps[0]) else FirstParameter(ps[1..], name)
  }

  /** Some parameter has the name as its canonical name. */
  predicate IsNamed(ps: seq<Parameter>, name: string) { exists p :: p in ps && p.canonicalName == name }

  lemma {:induction false} FirstParameterIs(ps: seq<Parameter>, name: string)
    ensures var p := FirstParameter(ps, name);
            if p.Some? then p.value in ps && p.value.canonicalName == name else !IsNamed(ps, name)
  {
    if ps != [] {
      FirstParameterIs(ps[1..], name);
      assert ps == [ps[0]] + ps[1..];
    }
  }

  ghost predicate AllNamed(catalog: Catalog, bindings: seq<Bound>) {
    forall b :: b in bindings ==> IsNamed(catalog.parameters, b.canonicalName)
  }

  // ---- one component ----

  predicate Same(c: Component, b: ComponentBinding) { c.name == b.componentName && c.key == b.checkpointKey }

  function FirstComponent(cs: seq<Component>, b: ComponentBinding): Option<Component> {
    if cs == [] then None else if Same(cs[0], b) then Some(cs[0]) else FirstComponent(cs[1..], b)
  }

  /** The component of the catalog behind a use, if it can be read straight from its file. */
  function Resolve(catalog: Catalog, u: Use): Result<Descriptor, PlanError> {
    var p := FirstParameter(catalog.parameters, u.bound.canonicalName);
    if p.None? then Err(UnknownParameter) else ResolveIn(catalog.files, p.value, u.component)
  }

  function ResolveIn(files: seq<SourceFile>, p: Parameter, b: ComponentBinding): (r: Result<Descriptor, PlanError>)
    ensures r.Err? ==> r.error !in {NoFiles, UnknownParameter, DuplicateKey}
  {
    var c := FirstComponent(p.components, b);
    if c.None? then Err(UnknownComponent) else ResolveComponent(files, c.value, b)
  }

  function ResolveComponent(files: seq<SourceFile>, c: Component, b: ComponentBinding): Result<Descriptor, PlanError> {
    if c.file != b.file then Err(OtherFile)
    else if |c.ranges| != 1 then Err(NotContiguous)
    else
      var range := c.ranges[0];
      if b.byteLengths != [range.length] then Err(OtherLength)
      else if c.file >= |files| then Err(FileOutOfRange)
      else if range.offset + range.length > U64_MAX then Err(Overflow)
      else if range.length == 0 || range.offset + range.length > files[c.file].size then Err(OutOfFile)
      else Ok(Descriptor(b.externalKey, b.checkpointKey, c.file, range.offset, range.length))
  }

  // ---- the plan ----

  ghost predicate DistinctKeys(uses: seq<Use>) {
    forall i, j :: 0 <= i < j < |uses| ==> uses[i].component.externalKey != uses[j].component.externalKey
  }

  ghost predicate AllResolve(catalog: Catalog, uses: seq<Use>) { forall u :: u in uses ==> Resolve(catalog, u).Ok? }

  function DescriptorsOf(catalog: Catalog, uses: seq<Use>): (ds: seq<Descriptor>)
    requires AllResolve(catalog, uses)
    ensures |ds| == |uses|
  {
    seq(|uses|, i requires 0 <= i < |uses| => assert uses[i] in uses; Resolve(catalog, uses[i]).value)
  }

  /** Every binding names a parameter, even one without components, and every component can be read. */
  ghost predicate Accepted(catalog: Catalog, bindings: seq<Bound>) {
    && catalog.files != [] && AllNamed(catalog, bindings)
    && AllResolve(catalog, Uses(bindings)) && DistinctKeys(Uses(bindings))
  }

  /** What an error about a component says. */
  ghost predicate Refuses(catalog: Catalog, uses: seq<Use>, e: PlanError) {
    if e == DuplicateKey then !DistinctKeys(uses) else exists u :: u in uses && Resolve(catalog, u) == Err(e)
  }

  /** What an error says about the whole. */
  ghost predicate Explains(catalog: Catalog, bindings: seq<Bound>, e: PlanError) {
    match e
    case NoFiles => catalog.files == []
    case UnknownParameter => !AllNamed(catalog, bindings)
    case _ => Refuses(catalog, Uses(bindings), e)
  }

  predicate ByKey(a: Descriptor, b: Descriptor) { LexLe(a.externalKey, b.externalKey) }

  predicate KeysOf(keys: set<string>, uses: seq<Use>) {
    keys == set u | u in uses :: u.component.externalKey
  }

  lemma KeysGrow(keys: set<string>, uses: seq<Use>, u: Use)
    requires KeysOf(keys, uses) && DistinctKeys(uses)
    ensures KeysOf(keys + {u.component.externalKey}, uses + [u])
    ensures u.component.externalKey !in keys <==> DistinctKeys(uses + [u])
  {
    var all := uses + [u];
    forall k ensures k in keys + {u.component.externalKey} <==> k in (set x | x in all :: x.component.externalKey) {
      if k in keys {
        var x :| x in uses && x.component.externalKey == k;
        assert x in all;
      }
      assert u in all;
    }
    if u.component.externalKey in keys {
      var x :| x in uses && x.component.externalKey == u.component.externalKey;
      var i :| 0 <= i < |uses| && uses[i] == x;
      assert all[i].component.externalKey == all[|uses|].component.externalKey;
    } else {
      forall i, j | 0 <= i < j < |all| ensures all[i].component.externalKey != all[j].component.externalKey {
        assert uses[i] in uses;
      }
    }
  }

  lemma DistinctPart(a: seq<Use>, b: seq<Use>)
    requires DistinctKeys(a + b)
    ensures DistinctKeys(a) && DistinctKeys(b)
  {
    forall i, j | 0 <= i < j < |a| ensures a[i].component.externalKey != a[j].component.externalKey {
      assert (a + b)[i] == a[i] && (a + b)[j] == a[j];
    }
    forall i, j | 0 <= i < j < |b| ensures b[i].component.externalKey != b[j].component.externalKey {
      assert (a + b)[|a| + i] == b[i] && (a + b)[|a| + j] == b[j];
    }
  }

  /** Adds the descriptor of one component of a parameter. */
  method AddComponent(catalog: Catalog, p: Parameter, u: Use, parameters: seq<Descriptor>, keys: set<string>,
                      ghost done: seq<Use>)
    returns (r: Result<Descriptor, PlanError>, keys': set<string>)
    requires FirstParameter(catalog.parameters, u.bound.canonicalName) == Some(p)
    requires AllResolve(catalog, done) && DistinctKeys(done) && KeysOf(keys, done)
    requires parameters == DescriptorsOf(catalog, done)
    ensures r.Err? ==> r.error !in {NoFiles, UnknownParameter} && Refuses(catalog, done + [u], r.error)
    ensures r.Ok? ==> AllResolve(catalog, done + [u]) && DistinctKeys(done + [u]) && KeysOf(keys', done + [u])
    ensures r.Ok? ==> parameters + [r.value] == DescriptorsOf(catalog, done + [u])
  {
    keys' := keys;
    r := ResolveIn(catalog.files, p, u.component);
    KeysGrow(keys, done, u);
    assert r == Resolve(catalog, u) && u in done + [u];
    if r.Err? {
      return;
    }
    if u.component.externalKey in keys {
      return Err(DuplicateKey), keys;
    }
    keys' := keys + {u.component.externalKey};
  }

  lemma RefusalStays(catalog: Catalog, done: seq<Use>, rest: seq<Use>, e: PlanError)
    requires Refuses(catalog, done, e)
    ensures Refuses(catalog, done + rest, e)
  {
    assert forall u :: u in done ==> u in done + rest;
    if DistinctKeys(done + rest) {
      DistinctPart(done, rest);
    }
  }

  lemma RefusedIsNotAccepted(catalog: Catalog, bindings: seq<Bound>, e: PlanError)
    requires Explains(catalog, bindings, e)
    ensures !Accepted(catalog, bindings)
  {
  }

  /** Adds the descriptors of one binding, whose parameter is looked up first. */
  method AddBinding(catalog: Catalog, b: Bound, parameters: seq<Descriptor>, keys: set<string>, ghost done: seq<Use>)
    returns (r: Result<seq<Descriptor>, PlanError>, keys': set<string>)
    requires AllResolve(catalog, done) && DistinctKeys(done) && KeysOf(keys, done)
    requires parameters == DescriptorsOf(catalog, done)
    ensures !IsNamed(catalog.parameters, b.canonicalName) <==> r == Err(UnknownParameter)
    ensures r.Err? && r.error != UnknownParameter ==>
              r.error != NoFiles && Refuses(catalog, done + UsesOf(b), r.error)
    ensures r.Ok? ==> AllResolve(catalog, done + UsesOf(b)) && DistinctKeys(done + UsesOf(b))
                      && KeysOf(keys', done + UsesOf(b)) && r.value == DescriptorsOf(catalog, done + UsesOf(b))
  {
    var parameter := FirstParameter(catalog.parameters, b.canonicalName);
    FirstParameterIs(catalog.parameters, b.canonicalName);
    if parameter.None? {
      return Err(UnknownParameter), keys;
    }
    r, keys' := AddComponents(catalog, parameter.value, b, parameters, keys, done);
  }

  method AddComponents(catalog: Catalog, p: Parameter, b: Bound, parameters: seq<Descriptor>, keys: set<string>,
                       ghost done: seq<Use>)
    returns (r: Result<seq<Descriptor>, PlanError>, keys': set<string>)
    requires FirstParameter(catalog.parameters, b.canonicalName) == Some(p)
    requires AllResolve(catalog, done) && DistinctKeys(done) && KeysOf(keys, done)
    requires parameters == DescriptorsOf(catalog, done)
    ensures r.Err? ==> r.error !in {NoFiles, UnknownParameter} && Refuses(catalog, done + UsesOf(b), r.error)
    ensures r.Ok? ==> AllResolve(catalog, done + UsesOf(b)) && DistinctKeys(done + UsesOf(b))
                      && KeysOf(keys', done + UsesOf(b)) && r.value == DescriptorsOf(catalog, done + UsesOf(b))
  {
    ghost var uses := UsesOf(b);
    var found := parameters;
    keys' := keys;
    for j := 0 to |b.components|
      invariant AllResolve(catalog, done + uses[..j]) && DistinctKeys(done + uses[..j])
      invariant KeysOf(keys', done + uses[..j]) && found == DescriptorsOf(catalog, done + uses[..j])
    {
      assert done + uses[..j + 1] == done + uses[..j] + [uses[j]];
      assert uses == uses[..j + 1] + uses[j + 1..];
      Associate(done, uses[..j + 1], uses[j + 1..]);
      var d;
      d, keys' := AddComponent(catalog, p, Use(b, b.components[j]), found, keys', done + uses[..j]);
      if d.Err? {
        RefusalStays(catalog, done + uses[..j + 1], uses[j + 1..], d.error);
        return Err(d.error), keys';
      }
      found := found + [d.value];
    }
    assert uses[..|uses|] == uses;
    return Ok(found), keys';
  }

  const PLAN_SCOPE := "weights"

  function PathsOf(files: seq<SourceFile>): seq<string> {
    seq(|files|, i requires 0 <= i < |files| => files[i].path)
  }

  /** The descriptors of all bound components, sorted by their keys. */
  method BuildProviderPlan(catalog: Catalog, bindings: seq<Bound>) returns (r: Result<ProviderPlan, PlanError>)
    ensures r.Ok? <==> Accepted(catalog, bindings)
    ensures r.Err? ==> Explains(catalog, bindings, r.error)
    ensures r.Ok? ==> r.value == ProviderPlan(PLAN_SCOPE, PathsOf(catalog.files),
                                              Sort(ByKey, DescriptorsOf(catalog, Uses(bindings))))
  {
    if catalog.files == [] {
      return Err(NoFiles);
    }
    var parameters: seq<Descriptor>, keys: set<string> := [], {};
    for i := 0 to |bindings|
      invariant AllNamed(catalog, bindings[..i])
      invariant AllResolve(catalog, Uses(bindings[..i])) && DistinctKeys(Uses(bindings[..i]))
      invariant KeysOf(keys, Uses(bindings[..i])) && parameters == DescriptorsOf(catalog, Uses(bindings[..i]))
    {
      FlatMapStep(UsesOf, bindings, i);
      FlatMapAppend(UsesOf, bindings[..i + 1], bindings[i + 1..]);
      assert bindings == bindings[..i + 1] + bindings[i + 1..];
      var added;
      added, keys := AddBinding(catalog, bindings[i], parameters, keys, Uses(bindings[..i]));
      if added.Err? {
        assert bindings[i] in bindings;
        if added.error != UnknownParameter {
          RefusalStays(catalog, Uses(bindings[..i + 1]), Uses(bindings[i + 1..]), added.error);
        }
        RefusedIsNotAccepted(catalog, bindings, added.error);
        return Err(added.error);
      }
      parameters := added.value;
    }
    assert bindings[..|bindings|] == bindings;
    parameters := Sort(ByKey, parameters);
    return Ok(ProviderPlan(PLAN_SCOPE, PathsOf(catalog.files), parameters));
  }
}
