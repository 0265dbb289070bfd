/** The component map of a compiled bundle, and the one its loader recomputes. */
module Manifest {
  import opened Wrappers
  import opened Sequences
  import opened Ordering
  import opened Binding
  import opened Provider
  import opened BindToLoad

  type Key = (string, string)

  datatype ManifestComponent = ManifestComponent(scope: string, key: string, byteLength: nat)

  function ComponentOf(u: Use): ManifestComponent {
    ManifestComponent(u.bound.scope, u.component.externalKey, Sum(u.component.byteLengths))
  }

  /** By scope, then key, then length. */
  predicate Precedes(a: ManifestComponent, b: ManifestComponent) {
    if a.scope != b.scope then LexLe(a.scope, b.scope)
    else if a.key != b.key then LexLe(a.key, b.key)
    else a.byteLength <= b.byteLength
  }

  /** The components that the compiler writes down. */
  function ManifestComponents(bindings: seq<Bound>): seq<ManifestComponent> {
    var uses := Uses(bindings);
    Sort(Precedes, seq(|uses|, i requires 0 <= i < |uses| => ComponentOf(uses[i])))
  }

  /** A map collected from pairs: a later pair replaces an earlier one. */
  function Collect(pairs: seq<(Key, nat)>): map<Key, nat> {
    if pairs == [] then map[]
    else Collect(pairs[..|pairs| - 1])[pairs[|pairs| - 1].0 := pairs[|pairs| - 1].1]
  }

  function ManifestPairs(components: seq<ManifestComponent>): seq<(Key, nat)> {
    seq(|components|, i requires 0 <= i < |components| =>
      ((components[i].scope, components[i].key), components[i].byteLength))
  }

  function PlanPairs(plan: ProviderPlan): seq<(Key, nat)> {
    seq(|plan.parameters|, i requires 0 <= i < |plan.parameters| =>
      ((plan.scope, plan.parameters[i].externalKey), plan.parameters[i].length))
  }

  lemma {:induction false} CollectHas(pairs: seq<(Key, nat)>, k: Key)
    ensures k in Collect(pairs) <==> exists p :: p in pairs && p.0 == k
    ensures k in Collect(pairs) ==> (k, Collect(pairs)[k]) in pairs
  {
    if pairs != [] {
      var n := |pairs| - 1;
      CollectHas(pairs[..n], k);
      assert pairs == pairs[..n] + [pairs[n]];
      assert pairs[n] == (pairs[n].0, pairs[n].1);
    }
  }

  ghost predicate OneValue(pairs: seq<(Key, nat)>) {
    forall p, q :: p in pairs && q in pairs && p.0 == q.0 ==> p == q
  }

  /** The same pairs, one for each key, collect to the same map, in whatever order. */
  lemma CollectSame(a: seq<(Key, nat)>, b: seq<(Key, nat)>)
    requires OneValue(a) && forall p :: p in a <==> p in b
    ensures Collect(a) == Collect(b)
  {
    forall k ensures k in Collect(a) <==> k in Collect(b) {
      CollectHas(a, k);
      CollectHas(b, k);
    }
    forall k | k in Collect(a) ensures Collect(a)[k] == Collect(b)[k] {
      CollectHas(a, k);
      CollectHas(b, k);
      assert (k, Collect(a)[k]) in a && (k, Collect(b)[k]) in a;
    }
  }

  function PairOf(u: Use, scope: string, length: nat): (Key, nat) { ((scope, u.component.externalKey), length) }

  /** Sorted or not, a sequence made from another element by element holds the images of its elements. */
  lemma ImageHas<A, B>(uses: seq<A>, image: seq<B>, f: A -> B, sorted: seq<B>, x: B)
    requires |image| == |uses| && forall i :: 0 <= i < |uses| ==> image[i] == f(uses[i])
    requires forall y :: y in sorted <==> y in image
    ensures x in sorted <==> exists u :: u in uses && x == f(u)
  {
    if x in sorted {
      var j :| 0 <= j < |image| && image[j] == x;
      assert uses[j] in uses;
    }
    if u :| u in uses && x == f(u) {
      var j :| 0 <= j < |uses| && uses[j] == u;
      assert image[j] in image;
    }
  }

  function ManifestPair(c: ManifestComponent): (Key, nat) { ((c.scope, c.key), c.byteLength) }

  function PlanPair(scope: string, d: Descriptor): (Key, nat) { ((scope, d.externalKey), d.length) }

  lemma ManifestHas(bindings: seq<Bound>, p: (Key, nat))
    ensures p in ManifestPairs(ManifestComponents(bindings))
       <==> exists u :: u in Uses(bindings) && p == PairOf(u, u.bound.scope, Sum(u.component.byteLengths))
  {
    var uses, cs := Uses(bindings), ManifestComponents(bindings);
    var raw := seq(|uses|, i requires 0 <= i < |uses| => ComponentOf(uses[i]));
    SortKeeps(Precedes, raw);
    forall c ensures c in cs <==> exists u :: u in uses && c == ComponentOf(u) {
      ImageHas(uses, raw, u => ComponentOf(u), cs, c);
    }
    ImageHas(cs, ManifestPairs(cs), c => ManifestPair(c), ManifestPairs(cs), p);
    if p in ManifestPairs(cs) {
      var c :| c in cs && p == ManifestPair(c);
      var u :| u in uses && c == ComponentOf(u);
      assert p == PairOf(u, u.bound.scope, Sum(u.component.byteLengths));
    }
    if u :| u in uses && p == PairOf(u, u.bound.scope, Sum(u.component.byteLengths)) {
      assert ComponentOf(u) in cs && p == ManifestPair(ComponentOf(u));
    }
  }

  lemma PlanHas(catalog: Catalog, bindings: seq<Bound>, plan: ProviderPlan, p: (Key, nat))
    requires AllResolve(catalog, Uses(bindings))
    requires plan.parameters == Sort(ByKey, DescriptorsOf(catalog, Uses(bindings)))
    ensures p in PlanPairs(plan)
       <==> exists u :: u in Uses(bindings) && p == PairOf(u, plan.scope, Sum(u.component.byteLengths))
  {
    var uses, ds := Uses(bindings), DescriptorsOf(catalog, Uses(bindings));
    var pairs := seq(|ds|, i requires 0 <= i < |ds| => PlanPair(plan.scope, ds[i]));
    SortKeeps(ByKey, ds);
    forall i | 0 <= i < |uses|
      ensures pairs[i] == PairOf(uses[i], plan.scope, Sum(uses[i].component.byteLengths))
    {
      assert uses[i] in uses;
      ResolvedKey(catalog, uses[i]);
    }
    forall x ensures x in PlanPairs(plan) <==> x in pairs {
      ImageHas(plan.parameters, PlanPairs(plan), d => PlanPair(plan.scope, d), PlanPairs(plan), x);
      ImageHas(ds, pairs, d => PlanPair(plan.scope, d), pairs, x);
    }
    ImageHas(uses, pairs, (u: Use) => PairOf(u, plan.scope, Sum(u.component.byteLengths)), PlanPairs(plan), p);
  }

  lemma OneValueEach(bindings: seq<Bound>)
    requires DistinctKeys(Uses(bindings))
    ensures OneValue(ManifestPairs(ManifestComponents(bindings)))
  {
    var pairs := ManifestPairs(ManifestComponents(bindings));
    forall p, q | p in pairs && q in pairs && p.0 == q.0 ensures p == q {
      ManifestHas(bindings, p);
      ManifestHas(bindings, q);
      var u :| u in Uses(bindings) && p == PairOf(u, u.bound.scope, Sum(u.component.byteLengths));
      var v :| v in Uses(bindings) && q == PairOf(v, v.bound.scope, Sum(v.component.byteLengths));
      var i :| 0 <= i < |Uses(bindings)| && Uses(bindings)[i] == u;
      var j :| 0 <= j < |Uses(bindings)| && Uses(bindings)[j] == v;
    }
  }

  ghost predicate AllInScope(bindings: seq<Bound>, scope: string) {
    forall u :: u in Uses(bindings) ==> u.bound.scope == scope
  }

  /** For an accepted plan the manifest's map is the loader's exactly when the binder used the loader's scope. */
  lemma MapsAgreeIff(catalog: Catalog, bindings: seq<Bound>, plan: ProviderPlan, scope: string)
    requires Accepted(catalog, bindings) && AllInScope(bindings, scope)
    requires plan.parameters == Sort(ByKey, DescriptorsOf(catalog, Uses(bindings)))
    ensures Collect(ManifestPairs(ManifestComponents(bindings))) == Collect(PlanPairs(plan))
       <==> scope == plan.scope || Uses(bindings) == []
  {
    var a, b := ManifestPairs(ManifestComponents(bindings)), PlanPairs(plan);
    OneValueEach(bindings);
    if scope == plan.scope || Uses(bindings) == [] {
      forall p ensures p in a <==> p in b {
        ManifestHas(bindings, p);
        PlanHas(catalog, bindings, plan, p);
      }
      CollectSame(a, b);
    } else {
      var u := Uses(bindings)[0];
      var p := PairOf(u, scope, Sum(u.component.byteLengths));
      assert u in Uses(bindings);
      ManifestHas(bindings, p);
      CollectHas(a, p.0);
      CollectHas(b, p.0);
      forall q | q in b ensures q.0 != p.0 {
        PlanHas(catalog, bindings, plan, q);
      }
    }
  }

  // ---- binding, compiling and loading ----

  datatype LoadError = BindFailed(bind: Error) | PlanFailed(plan: PlanError) | ComponentsDiffer

  lemma ScopeOfBindings(slots: seq<Slot>, ps: seq<Parameter>, scope: string)
    ensures AllInScope(Bindings(slots, ps, scope), scope)
  {
    forall u | u in Uses(Bindings(slots, ps, scope)) ensures u.bound.scope == scope {
      var s, k := SlotOfUse(slots, ps, scope, u);
    }
  }

  /** Plans the provider for a bundle, and refuses a bundle whose components differ from the plan. */
  method Open(manifest: seq<ManifestComponent>, catalog: Catalog, bindings: seq<Bound>)
    returns (r: Result<ProviderPlan, LoadError>)
    ensures r.Ok? <==> Accepted(catalog, bindings)
                       && Collect(ManifestPairs(manifest)) == Collect(PlanPairs(PlanOf(catalog, bindings)))
    ensures r.Ok? ==> r.value == PlanOf(catalog, bindings)
  {
    var plan := BuildProviderPlan(catalog, bindings);
    if plan.Err? {
      return Err(PlanFailed(plan.error));
    }
    var expected := Collect(ManifestPairs(manifest));
    var actual := Collect(PlanPairs(plan.value));
    if expected != actual {
      return Err(ComponentsDiffer);
    }
    return Ok(plan.value);
  }

  ghost function PlanOf(catalog: Catalog, bindings: seq<Bound>): ProviderPlan {
    ProviderPlan(PLAN_SCOPE, PathsOf(catalog.files),
                 if AllResolve(catalog, Uses(bindings)) then Sort(ByKey, DescriptorsOf(catalog, Uses(bindings))) else [])
  }

  /** Binds, writes the manifest and loads: what has to hold for the loading to succeed, and nothing else. */
  method BindAndOpen(slots: seq<Slot>, catalog: Catalog, scope: string) returns (r: Result<ProviderPlan, LoadError>)
    ensures DistinctNames(catalog.parameters) && FilesAreU64(catalog.files) ==>
      var uses := Uses(Bindings(slots, catalog.parameters, scope));
      (r.Ok? <==>
        && Binds(slots, catalog.parameters) && catalog.files != [] && AllLoadable(slots, catalog)
        && DistinctKeys(uses) && (scope == PLAN_SCOPE || uses == []))
    ensures r.Ok? ==> r.value == PlanOf(catalog, Bindings(slots, catalog.parameters, scope))
  {
    var bound := Bind(slots, catalog.parameters, scope);
    if bound.Err? {
      return Err(BindFailed(bound.error));
    }
    var bindings := bound.value.bindings;
    if DistinctNames(catalog.parameters) && FilesAreU64(catalog.files) {
      PlanAcceptsIff(slots, catalog, scope);
    }
    ScopeOfBindings(slots, catalog.parameters, scope);
    if Accepted(catalog, bindings) {
      MapsAgreeIff(catalog, bindings, PlanOf(catalog, bindings), scope);
    }
    r := Open(ManifestComponents(bindings), catalog, bindings);
  }
}
