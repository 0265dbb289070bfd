/** From binding to loading: what a successful binding needs for the provider and the loader to agree with it. */
module BindToLoad {
  import opened Bytes
  import opened Wrappers
  import opened Sequences
  import opened Ordering
  import opened Binding
  import opened Provider

  // ---- looking up by name ----

  ghost predicate DistinctNames(ps: seq<Parameter>) {
    forall i, j :: 0 <= i < j < |ps| ==> ps[i].canonicalName != ps[j].canonicalName
  }

  lemma {:induction false} LastNamedIs(ps: seq<Parameter>, name: string)
    ensures var p := LastNamed(ps, name);
            if p.Some? then p.value in ps && p.value.canonicalName == name else !IsNamed(ps, name)
  {
    if ps != [] {
      LastNamedIs(ps[..|ps| - 1], name);
      assert ps == ps[..|ps| - 1] + [ps[|ps| - 1]];
    }
  }

  /** The binder's last and the provider's first parameter of a name are the same when names are distinct. */
  lemma SameParameter(ps: seq<Parameter>, name: string)
    requires DistinctNames(ps)
    ensures FirstParameter(ps, name) == if IsNamed(ps, name) then Lookup(ps, name) else None
  {
    LastNamedIs(ps, name);
    FirstParameterIs(ps, name);
    if IsNamed(ps, name) {
      var i :| 0 <= i < |ps| && ps[i] == LastNamed(ps, name).value;
      var j :| 0 <= j < |ps| && ps[j] == FirstParameter(ps, name).value;
    }
  }

  ghost predicate DistinctComponents(cs: seq<Component>) {
    forall i, j :: 0 <= i < j < |cs| ==> cs[i].name != cs[j].name
  }

  lemma {:induction false} SameComponent(cs: seq<Component>, k: nat, b: ComponentBinding)
    requires DistinctComponents(cs) && k < |cs| && Same(cs[k], b)
    ensures FirstComponent(cs, b) == Some(cs[k])
  {
    if k > 0 {
      assert cs[0].name != cs[k].name;
      SameComponent(cs[1..], k - 1, b);
    }
  }

  // ---- the uses of a binding ----

  predicate IsFound(s: Slot, ps: seq<Parameter>) { Lookup(ps, s.canonicalName).Some? }

  function Found(s: Slot, ps: seq<Parameter>): Parameter
    requires IsFound(s, ps)
  {
    Lookup(ps, s.canonicalName).value
  }

  /** The use that component k of the parameter of a slot is bound by. */
  function UseFor(s: Slot, ps: seq<Parameter>, scope: string, k: nat): Use
    requires IsFound(s, ps) && k < |Found(s, ps).components|
  {
    var p := Found(s, ps);
    Use(BoundTo(s, p, scope), BindComponent(scope, p, p.components[k]))
  }

  lemma SlotOfUse(slots: seq<Slot>, ps: seq<Parameter>, scope: string, u: Use) returns (s: Slot, k: nat)
    requires u in Uses(Bindings(slots, ps, scope))
    ensures s in slots && IsFound(s, ps) && k < |Found(s, ps).components| && u == UseFor(s, ps, scope, k)
  {
    var bindings := Bindings(slots, ps, scope);
    FlatMapMember(UsesOf, bindings, u);
    var b :| b in bindings && u in UsesOf(b);
    FlatMapMember(x => BoundSlot(x, ps, scope), slots, b);
    s :| s in slots && b in BoundSlot(s, ps, scope);
    k :| 0 <= k < |b.components| && UsesOf(b)[k] == u;
  }

  lemma BoundIsThere(slots: seq<Slot>, ps: seq<Parameter>, scope: string, s: Slot)
    requires s in slots && IsFound(s, ps)
    ensures BoundTo(s, Found(s, ps), scope) in Bindings(slots, ps, scope)
  {
    var b := BoundTo(s, Found(s, ps), scope);
    assert BoundSlot(s, ps, scope)[0] == b;
    FlatMapMember(x => BoundSlot(x, ps, scope), slots, b);
  }

  lemma UseIsThere(slots: seq<Slot>, ps: seq<Parameter>, scope: string, s: Slot, k: nat)
    requires s in slots && IsFound(s, ps) && k < |Found(s, ps).components|
    ensures UseFor(s, ps, scope, k) in Uses(Bindings(slots, ps, scope))
  {
    var b := BoundTo(s, Found(s, ps), scope);
    BoundIsThere(slots, ps, scope, s);
    assert UsesOf(b)[k] == UseFor(s, ps, scope, k);
    FlatMapMember(UsesOf, Bindings(slots, ps, scope), UseFor(s, ps, scope, k));
  }

  /** Distinct external keys tell the components of every parameter in use apart. */
  lemma ComponentsApart(slots: seq<Slot>, ps: seq<Parameter>, scope: string, s: Slot)
    requires DistinctKeys(Uses(Bindings(slots, ps, scope))) && s in slots && IsFound(s, ps)
    ensures DistinctComponents(Found(s, ps).components)
  {
    var bindings, b := Bindings(slots, ps, scope), BoundTo(s, Found(s, ps), scope);
    BoundIsThere(slots, ps, scope, s);
    var n :| 0 <= n < |bindings| && bindings[n] == b;
    var before, after := FlatMapPart(UsesOf, bindings, n);
    DistinctPart(before + UsesOf(b), after);
    DistinctPart(before, UsesOf(b));
    var cs := Found(s, ps).components;
    forall i, j | 0 <= i < j < |cs| ensures cs[i].name != cs[j].name {
      assert UsesOf(b)[i].component.externalKey != UsesOf(b)[j].component.externalKey;
    }
  }

  // ---- what the provider accepts ----

  predicate FilesAreU64(files: seq<SourceFile>) { forall f :: f in files ==> f.size <= U64_MAX }

  /** One non-empty range inside its file. */
  predicate InFile(c: Component, files: seq<SourceFile>) {
    |c.ranges| == 1 && c.file < |files| && 0 < c.ranges[0].length
    && c.ranges[0].offset + c.ranges[0].length <= files[c.file].size
  }

  function DescriptorFor(s: Slot, ps: seq<Parameter>, scope: string, k: nat): Descriptor
    requires IsFound(s, ps) && k < |Found(s, ps).components| && Found(s, ps).components[k].ranges != []
  {
    var p := Found(s, ps);
    var c := p.components[k];
    Descriptor(ExternalKey(scope, p.canonicalName, c.name), c.key, c.file, c.ranges[0].offset, c.ranges[0].length)
  }

  /** A use can be resolved exactly if the slot was matched by canonical name and the component lies in its file. */
  lemma ResolvesIff(catalog: Catalog, scope: string, s: Slot, k: nat)
    requires DistinctNames(catalog.parameters) && FilesAreU64(catalog.files) && IsFound(s, catalog.parameters)
    requires var cs := Found(s, catalog.parameters).components; k < |cs| && DistinctComponents(cs)
    ensures var u, c := UseFor(s, catalog.parameters, scope, k), Found(s, catalog.parameters).components[k];
      && (Resolve(catalog, u).Ok? <==> IsNamed(catalog.parameters, s.canonicalName) && InFile(c, catalog.files))
      && (Resolve(catalog, u).Ok? ==> Resolve(catalog, u).value == DescriptorFor(s, catalog.parameters, scope, k))
  {
    var u := UseFor(s, catalog.parameters, scope, k);
    var cs := Found(s, catalog.parameters).components;
    SameParameter(catalog.parameters, s.canonicalName);
    SameComponent(cs, k, u.component);
    assert |cs[k].ranges| == 1 ==> LengthsOf(cs[k].ranges) == [cs[k].ranges[0].length];
    assert cs[k].file < |catalog.files| ==> catalog.files[cs[k].file] in catalog.files;
  }

  /** The slot is not found, or was matched by canonical name and lies in its files. */
  predicate IsLoadable(s: Slot, catalog: Catalog) {
    IsFound(s, catalog.parameters) ==>
      && IsNamed(catalog.parameters, s.canonicalName)
      && forall c :: c in Found(s, catalog.parameters).components ==> InFile(c, catalog.files)
  }

  ghost predicate AllLoadable(slots: seq<Slot>, catalog: Catalog) { forall s :: s in slots ==> IsLoadable(s, catalog) }

  /** Everything bound names a parameter exactly when every slot that is found was matched by canonical name. */
  lemma NamedIff(slots: seq<Slot>, catalog: Catalog, scope: string)
    ensures AllNamed(catalog, Bindings(slots, catalog.parameters, scope)) <==>
      forall s :: s in slots && IsFound(s, catalog.parameters) ==> IsNamed(catalog.parameters, s.canonicalName)
  {
    var ps := catalog.parameters;
    forall s | s in slots && IsFound(s, ps) ensures BoundTo(s, Found(s, ps), scope) in Bindings(slots, ps, scope) {
      BoundIsThere(slots, ps, scope, s);
    }
    forall b | b in Bindings(slots, ps, scope)
      ensures exists s :: s in slots && IsFound(s, ps) && b.canonicalName == s.canonicalName
    {
      FlatMapMember(x => BoundSlot(x, ps, scope), slots, b);
      var s :| s in slots && b in BoundSlot(s, ps, scope);
      assert IsFound(s, ps) && b.canonicalName == s.canonicalName;
    }
    forall s | s in slots && IsFound(s, ps)
      ensures BoundTo(s, Found(s, ps), scope).canonicalName == s.canonicalName
    {
    }
  }

  lemma LoadableResolves(slots: seq<Slot>, catalog: Catalog, scope: string)
    requires DistinctNames(catalog.parameters) && FilesAreU64(catalog.files) && AllLoadable(slots, catalog)
    requires DistinctKeys(Uses(Bindings(slots, catalog.parameters, scope)))
    ensures AllResolve(catalog, Uses(Bindings(slots, catalog.parameters, scope)))
  {
    var uses := Uses(Bindings(slots, catalog.parameters, scope));
    forall u | u in uses ensures Resolve(catalog, u).Ok? {
      var s, k := SlotOfUse(slots, catalog.parameters, scope, u);
      ComponentsApart(slots, catalog.parameters, scope, s);
      assert IsLoadable(s, catalog);
      var cs := Found(s, catalog.parameters).components;
      assert cs[k] in cs && InFile(cs[k], catalog.files) && IsNamed(catalog.parameters, s.canonicalName);
      ResolvesIff(catalog, scope, s, k);
    }
  }

  lemma ResolvingIsLoadable(slots: seq<Slot>, catalog: Catalog, scope: string)
    requires DistinctNames(catalog.parameters) && FilesAreU64(catalog.files)
    requires DistinctKeys(Uses(Bindings(slots, catalog.parameters, scope)))
    requires AllNamed(catalog, Bindings(slots, catalog.parameters, scope))
    requires AllResolve(catalog, Uses(Bindings(slots, catalog.parameters, scope)))
    ensures AllLoadable(slots, catalog)
  {
    NamedIff(slots, catalog, scope);
    forall s | s in slots && IsFound(s, catalog.parameters) ensures IsLoadable(s, catalog) {
      ComponentsApart(slots, catalog.parameters, scope, s);
      var cs := Found(s, catalog.parameters).components;
      forall k | 0 <= k < |cs| ensures InFile(cs[k], catalog.files) {
        UseIsThere(slots, catalog.parameters, scope, s, k);
        ResolvesIff(catalog, scope, s, k);
      }
    }
  }

  /** Exactly when the provider accepts what was bound. */
  lemma PlanAcceptsIff(slots: seq<Slot>, catalog: Catalog, scope: string)
    requires DistinctNames(catalog.parameters) && FilesAreU64(catalog.files)
    ensures var bindings := Bindings(slots, catalog.parameters, scope);
      Accepted(catalog, bindings) <==>
        catalog.files != [] && AllLoadable(slots, catalog) && DistinctKeys(Uses(bindings))
  {
    NamedIff(slots, catalog, scope);
    if DistinctKeys(Uses(Bindings(slots, catalog.parameters, scope))) {
      if AllLoadable(slots, catalog) {
        assert forall s :: s in slots ==> IsLoadable(s, catalog);
        LoadableResolves(slots, catalog, scope);
      }
      if AllNamed(catalog, Bindings(slots, catalog.parameters, scope))
        && AllResolve(catalog, Uses(Bindings(slots, catalog.parameters, scope))) {
        ResolvingIsLoadable(slots, catalog, scope);
      }
    }
  }

  /** What was bound to a slot by an alias only is refused by the provider, even if nothing is stored for it. */
  lemma AliasMatchIsRefused(slots: seq<Slot>, catalog: Catalog, scope: string, s: Slot)
    requires s in slots && IsFound(s, catalog.parameters) && !IsNamed(catalog.parameters, s.canonicalName)
    ensures !Accepted(catalog, Bindings(slots, catalog.parameters, scope))
  {
    NamedIff(slots, catalog, scope);
  }

  // ---- what the plan holds ----

  lemma SortKeeps<E>(le: (E, E) -> bool, s: seq<E>)
    ensures forall x :: x in Sort(le, s) <==> x in s
  {
    forall x ensures x in Sort(le, s) <==> x in s {
      assert x in multiset(Sort(le, s)) <==> x in multiset(s);
    }
  }

  /** Every descriptor is the range of a component in the catalog, in bounds. */
  lemma PlanIsExact(slots: seq<Slot>, catalog: Catalog, scope: string, d: Descriptor) returns (s: Slot, k: nat)
    requires DistinctNames(catalog.parameters) && FilesAreU64(catalog.files)
    requires Accepted(catalog, Bindings(slots, catalog.parameters, scope))
    requires d in Sort(ByKey, DescriptorsOf(catalog, Uses(Bindings(slots, catalog.parameters, scope))))
    ensures s in slots && IsFound(s, catalog.parameters) && k < |Found(s, catalog.parameters).components|
    ensures InFile(Found(s, catalog.parameters).components[k], catalog.files)
    ensures d == DescriptorFor(s, catalog.parameters, scope, k)
  {
    var uses := Uses(Bindings(slots, catalog.parameters, scope));
    SortKeeps(ByKey, DescriptorsOf(catalog, uses));
    var i :| 0 <= i < |uses| && DescriptorsOf(catalog, uses)[i] == d;
    assert uses[i] in uses;
    s, k := SlotOfUse(slots, catalog.parameters, scope, uses[i]);
    ComponentsApart(slots, catalog.parameters, scope, s);
    ResolvesIff(catalog, scope, s, k);
  }

  lemma ByKeyIsOrder()
    ensures TotalPreorder(ByKey)
  {
    LexLeIsOrder();
    forall x, y ensures ByKey(x, y) || ByKey(y, x) {
    }
    forall x, y, z | ByKey(x, y) && ByKey(y, z) ensures ByKey(x, z) {
    }
  }

  lemma ResolvedKey(catalog: Catalog, u: Use)
    requires Resolve(catalog, u).Ok?
    ensures Resolve(catalog, u).value.externalKey == u.component.externalKey
    ensures u.component.byteLengths == [Resolve(catalog, u).value.length]
  {
  }

  lemma CountsOnce<E>(s: seq<E>, k: nat)
    requires Distinct(s) && k < |s|
    ensures multiset(s)[s[k]] == 1
  {
    assert s == s[..k] + [s[k]] + s[k + 1..];
    assert s[k] !in s[..k] && s[k] !in s[k + 1..];
  }

  lemma CountsTwice<E>(s: seq<E>, i: nat, j: nat)
    requires i < j < |s| && s[i] == s[j]
    ensures multiset(s)[s[i]] >= 2
  {
    assert s == s[..j] + [s[j]] + s[j + 1..];
    assert s[..j][i] in multiset(s[..j]);
  }

  lemma PermutedDistinct<E>(a: seq<E>, b: seq<E>)
    requires Distinct(a) && multiset(a) == multiset(b)
    ensures Distinct(b)
  {
    forall i, j | 0 <= i < j < |b| ensures b[i] != b[j] {
      assert b[i] in multiset(a);
      var k :| 0 <= k < |a| && a[k] == b[i];
      CountsOnce(a, k);
      if b[i] == b[j] {
        CountsTwice(b, i, j);
      }
    }
  }

  lemma ResolvedKeysApart(catalog: Catalog, uses: seq<Use>)
    requires AllResolve(catalog, uses) && DistinctKeys(uses)
    ensures Distinct(DescriptorsOf(catalog, uses))
    ensures var ds := DescriptorsOf(catalog, uses);
            forall a, b :: a in ds && b in ds && a.externalKey == b.externalKey ==> a == b
  {
    var ds := DescriptorsOf(catalog, uses);
    forall i | 0 <= i < |ds| ensures ds[i].externalKey == uses[i].component.externalKey {
      assert uses[i] in uses;
      ResolvedKey(catalog, uses[i]);
    }
  }

  /** The plan lists each key once, in strictly increasing order. */
  lemma PlanIsStrictlySorted(catalog: Catalog, uses: seq<Use>, i: nat, j: nat)
    requires AllResolve(catalog, uses) && DistinctKeys(uses) && i < j < |uses|
    ensures var plan := Sort(ByKey, DescriptorsOf(catalog, uses));
            LexLe(plan[i].externalKey, plan[j].externalKey) && plan[i].externalKey != plan[j].externalKey
  {
    var ds := DescriptorsOf(catalog, uses);
    var plan := Sort(ByKey, ds);
    ByKeyIsOrder();
    SortSorted(ByKey, ds);
    assert ByKey(plan[i], plan[j]);
    ResolvedKeysApart(catalog, uses);
    PermutedDistinct(ds, plan);
    SortKeeps(ByKey, ds);
    assert plan[i] in plan && plan[j] in plan;
  }

  // ---- when keys are distinct ----

  lemma LastColon(y: string, d: string, k: nat)
    requires ':' !in d && k < |y + "::" + d| && (y + "::" + d)[k] == ':'
    ensures k <= |y| + 1
  {
    var s := y + "::" + d;
    assert forall m :: |y| + 2 <= m < |s| ==> s[m] == d[m - |y| - 2];
  }

  lemma SplitAtColon(x: string, c: string, y: string, d: string)
    requires ':' !in c && ':' !in d && x + "::" + c == y + "::" + d
    ensures x == y && c == d
  {
    var s, t := x + "::" + c, y + "::" + d;
    LastColon(y, d, |x| + 1);
    LastColon(x, c, |y| + 1);
    assert |x| == |y| ==> s[..|x|] == x && t[..|x|] == y && s[|x| + 2..] == c && t[|x| + 2..] == d;
  }

  /** Without colons in component names, external keys are distinct exactly when parameter and component are. */
  lemma KeysAreInjective(scope: string, p: string, c: string, q: string, d: string)
    requires ':' !in c && ':' !in d
    ensures ExternalKey(scope, p, c) == ExternalKey(scope, q, d) <==> p == q && c == d
  {
    if ExternalKey(scope, p, c) == ExternalKey(scope, q, d) {
      SplitAtColon(scope + "::" + p, c, scope + "::" + q, d);
      assert (scope + "::" + p)[|scope| + 2..] == p && (scope + "::" + q)[|scope| + 2..] == q;
    }
  }

  ghost predicate NoPairTwice(uses: seq<Use>) {
    forall i, j :: 0 <= i < j < |uses| ==>
      || uses[i].bound.canonicalName != uses[j].bound.canonicalName
      || uses[i].component.componentName != uses[j].component.componentName
  }

  lemma KeyOfUse(slots: seq<Slot>, ps: seq<Parameter>, scope: string, u: Use)
    requires u in Uses(Bindings(slots, ps, scope))
    requires forall s :: s in slots && IsFound(s, ps) ==> Found(s, ps).canonicalName == s.canonicalName
    ensures u.component.externalKey == ExternalKey(scope, u.bound.canonicalName, u.component.componentName)
    ensures u.bound.scope == scope
  {
    var s, k := SlotOfUse(slots, ps, scope, u);
  }

  /** Keys are distinct exactly when no component of a parameter is bound twice. */
  lemma KeysDistinctIff(slots: seq<Slot>, ps: seq<Parameter>, scope: string)
    requires forall s :: s in slots && IsFound(s, ps) ==> Found(s, ps).canonicalName == s.canonicalName
    requires forall u :: u in Uses(Bindings(slots, ps, scope)) ==> ':' !in u.component.componentName
    ensures DistinctKeys(Uses(Bindings(slots, ps, scope))) <==> NoPairTwice(Uses(Bindings(slots, ps, scope)))
  {
    var uses := Uses(Bindings(slots, ps, scope));
    forall i, j | 0 <= i < j < |uses|
      ensures uses[i].component.externalKey == uses[j].component.externalKey
         <==> uses[i].bound.canonicalName == uses[j].bound.canonicalName
              && uses[i].component.componentName == uses[j].component.componentName
    {
      assert uses[i] in uses && uses[j] in uses;
      KeyOfUse(slots, ps, scope, uses[i]);
      KeyOfUse(slots, ps, scope, uses[j]);
      KeysAreInjective(scope, uses[i].bound.canonicalName, uses[i].component.componentName,
                       uses[j].bound.canonicalName, uses[j].component.componentName);
    }
  }
}
