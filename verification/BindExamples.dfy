/** Small checkpoints that the binder accepts: whether the loader does depends on the name asked for and the scope. */
module BindExamples {
  import opened Bytes
  import opened Wrappers
  import opened Sequences
  import opened Binding
  import opened Provider
  import opened BindToLoad
  import opened Manifest
  import F = Fingerprint
  import K = KernelRegistry
  import T = GgufTypes

  predicate IsParameter(p: Parameter) {
    && p.canonicalName == "w" && p.aliases == ["alias"] && p.role == Other("weight") && p.shape == [1]
    && p.elementType == K.F32 && p.encoding == Plain(K.F32)
  }

  /** A parameter of one number, stored in one component. */
  predicate IsWeight(p: Parameter) {
    IsParameter(p) && p.components == [Component("data", "k", 0, [ByteRange(0, 4)], 1)]
  }

  /** A parameter with nothing stored for it. */
  predicate IsBare(p: Parameter) { IsParameter(p) && p.components == [] }

  /** A required slot that asks for nothing but a name. */
  function SlotNamed(name: string): Slot { Slot("slot", name, Other("weight"), None, None, [], false, None) }

  function CatalogOf(p: Parameter): Catalog { Catalog([SourceFile("file", 4)], [p]) }

  lemma WeightIsFound(p: Parameter)
    requires IsParameter(p)
    ensures Lookup([p], "alias") == Some(p) && Lookup([p], "w") == Some(p)
    ensures !IsNamed([p], "alias") && IsNamed([p], "w")
  {
    assert p in [p];
    assert LastNamed([p][..0], "alias").None? && FirstAliased([p][..0], "alias").None?;
    assert p.aliases[0] == "alias";
  }

  lemma WeightFits(p: Parameter, slot: Slot)
    requires (IsWeight(p) || IsBare(p)) && slot == SlotNamed(slot.canonicalName)
    ensures Check(slot, p).Ok?
  {
    if IsWeight(p) {
      assert T.CheckedNumel(p.shape, 1) == Some(1);
      StorageOfOne(p, p.components[0]);
      assert forall c, r :: c in p.components && r in c.ranges ==> r == ByteRange(0, 4);
    }
  }

  lemma StorageOfOne(p: Parameter, c: Component)
    requires p.components == [c] && c.ranges == [ByteRange(0, 4)]
    ensures StorageBytes(p) == 4
  {
    FlatMapOne(RangesOf, c);
    var ranges := FlatMap(RangesOf, p.components);
    assert ranges == c.ranges && ranges[..|ranges| - 1] == [];
    assert TotalBytes(ranges) == F.SaturatingAdd(TotalBytes([]), 4);
  }

  lemma WeightBinds(p: Parameter, name: string)
    requires (IsWeight(p) || IsBare(p)) && name in ["w", "alias"]
    ensures Binds([SlotNamed(name)], [p])
  {
    WeightIsFound(p);
    WeightFits(p, SlotNamed(name));
  }

  /** Asked for by its alias, either parameter is bound, and the provider refuses the binding whatever the scope is. */
  lemma AliasIsBoundThenRefused(p: Parameter, scope: string)
    requires IsWeight(p) || IsBare(p)
    ensures Binds([SlotNamed("alias")], [p])
    ensures !Accepted(CatalogOf(p), Bindings([SlotNamed("alias")], [p], scope))
  {
    var slot := SlotNamed("alias");
    WeightBinds(p, "alias");
    WeightIsFound(p);
    assert slot in [slot];
    AliasMatchIsRefused([slot], CatalogOf(p), scope, slot);
  }

  lemma FewUses(p: Parameter, scope: string)
    requires IsParameter(p)
    ensures |Uses(Bindings([SlotNamed("w")], [p], scope))| == |p.components|
  {
    var slot := SlotNamed("w");
    WeightIsFound(p);
    FlatMapOne(s => BoundSlot(s, [p], scope), slot);
    FlatMapOne(UsesOf, BoundTo(slot, p, scope));
  }

  /** Asked for by its canonical name, either parameter is bound and accepted whatever the scope is. */
  lemma NameIsAccepted(p: Parameter, scope: string)
    requires IsWeight(p) || IsBare(p)
    ensures Binds([SlotNamed("w")], [p])
    ensures Accepted(CatalogOf(p), Bindings([SlotNamed("w")], [p], scope))
  {
    var slot := SlotNamed("w");
    WeightBinds(p, "w");
    WeightIsFound(p);
    FewUses(p, scope);
    assert IsLoadable(slot, CatalogOf(p));
    PlanAcceptsIff([slot], CatalogOf(p), scope);
  }

  /** And its components are the manifest's exactly when the binder was given the scope of the plan. */
  lemma ScopeDecides(p: Parameter, scope: string)
    requires IsWeight(p)
    ensures var bindings := Bindings([SlotNamed("w")], [p], scope);
      Collect(ManifestPairs(ManifestComponents(bindings))) == Collect(PlanPairs(PlanOf(CatalogOf(p), bindings)))
      <==> scope == PLAN_SCOPE
  {
    var bindings := Bindings([SlotNamed("w")], [p], scope);
    NameIsAccepted(p, scope);
    FewUses(p, scope);
    ScopeOfBindings([SlotNamed("w")], [p], scope);
    MapsAgreeIff(CatalogOf(p), bindings, PlanOf(CatalogOf(p), bindings), scope);
  }

  lemma WeightExists() returns (p: Parameter, q: Parameter)
    ensures IsWeight(p) && IsBare(q)
  {
    p := Parameter("w", Other("weight"), [1], K.F32, Plain(K.F32), [Component("data", "k", 0, [ByteRange(0, 4)], 1)],
                   ["alias"]);
    q := p.(components := []);
  }
}
