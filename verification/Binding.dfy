/** The binder: parameters of a checkpoint for the slots of an architecture. */
module Binding {
  import opened Bytes
  import opened Wrappers
  import opened Sequences
  import K = KernelRegistry
  import F = Fingerprint
  import T = GgufTypes

  type Scalar = K.Scalar

  datatype Role = Known(name: string) | Other(name: string)

  datatype ByteRange = ByteRange(offset: nat, length: nat)
  datatype Component = Component(name: string, key: string, file: nat, ranges: seq<ByteRange>, alignment: nat)
  datatype Encoding = Plain(storageType: Scalar) | Packed

  datatype Parameter = Parameter(canonicalName: string, role: Role, shape: seq<nat>, elementType: Scalar,
                                 encoding: Encoding, components: seq<Component>, aliases: seq<string>)

  datatype Slot = Slot(id: string, canonicalName: string, role: Role, rank: Option<nat>, shape: Option<seq<nat>>,
                       elementTypes: seq<Scalar>, optional: bool, tiedGroup: Option<string>)

  datatype ComponentBinding = ComponentBinding(componentName: string, externalKey: string, checkpointKey: string,
                                               file: nat, byteLengths: seq<nat>, alignment: nat)

  datatype Bound = Bound(slotId: string, canonicalName: string, checkpointKeys: seq<string>, shape: seq<nat>,
                         elementType: Scalar, components: seq<ComponentBinding>, scope: string, parameterKey: string,
                         storageBytes: nat, alignment: nat)

  datatype Plan = Plan(bindings: seq<Bound>, unresolvedOptional: seq<string>)

  datatype Error = RankMismatch | ShapeMismatch | RoleMismatch | ElementTypeMismatch | TooManyElements | LengthMismatch
                 | ZeroAlignment | Misaligned | TiedShapeMismatch | MissingSlot

  // ---- names ----

  /** The last parameter of a canonical name. */
  function LastNamed(ps: seq<Parameter>, name: string): Option<Parameter> {
    if ps == [] then None
    else if ps[|ps| - 1].canonicalName == name then Some(ps[|ps| - 1])
    else LastNamed(ps[..|ps| - 1], name)
  }

  /** The first parameter with an alias. */
  function FirstAliased(ps: seq<Parameter>, name: string): Option<Parameter> {
    if ps == [] then None
    else
      var first := FirstAliased(ps[..|ps| - 1], name);
      if first.Some? then first else if name in ps[|ps| - 1].aliases then Some(ps[|ps| - 1]) else None
  }

  function OrElse<T>(a: Option<T>, b: Option<T>): Option<T> { if a.Some? then a else b }

  /** Canonical names win over aliases. */
  function Lookup(ps: seq<Parameter>, name: string): Option<Parameter> {
    OrElse(LastNamed(ps, name), FirstAliased(ps, name))
  }

  predicate Holds(m: map<string, Parameter>, name: string, p: Option<Parameter>) {
    if name in m then p == Some(m[name]) else p.None?
  }

  method NamesOf(ps: seq<Parameter>) returns (byName: map<string, Parameter>)
    ensures forall name :: Holds(byName, name, Lookup(ps, name))
  {
    byName := map[];
    for i := 0 to |ps|
      invariant forall name :: Holds(byName, name, LastNamed(ps[..i], name))
    {
      assert ps[..i + 1][..i] == ps[..i];
      byName := byName[ps[i].canonicalName := ps[i]];
    }
    assert ps[..|ps|] == ps;
    for i := 0 to |ps|
      invariant forall name :: Holds(byName, name, OrElse(LastNamed(ps, name), FirstAliased(ps[..i], name)))
    {
      var aliases := ps[i].aliases;
      assert ps[..i + 1][..i] == ps[..i];
      for j := 0 to |aliases|
        invariant forall name :: Holds(byName, name,
          OrElse(LastNamed(ps, name),
                 OrElse(FirstAliased(ps[..i], name), if name in aliases[..j] then Some(ps[i]) else None)))
      {
        assert aliases[..j + 1] == aliases[..j] + [aliases[j]];
        if aliases[j] !in byName {
          byName := byName[aliases[j] := ps[i]];
        }
      }
      assert aliases[..|aliases|] == aliases;
    }
  }

  // ---- one slot ----

  predicate RolesCompatible(slot: Role, parameter: Role) { parameter.Other? || slot.Other? || slot == parameter }

  function SizeOf(s: Scalar): nat {
    match s
    case F32 => 4
    case I32 => 4
    case U32 => 4
    case F16 => 2
    case Bf16 => 2
    case I16 => 2
    case U16 => 2
    case F64 => 8
    case I64 => 8
    case U64 => 8
    case I8 => 1
    case U8 => 1
    case Bool => 1
  }

  function RangesOf(c: Component): seq<ByteRange> { c.ranges }

  function TotalBytes(ranges: seq<ByteRange>): nat {
    if ranges == [] then 0 else F.SaturatingAdd(TotalBytes(ranges[..|ranges| - 1]), ranges[|ranges| - 1].length)
  }

  function StorageBytes(p: Parameter): nat { TotalBytes(FlatMap(RangesOf, p.components)) }

  function SaturatingMul(a: nat, b: nat): nat { if a * b > U64_MAX then U64_MAX else a * b }

  function CheckStorage(p: Parameter): Result<(), Error> {
    if p.components == [] || !p.encoding.Plain? then Ok(())
    else
      var numel := T.CheckedNumel(p.shape, 1);
      if numel.None? then Err(TooManyElements)
      else if StorageBytes(p) != SaturatingMul(numel.value, SizeOf(p.encoding.storageType)) then Err(LengthMismatch)
      else Ok(())
  }

  function AlignmentOf(p: Parameter): nat { if p.components == [] then 1 else p.components[0].alignment }

  predicate Aligned(p: Parameter)
    requires AlignmentOf(p) > 0
  {
    forall c, r :: c in p.components && r in c.ranges ==> r.offset % AlignmentOf(p) == 0
  }

  function Check(slot: Slot, p: Parameter): Result<(), Error> {
    if slot.rank.Some? && |p.shape| != slot.rank.value then Err(RankMismatch)
    else if slot.shape.Some? && p.shape != slot.shape.value then Err(ShapeMismatch)
    else if !RolesCompatible(slot.role, p.role) then Err(RoleMismatch)
    else if slot.elementTypes != [] && p.elementType !in slot.elementTypes then Err(ElementTypeMismatch)
    else
      var _ :- CheckStorage(p);
      if AlignmentOf(p) == 0 then Err(ZeroAlignment) else if !Aligned(p) then Err(Misaligned) else Ok(())
  }

  function ExternalKey(scope: string, parameter: string, component: string): string {
    scope + "::" + parameter + "::" + component
  }

  function LengthsOf(ranges: seq<ByteRange>): seq<nat> {
    seq(|ranges|, i requires 0 <= i < |ranges| => ranges[i].length)
  }

  function BindComponent(scope: string, p: Parameter, c: Component): ComponentBinding {
    ComponentBinding(c.name, ExternalKey(scope, p.canonicalName, c.name), c.key, c.file, LengthsOf(c.ranges), c.alignment)
  }

  function BoundTo(slot: Slot, p: Parameter, scope: string): Bound {
    Bound(slot.id, slot.canonicalName, p.aliases, p.shape, p.elementType,
          seq(|p.components|, i requires 0 <= i < |p.components| => BindComponent(scope, p, p.components[i])), scope,
          if p.components == [] then p.canonicalName else p.components[0].key, StorageBytes(p), AlignmentOf(p))
  }

  function BindSlot(slot: Slot, found: Option<Parameter>, scope: string): Result<Option<Bound>, Error> {
    if found.None? then Ok(None)
    else
      var _ :- Check(slot, found.value);
      Ok(Some(BoundTo(slot, found.value, scope)))
  }

  // ---- all slots ----

  predicate SlotOk(slot: Slot, ps: seq<Parameter>) {
    var found := Lookup(ps, slot.canonicalName);
    if found.None? then slot.optional else Check(slot, found.value).Ok?
  }

  /** Slots of a tied group that are found have the same shape. */
  ghost predicate TiesAgree(slots: seq<Slot>, ps: seq<Parameter>) {
    forall s, t :: s in slots && t in slots && s.tiedGroup.Some? && s.tiedGroup == t.tiedGroup ==>
      var p, q := Lookup(ps, s.canonicalName), Lookup(ps, t.canonicalName);
      p.Some? && q.Some? ==> p.value.shape == q.value.shape
  }

  ghost predicate Binds(slots: seq<Slot>, ps: seq<Parameter>) {
    (forall s :: s in slots ==> SlotOk(s, ps)) && TiesAgree(slots, ps)
  }

  function BoundSlot(slot: Slot, ps: seq<Parameter>, scope: string): seq<Bound> {
    var found := Lookup(ps, slot.canonicalName);
    if found.None? then [] else [BoundTo(slot, found.value, scope)]
  }

  /** What is bound to the slots that are found, in their order. */
  function Bindings(slots: seq<Slot>, ps: seq<Parameter>, scope: string): seq<Bound> {
    FlatMap(s => BoundSlot(s, ps, scope), slots)
  }

  function Unresolved(slots: seq<Slot>, ps: seq<Parameter>): seq<string> {
    FlatMap((s: Slot) => if Lookup(ps, s.canonicalName).None? then [s.id] else [], slots)
  }

  /** For each tied group the shape seen first, which is the shape of all seen. */
  ghost predicate AreShapes(tied: map<string, seq<nat>>, slots: seq<Slot>, ps: seq<Parameter>) {
    && (forall s :: s in slots && s.tiedGroup.Some? && Lookup(ps, s.canonicalName).Some? ==>
          s.tiedGroup.value in tied && tied[s.tiedGroup.value] == Lookup(ps, s.canonicalName).value.shape)
    && forall g :: g in tied ==>
         exists s :: s in slots && s.tiedGroup == Some(g) && Lookup(ps, s.canonicalName).Some?
  }

  /** Enters the shape of a slot, or finds that it disagrees with another of the group. */
  method Tie(tied: map<string, seq<nat>>, slot: Slot, ghost slots: seq<Slot>, ghost ps: seq<Parameter>, shape: seq<nat>)
    returns (ok: bool, tied': map<string, seq<nat>>)
    requires AreShapes(tied, slots, ps) && Lookup(ps, slot.canonicalName).Some?
    requires shape == Lookup(ps, slot.canonicalName).value.shape
    ensures ok ==> AreShapes(tied', slots + [slot], ps)
    ensures !ok ==> !TiesAgree(slots + [slot], ps)
  {
    tied' := tied;
    if slot.tiedGroup.Some? {
      var group := slot.tiedGroup.value;
      if group in tied {
        ok := tied[group] == shape;
        ghost var s :| s in slots && s.tiedGroup == Some(group) && Lookup(ps, s.canonicalName).Some?;
        assert s in slots + [slot] && slot in slots + [slot];
        return;
      }
      tied' := tied[group := shape];
    }
    ok := true;
    assert slot in slots + [slot];
    assert forall s :: s in slots ==> s in slots + [slot];
  }

  lemma TiesOfPrefix(slots: seq<Slot>, more: seq<Slot>, ps: seq<Parameter>)
    requires TiesAgree(slots + more, ps)
    ensures TiesAgree(slots, ps)
  {
  }

  lemma TiesFromShapes(tied: map<string, seq<nat>>, slots: seq<Slot>, ps: seq<Parameter>)
    requires AreShapes(tied, slots, ps)
    ensures TiesAgree(slots, ps)
  {
  }

  /** Fails at the first slot that does not fit, is missing, or disagrees with its group. */
  method Bind(slots: seq<Slot>, ps: seq<Parameter>, scope: string) returns (r: Result<Plan, Error>)
    ensures r.Ok? <==> Binds(slots, ps)
    ensures r.Ok? ==> r.value == Plan(Bindings(slots, ps, scope), Unresolved(slots, ps))
  {
    var byName := NamesOf(ps);
    var bindings: seq<Bound>, unresolved: seq<string> := [], [];
    var tied: map<string, seq<nat>> := map[];
    for i := 0 to |slots|
      invariant forall k :: 0 <= k < i ==> SlotOk(slots[k], ps)
      invariant AreShapes(tied, slots[..i], ps)
      invariant bindings == Bindings(slots[..i], ps, scope) && unresolved == Unresolved(slots[..i], ps)
    {
      var slot := slots[i];
      assert Holds(byName, slot.canonicalName, Lookup(ps, slot.canonicalName));
      assert slots[..i + 1] == slots[..i] + [slot] && slots == slots[..i + 1] + slots[i + 1..] && slot in slots;
      FlatMapStep(s => BoundSlot(s, ps, scope), slots, i);
      FlatMapStep((s: Slot) => if Lookup(ps, s.canonicalName).None? then [s.id] else [], slots, i);
      var found := if slot.canonicalName in byName then Some(byName[slot.canonicalName]) else None;
      var bound := BindSlot(slot, found, scope);
      if bound.Err? {
        return Err(bound.error);
      }
      if bound.value.Some? {
        var ok;
        ok, tied := Tie(tied, slot, slots[..i], ps, bound.value.value.shape);
        if !ok {
          if TiesAgree(slots, ps) {
            TiesOfPrefix(slots[..i + 1], slots[i + 1..], ps);
          }
          return Err(TiedShapeMismatch);
        }
        bindings := bindings + [bound.value.value];
      } else if slot.optional {
        unresolved := unresolved + [slot.id];
      } else {
        return Err(MissingSlot);
      }
    }
    assert slots[..|slots|] == slots;
    TiesFromShapes(tied, slots, ps);
    return Ok(Plan(bindings, unresolved));
  }
}
