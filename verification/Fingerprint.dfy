/** The canonical form of a checkpoint's schema: it forgets keys and offsets, and keeps which components share storage. */
module Fingerprint {
  import opened Bytes
  import opened Wrappers
  import opened Sequences
  import opened Ordering

  /** Where a component is stored: a file, a raw key, and ranges of offset and length. */
  datatype Identity = Identity(file: nat, key: string, ranges: seq<(nat, nat)>)

  /** The other fields of a component and of a parameter are carried along as they are. */
  datatype Component<C> = Component(name: string, fields: C, identity: Identity)
  datatype Parameter<P, C> = Parameter(name: string, fields: P, components: seq<Component<C>>)

  datatype ComponentEntry<C> = ComponentEntry(name: string, fields: C, byteLengths: seq<nat>, alias: Option<string>)
  datatype Entry<P, C> = Entry(name: string, fields: P, components: seq<ComponentEntry<C>>)

  // ---- sharing groups ----

  /** A component by its label, and where it is stored. */
  datatype Site = Site(name: string, identity: Identity)

  function Label(parameter: string, component: string): string { parameter + "::" + component }

  function SitesOf<P, C>(p: Parameter<P, C>): (s: seq<Site>)
    ensures |s| == |p.components|
  {
    seq(|p.components|, i requires 0 <= i < |p.components| =>
      Site(Label(p.name, p.components[i].name), p.components[i].identity))
  }

  function Sites<P, C>(ps: seq<Parameter<P, C>>): seq<Site> { FlatMap((p: Parameter<P, C>) => SitesOf(p), ps) }

  /** The labels stored at an identity, in order. */
  function Members(sites: seq<Site>, id: Identity): seq<string> {
    if sites == [] then []
    else
      var last := sites[|sites| - 1];
      Members(sites[..|sites| - 1], id) + if last.identity == id then [last.name] else []
  }

  function Grouped(groups: map<Identity, seq<string>>, site: Site): map<Identity, seq<string>> {
    groups[site.identity :=
      (if site.identity in groups then groups[site.identity] else []) + [site.name]]
  }

  ghost predicate AreGroups(groups: map<Identity, seq<string>>, sites: seq<Site>) {
    forall id :: (id in groups <==> Members(sites, id) != []) && (id in groups ==> groups[id] == Members(sites, id))
  }

  lemma GroupsGrow(groups: map<Identity, seq<string>>, sites: seq<Site>, site: Site)
    requires AreGroups(groups, sites)
    ensures AreGroups(Grouped(groups, site), sites + [site])
  {
    assert (sites + [site])[..|sites|] == sites;
  }

  function First(labels: seq<string>): string
    requires labels != []
  {
    Sort(LexLe, labels)[0]
  }

  /** The least label of a group with at least two members. */
  function AliasOf(members: seq<string>): Option<string> {
    if |members| < 2 then None else Some(First(members))
  }

  function Alias(sites: seq<Site>, id: Identity): Option<string> { AliasOf(Members(sites, id)) }

  // ---- the entries ----

  function Lengths(id: Identity): seq<nat> {
    seq(|id.ranges|, i requires 0 <= i < |id.ranges| => id.ranges[i].1)
  }

  function ComponentEntryOf<C>(sites: seq<Site>, c: Component<C>): ComponentEntry<C> {
    ComponentEntry(c.name, c.fields, Lengths(c.identity), Alias(sites, c.identity))
  }

  function EntryOf<P, C>(sites: seq<Site>, p: Parameter<P, C>): Entry<P, C> {
    Entry(p.name, p.fields,
          seq(|p.components|, i requires 0 <= i < |p.components| => ComponentEntryOf(sites, p.components[i])))
  }

  predicate ByName<P, C>(a: Entry<P, C>, b: Entry<P, C>) { LexLe(a.name, b.name) }

  function EntryList<P, C>(sites: seq<Site>, ps: seq<Parameter<P, C>>): seq<Entry<P, C>> {
    seq(|ps|, i requires 0 <= i < |ps| => EntryOf(sites, ps[i]))
  }

  /** What is hashed. */
  function Entries<P, C>(ps: seq<Parameter<P, C>>): seq<Entry<P, C>> {
    Sort(ByName, EntryList(Sites(ps), ps))
  }

  // ---- the total ----

  function SaturatingAdd(a: nat, b: nat): nat { if a + b > U64_MAX then U64_MAX else a + b }

  function LengthsOf<P, C>(p: Parameter<P, C>): seq<nat> {
    FlatMap((c: Component<C>) => Lengths(c.identity), p.components)
  }

  function Weight<P, C>(p: Parameter<P, C>): nat { Sum(LengthsOf(p)) }

  function TotalWeight<P, C>(ps: seq<Parameter<P, C>>): nat {
    if ps == [] then 0 else Weight(ps[0]) + TotalWeight(ps[1..])
  }

  function Capped(n: nat): nat { if n > U64_MAX then U64_MAX else n }

  // ---- the code ----

  method FindGroups<P, C>(ps: seq<Parameter<P, C>>) returns (groups: map<Identity, seq<string>>)
    ensures AreGroups(groups, Sites(ps))
  {
    groups := map[];
    ghost var sites := (p: Parameter<P, C>) => SitesOf(p);
    for i := 0 to |ps|
      invariant AreGroups(groups, FlatMap(sites, ps[..i]))
    {
      FlatMapStep(sites, ps, i);
      groups := AddParameter(groups, ps[i], FlatMap(sites, ps[..i]));
    }
    assert ps[..|ps|] == ps;
  }

  method AddParameter<P, C>(before: map<Identity, seq<string>>, p: Parameter<P, C>, ghost sites: seq<Site>)
    returns (groups: map<Identity, seq<string>>)
    requires AreGroups(before, sites)
    ensures AreGroups(groups, sites + SitesOf(p))
  {
    groups := before;
    ghost var own := SitesOf(p);
    assert sites + own[..0] == sites;
    for j := 0 to |p.components|
      invariant AreGroups(groups, sites + own[..j])
    {
      var c := p.components[j];
      var site := Site(Label(p.name, c.name), c.identity);
      GroupsGrow(groups, sites + own[..j], site);
      assert sites + own[..j] + [site] == sites + own[..j + 1];
      groups := Grouped(groups, site);
    }
    assert own[..|own|] == own;
  }

  /** The labels of the groups with at least two members. */
  function AliasLabels(groups: map<Identity, seq<string>>): map<Identity, string> {
    map id | id in groups && |groups[id]| >= 2 :: First(groups[id])
  }

  function Lookup(labels: map<Identity, string>, id: Identity): Option<string> {
    if id in labels then Some(labels[id]) else None
  }

  lemma LabelsAreAliases(groups: map<Identity, seq<string>>, sites: seq<Site>, id: Identity)
    requires AreGroups(groups, sites)
    ensures Lookup(AliasLabels(groups), id) == Alias(sites, id)
  {
    assert id in groups <==> Members(sites, id) != [];
  }

  method SchemaFingerprint<P, C>(ps: seq<Parameter<P, C>>)
    returns (entries: seq<Entry<P, C>>, entryCount: nat, totalBytes: nat)
    ensures entries == Entries(ps) && entryCount == |ps| && totalBytes == Capped(TotalWeight(ps))
  {
    var groups := FindGroups(ps);
    var labels := AliasLabels(groups);
    var unsorted := [];
    ghost var sites := Sites(ps);
    for i := 0 to |ps|
      invariant |unsorted| == i && forall k :: 0 <= k < i ==> unsorted[k] == EntryOf(sites, ps[k])
    {
      var e := MakeEntry(ps[i], labels, groups, sites);
      unsorted := unsorted + [e];
    }
    assert unsorted == EntryList(sites, ps);
    entries := Sort(ByName, unsorted);
    entryCount := |ps|;
    totalBytes := TotalBytes(ps);
  }

  method MakeEntry<P, C>(p: Parameter<P, C>, labels: map<Identity, string>, ghost groups: map<Identity, seq<string>>,
                         ghost sites: seq<Site>) returns (e: Entry<P, C>)
    requires AreGroups(groups, sites) && labels == AliasLabels(groups)
    ensures e == EntryOf(sites, p)
  {
    var components := [];
    for j := 0 to |p.components|
      invariant |components| == j
      invariant forall k :: 0 <= k < j ==> components[k] == ComponentEntryOf(sites, p.components[k])
    {
      var c := MakeComponent(p.components[j], labels, groups, sites);
      components := components + [c];
    }
    e := Entry(p.name, p.fields, components);
  }

  method MakeComponent<C>(c: Component<C>, labels: map<Identity, string>, ghost groups: map<Identity, seq<string>>,
                          ghost sites: seq<Site>) returns (e: ComponentEntry<C>)
    requires AreGroups(groups, sites) && labels == AliasLabels(groups)
    ensures e == ComponentEntryOf(sites, c)
  {
    LabelsAreAliases(groups, sites, c.identity);
    e := ComponentEntry(c.name, c.fields, Lengths(c.identity), Lookup(labels, c.identity));
  }

  method TotalBytes<P, C>(ps: seq<Parameter<P, C>>) returns (total: nat)
    ensures total == Capped(TotalWeight(ps))
  {
    total := 0;
    assert ps[0..] == ps;
    ghost var before: nat := 0;
    for i := 0 to |ps|
      invariant total == Capped(before) && before + TotalWeight(ps[i..]) == TotalWeight(ps)
    {
      assert ps[i..][1..] == ps[i + 1..];
      total := AddLengths(total, before, LengthsOf(ps[i]));
      before := before + Weight(ps[i]);
    }
  }

  method AddLengths(start: nat, ghost before: nat, lengths: seq<nat>) returns (total: nat)
    requires start == Capped(before)
    ensures total == Capped(before + Sum(lengths))
  {
    total := start;
    for j := 0 to |lengths|
      invariant total == Capped(before + Sum(lengths[..j]))
    {
      assert lengths[..j + 1][..j] == lengths[..j];
      total := SaturatingAdd(total, lengths[j]);
    }
    assert lengths[..|lengths|] == lengths;
  }

  // ---- the order does not matter ----

  ghost predicate DistinctNames<P, C>(ps: seq<Parameter<P, C>>) {
    forall i, j :: 0 <= i < j < |ps| ==> ps[i].name != ps[j].name
  }

  lemma TakeOut<T>(x: T, s: seq<T>) returns (i: nat)
    requires x in multiset(s)
    ensures i < |s| && s[i] == x && multiset(s[..i] + s[i + 1..]) == multiset(s) - multiset{x}
  {
    i :| 0 <= i < |s| && s[i] == x;
    assert s == s[..i] + [x] + s[i + 1..];
  }

  lemma {:induction false} MembersAppend(a: seq<Site>, b: seq<Site>, id: Identity)
    ensures Members(a + b, id) == Members(a, id) + Members(b, id)
  {
    if b == [] {
      assert a + b == a;
    } else {
      MembersAppend(a, b[..|b| - 1], id);
      assert (a + b)[..|a + b| - 1] == a + b[..|b| - 1];
    }
  }

  /** The members of an identity, parameter by parameter. */
  function MembersOf<P, C>(id: Identity): Parameter<P, C> -> seq<string> {
    (p: Parameter<P, C>) => Members(SitesOf(p), id)
  }

  lemma {:induction false} MembersAreFlat<P, C>(ps: seq<Parameter<P, C>>, id: Identity)
    ensures Members(Sites(ps), id) == FlatMap(MembersOf(id), ps)
  {
    if ps != [] {
      MembersAreFlat(ps[1..], id);
      MembersAppend(SitesOf(ps[0]), Sites(ps[1..]), id);
    }
  }

  lemma FlatMapWithout<A, B>(f: A -> seq<B>, ys: seq<A>, i: nat)
    requires i < |ys|
    ensures multiset(FlatMap(f, ys)) == multiset(f(ys[i])) + multiset(FlatMap(f, ys[..i] + ys[i + 1..]))
  {
    var before, after := FlatMapPart(f, ys, i);
    FlatMapAppend(f, ys[..i], ys[i + 1..]);
    MiddleOut(before, f(ys[i]), after);
  }

  lemma MiddleOut<T>(a: seq<T>, b: seq<T>, c: seq<T>)
    ensures multiset(a + b + c) == multiset(b) + multiset(a + c)
  {
  }

  lemma {:induction false} FlatMapPermutes<A, B>(f: A -> seq<B>, xs: seq<A>, ys: seq<A>)
    requires multiset(xs) == multiset(ys)
    ensures multiset(FlatMap(f, xs)) == multiset(FlatMap(f, ys))
    decreases |xs|
  {
    assert |multiset(xs)| == |xs| && |multiset(ys)| == |ys|;
    if xs != [] {
      TailElements(xs);
      assert xs[0] in multiset(xs);
      var i := TakeOut(xs[0], ys);
      FlatMapPermutes(f, xs[1..], ys[..i] + ys[i + 1..]);
      FlatMapWithout(f, ys, i);
    }
  }

  lemma FirstDependsOnElements(a: seq<string>, b: seq<string>)
    requires multiset(a) == multiset(b)
    ensures AliasOf(a) == AliasOf(b)
  {
    assert |multiset(a)| == |a| && |multiset(b)| == |b|;
    LexLeIsOrder();
    SortPermutation(LexLe, a, b);
  }

  lemma AliasPermutes<P, C>(ps: seq<Parameter<P, C>>, qs: seq<Parameter<P, C>>, id: Identity)
    requires multiset(ps) == multiset(qs)
    ensures Alias(Sites(ps), id) == Alias(Sites(qs), id)
  {
    MembersAreFlat(ps, id);
    MembersAreFlat(qs, id);
    FlatMapPermutes(MembersOf(id), ps, qs);
    FirstDependsOnElements(Members(Sites(ps), id), Members(Sites(qs), id));
  }

  lemma EntryPermutes<P, C>(ps: seq<Parameter<P, C>>, qs: seq<Parameter<P, C>>, p: Parameter<P, C>)
    requires multiset(ps) == multiset(qs)
    ensures EntryOf(Sites(ps), p) == EntryOf(Sites(qs), p)
  {
    forall i | 0 <= i < |p.components|
      ensures ComponentEntryOf(Sites(ps), p.components[i]) == ComponentEntryOf(Sites(qs), p.components[i])
    {
      AliasPermutes(ps, qs, p.components[i].identity);
    }
  }

  function OneEntry<P, C>(sites: seq<Site>): Parameter<P, C> -> seq<Entry<P, C>> {
    (p: Parameter<P, C>) => [EntryOf(sites, p)]
  }

  lemma {:induction false} EntryListIsFlat<P, C>(sites: seq<Site>, ps: seq<Parameter<P, C>>)
    ensures EntryList(sites, ps) == FlatMap(OneEntry(sites), ps)
  {
    if ps != [] {
      EntryListIsFlat(sites, ps[1..]);
      assert EntryList(sites, ps) == [EntryOf(sites, ps[0])] + EntryList(sites, ps[1..]);
    }
  }

  lemma NamesDoNotTie<P(!new), C(!new)>(sites: seq<Site>, ps: seq<Parameter<P, C>>)
    requires DistinctNames(ps)
    ensures NoTies(ByName, EntryList(sites, ps))
  {
    LexLeIsOrder();
  }

  /** The entries are the same for every order of the parameters. */
  lemma PermutationInvariant<P(!new), C(!new)>(ps: seq<Parameter<P, C>>, qs: seq<Parameter<P, C>>)
    requires multiset(ps) == multiset(qs) && DistinctNames(ps)
    ensures Entries(ps) == Entries(qs)
  {
    var sites := Sites(ps);
    forall i | 0 <= i < |qs| ensures EntryOf(Sites(qs), qs[i]) == EntryOf(sites, qs[i]) {
      EntryPermutes(ps, qs, qs[i]);
    }
    assert EntryList(Sites(qs), qs) == EntryList(sites, qs);
    EntryListIsFlat(sites, ps);
    EntryListIsFlat(sites, qs);
    FlatMapPermutes(OneEntry(sites), ps, qs);
    NamesDoNotTie(sites, ps);
    ByNameIsOrder<P, C>();
    SortPermutation(ByName, EntryList(sites, ps), EntryList(sites, qs));
  }

  lemma ByNameIsOrder<P(!new), C(!new)>()
    ensures TotalPreorder<Entry<P, C>>(ByName)
  {
    LexLeIsOrder();
  }

  lemma {:induction false} TotalAppend<P, C>(a: seq<Parameter<P, C>>, b: seq<Parameter<P, C>>)
    ensures TotalWeight(a + b) == TotalWeight(a) + TotalWeight(b)
  {
    if a == [] {
      assert a + b == b;
    } else {
      TotalAppend(a[1..], b);
      assert (a + b)[1..] == a[1..] + b;
    }
  }

  lemma TotalWithout<P, C>(qs: seq<Parameter<P, C>>, i: nat)
    requires i < |qs|
    ensures TotalWeight(qs) == Weight(qs[i]) + TotalWeight(qs[..i] + qs[i + 1..])
  {
    TotalAppend(qs[..i], qs[i + 1..]);
    TotalAppend(qs[..i], qs[i..]);
    assert qs == qs[..i] + qs[i..] && qs[i..][1..] == qs[i + 1..];
  }

  /** So is the saturating total. */
  lemma {:induction false} TotalPermutes<P, C>(ps: seq<Parameter<P, C>>, qs: seq<Parameter<P, C>>)
    requires multiset(ps) == multiset(qs)
    ensures TotalWeight(ps) == TotalWeight(qs)
    decreases |ps|
  {
    assert |multiset(ps)| == |ps| && |multiset(qs)| == |qs|;
    if ps != [] {
      TailElements(ps);
      assert ps[0] in multiset(ps);
      var i := TakeOut(ps[0], qs);
      TotalPermutes(ps[1..], qs[..i] + qs[i + 1..]);
      TotalWithout(qs, i);
    }
  }

  // ---- identities do not matter ----

  function Moved<C>(f: Identity -> Identity, c: Component<C>): Component<C> { c.(identity := f(c.identity)) }

  function MovedParameter<P, C>(f: Identity -> Identity, p: Parameter<P, C>): Parameter<P, C> {
    p.(components := seq(|p.components|, i requires 0 <= i < |p.components| => Moved(f, p.components[i])))
  }

  function Relabelled<P, C>(f: Identity -> Identity, ps: seq<Parameter<P, C>>): seq<Parameter<P, C>> {
    seq(|ps|, i requires 0 <= i < |ps| => MovedParameter(f, ps[i]))
  }

  ghost predicate Injective(f: Identity -> Identity) { forall a, b :: f(a) == f(b) ==> a == b }

  ghost predicate KeepsLengths(f: Identity -> Identity) { forall a :: Lengths(f(a)) == Lengths(a) }

  function MovedSites(f: Identity -> Identity, sites: seq<Site>): seq<Site> {
    seq(|sites|, i requires 0 <= i < |sites| => Site(sites[i].name, f(sites[i].identity)))
  }

  lemma {:induction false} SitesMove<P, C>(f: Identity -> Identity, ps: seq<Parameter<P, C>>)
    ensures Sites(Relabelled(f, ps)) == MovedSites(f, Sites(ps))
  {
    if ps != [] {
      SitesMove(f, ps[1..]);
      assert Relabelled(f, ps)[1..] == Relabelled(f, ps[1..]);
      assert SitesOf(MovedParameter(f, ps[0])) == MovedSites(f, SitesOf(ps[0]));
      assert MovedSites(f, SitesOf(ps[0]) + Sites(ps[1..]))
          == MovedSites(f, SitesOf(ps[0])) + MovedSites(f, Sites(ps[1..]));
    }
  }

  lemma {:induction false} MembersMove(f: Identity -> Identity, sites: seq<Site>, id: Identity)
    requires Injective(f)
    ensures Members(MovedSites(f, sites), f(id)) == Members(sites, id)
  {
    if sites != [] {
      var n := |sites| - 1;
      MembersMove(f, sites[..n], id);
      assert MovedSites(f, sites)[..n] == MovedSites(f, sites[..n]);
    }
  }

  /** The entries are the same under every injective renaming of storage that keeps lengths. */
  lemma RelabellingInvariant<P, C>(f: Identity -> Identity, ps: seq<Parameter<P, C>>)
    requires Injective(f) && KeepsLengths(f)
    ensures Entries(Relabelled(f, ps)) == Entries(ps)
  {
    var sites, moved := Sites(ps), Sites(Relabelled(f, ps));
    SitesMove(f, ps);
    forall k | 0 <= k < |ps| ensures EntryOf(moved, MovedParameter(f, ps[k])) == EntryOf(sites, ps[k]) {
      forall i | 0 <= i < |ps[k].components|
        ensures ComponentEntryOf(moved, Moved(f, ps[k].components[i])) == ComponentEntryOf(sites, ps[k].components[i])
      {
        MembersMove(f, sites, ps[k].components[i].identity);
      }
    }
    assert EntryList(moved, Relabelled(f, ps)) == EntryList(sites, ps);
  }
}
