/** Equal entries mean equal schemas and the same sharing of storage. */
module FingerprintSharing {
  import opened Wrappers
  import opened Sequences
  import opened Ordering
  import opened Fingerprint

  ghost predicate DistinctLabels(sites: seq<Site>) {
    forall i, j :: 0 <= i < j < |sites| ==> sites[i].name != sites[j].name
  }

  lemma {:induction false} SiteIsMember(sites: seq<Site>, i: nat)
    requires i < |sites|
    ensures sites[i].name in Members(sites, sites[i].identity)
  {
    var n := |sites| - 1;
    if i < n {
      SiteIsMember(sites[..n], i);
    }
  }

  lemma {:induction false} MemberHasSite(sites: seq<Site>, id: Identity, l: string) returns (i: nat)
    requires l in Members(sites, id)
    ensures i < |sites| && sites[i] == Site(l, id)
  {
    var n := |sites| - 1;
    if l in Members(sites[..n], id) {
      i := MemberHasSite(sites[..n], id, l);
    } else {
      i := n;
    }
  }

  lemma {:induction false} TwoMembers(sites: seq<Site>, i: nat, j: nat)
    requires i < j < |sites| && sites[i].identity == sites[j].identity
    ensures |Members(sites, sites[i].identity)| >= 2
  {
    var n := |sites| - 1;
    if j < n {
      TwoMembers(sites[..n], i, j);
    } else {
      SiteIsMember(sites[..n], i);
    }
  }

  lemma FirstIsMember(labels: seq<string>)
    requires labels != []
    ensures First(labels) in labels
  {
    assert First(labels) in multiset(Sort(LexLe, labels));
  }

  lemma FirstIsLeast(labels: seq<string>, x: string)
    requires x in labels
    ensures LexLe(First(labels), x)
  {
    var sorted := Sort(LexLe, labels);
    LexLeIsOrder();
    SortSorted(LexLe, labels);
    assert x in multiset(sorted);
    var k :| 0 <= k < |sorted| && sorted[k] == x;
  }

  lemma {:induction false} NoMember(sites: seq<Site>, id: Identity)
    requires forall k :: 0 <= k < |sites| ==> sites[k].identity != id
    ensures Members(sites, id) == []
  {
    if sites != [] {
      NoMember(sites[..|sites| - 1], id);
    }
  }

  lemma {:induction false} OneMember(sites: seq<Site>, id: Identity, p: nat)
    requires forall k :: 0 <= k < |sites| && sites[k].identity == id ==> k == p
    ensures |Members(sites, id)| <= 1
  {
    if sites != [] {
      var n := |sites| - 1;
      if n == p {
        NoMember(sites[..n], id);
      } else {
        OneMember(sites[..n], id, p);
      }
    }
  }

  /** A label stands for a group of at least two sites: it is the label of one of them, and not above that of another. */
  lemma GroupOf(sites: seq<Site>, id: Identity) returns (p: nat, r: nat)
    requires Alias(sites, id).Some?
    ensures p < |sites| && r < |sites| && p != r && sites[p].identity == id == sites[r].identity
    ensures sites[p].name == Alias(sites, id).value && LexLe(sites[p].name, sites[r].name)
  {
    FirstIsMember(Members(sites, id));
    p := MemberHasSite(sites, id, Alias(sites, id).value);
    if forall k :: 0 <= k < |sites| && sites[k].identity == id ==> k == p {
      OneMember(sites, id, p);
    }
    r :| 0 <= r < |sites| && sites[r].identity == id && r != p;
    SiteIsMember(sites, r);
    FirstIsLeast(Members(sites, id), sites[r].name);
  }

  /** An identity has a label exactly if two sites are stored there: the least of the labels stored there. */
  lemma AliasIsLeast(sites: seq<Site>, id: Identity)
    ensures Alias(sites, id).Some? <==> exists i, j :: 0 <= i < j < |sites| && sites[i].identity == id == sites[j].identity
    ensures forall l :: Alias(sites, id) == Some(l) ==>
      && (exists i :: 0 <= i < |sites| && sites[i] == Site(l, id))
      && forall i :: 0 <= i < |sites| && sites[i].identity == id ==> LexLe(l, sites[i].name)
  {
    if Alias(sites, id).Some? {
      var p, r := GroupOf(sites, id);
      assert sites[p] == Site(Alias(sites, id).value, id);
      forall i | 0 <= i < |sites| && sites[i].identity == id ensures LexLe(Alias(sites, id).value, sites[i].name) {
        SiteIsMember(sites, i);
        FirstIsLeast(Members(sites, id), sites[i].name);
      }
      assert if p < r then sites[p].identity == id == sites[r].identity else r < p;
    }
    if i, j :| 0 <= i < j < |sites| && sites[i].identity == id == sites[j].identity {
      TwoMembers(sites, i, j);
    }
  }

  lemma SameLabelSameSite(sites: seq<Site>, k: nat, m: nat)
    requires DistinctLabels(sites) && k < |sites| && m < |sites| && sites[k].name == sites[m].name
    ensures k == m
  {
  }

  /** Two different sites share storage exactly when both have the same alias label. */
  lemma SharesIff(sites: seq<Site>, i: nat, j: nat)
    requires DistinctLabels(sites) && i < j < |sites|
    ensures sites[i].identity == sites[j].identity
        <==> Alias(sites, sites[i].identity).Some? && Alias(sites, sites[i].identity) == Alias(sites, sites[j].identity)
  {
    var a, b := Alias(sites, sites[i].identity), Alias(sites, sites[j].identity);
    if sites[i].identity == sites[j].identity {
      TwoMembers(sites, i, j);
    } else if a.Some? && a == b {
      FirstIsMember(Members(sites, sites[i].identity));
      FirstIsMember(Members(sites, sites[j].identity));
      var k := MemberHasSite(sites, sites[i].identity, a.value);
      var m := MemberHasSite(sites, sites[j].identity, a.value);
      SameLabelSameSite(sites, k, m);
    }
  }

  function SiteIndex<P, C>(ps: seq<Parameter<P, C>>, a: nat, i: nat): nat
    requires a < |ps|
  {
    |Sites(ps[..a])| + i
  }

  lemma SiteAt<P, C>(ps: seq<Parameter<P, C>>, a: nat, i: nat)
    requires a < |ps| && i < |ps[a].components|
    ensures SiteIndex(ps, a, i) < |Sites(ps)|
    ensures Sites(ps)[SiteIndex(ps, a, i)].identity == ps[a].components[i].identity
  {
    var f := (p: Parameter<P, C>) => SitesOf(p);
    FlatMapStep(f, ps, a);
    FlatMapAppend(f, ps[..a + 1], ps[a + 1..]);
    assert ps == ps[..a + 1] + ps[a + 1..];
  }

  lemma SiteOrder<P, C>(ps: seq<Parameter<P, C>>, a: nat, i: nat, b: nat, j: nat)
    requires a < b < |ps| && i < |ps[a].components|
    ensures SiteIndex(ps, a, i) < SiteIndex(ps, b, j)
  {
    var f := (p: Parameter<P, C>) => SitesOf(p);
    FlatMapStep(f, ps, a);
    FlatMapAppend(f, ps[..a + 1], ps[a + 1..b]);
    assert ps[..b] == ps[..a + 1] + ps[a + 1..b];
  }

  function AliasAt<P, C>(ps: seq<Parameter<P, C>>, a: nat, i: nat): Option<string>
    requires a < |ps| && i < |ps[a].components|
  {
    Alias(Sites(ps), ps[a].components[i].identity)
  }

  /** Components i of parameter a and j of parameter b are stored at the same place. */
  predicate Shares<P, C>(ps: seq<Parameter<P, C>>, a: nat, i: nat, b: nat, j: nat)
    requires a < |ps| && i < |ps[a].components| && b < |ps| && j < |ps[b].components|
  {
    ps[a].components[i].identity == ps[b].components[j].identity
  }

  /** Sharing between different components can be read off the alias labels. */
  lemma SharesByAlias<P, C>(ps: seq<Parameter<P, C>>, a: nat, i: nat, b: nat, j: nat)
    requires DistinctLabels(Sites(ps))
    requires a < |ps| && i < |ps[a].components| && b < |ps| && j < |ps[b].components| && (a, i) != (b, j)
    ensures Shares(ps, a, i, b, j) <==> AliasAt(ps, a, i).Some? && AliasAt(ps, a, i) == AliasAt(ps, b, j)
  {
    SiteAt(ps, a, i);
    SiteAt(ps, b, j);
    var k, m := SiteIndex(ps, a, i), SiteIndex(ps, b, j);
    if a < b {
      SiteOrder(ps, a, i, b, j);
    } else if b < a {
      SiteOrder(ps, b, j, a, i);
    }
    if k < m {
      SharesIff(Sites(ps), k, m);
    } else {
      SharesIff(Sites(ps), m, k);
    }
  }

  /** With equal entries every parameter has a counterpart with the same entry. */
  lemma Counterpart<P, C>(ps: seq<Parameter<P, C>>, qs: seq<Parameter<P, C>>, a: nat) returns (a': nat)
    requires Entries(ps) == Entries(qs) && a < |ps|
    ensures a' < |qs| && EntryOf(Sites(qs), qs[a']) == EntryOf(Sites(ps), ps[a]) && qs[a'].name == ps[a].name
  {
    var xs, ys := EntryList(Sites(ps), ps), EntryList(Sites(qs), qs);
    assert multiset(xs) == multiset(Entries(ps)) && multiset(ys) == multiset(Entries(qs));
    assert xs[a] in multiset(xs);
    a' :| 0 <= a' < |ys| && ys[a'] == xs[a];
  }

  lemma CounterpartByName<P, C>(ps: seq<Parameter<P, C>>, qs: seq<Parameter<P, C>>, a: nat, a': nat)
    requires Entries(ps) == Entries(qs) && DistinctNames(qs) && a < |ps| && a' < |qs| && ps[a].name == qs[a'].name
    ensures EntryOf(Sites(qs), qs[a']) == EntryOf(Sites(ps), ps[a])
  {
    var b := Counterpart(ps, qs, a);
    SameNameSameIndex(qs, b, a');
  }

  lemma SameNameSameIndex<P, C>(ps: seq<Parameter<P, C>>, a: nat, b: nat)
    requires DistinctNames(ps) && a < |ps| && b < |ps| && ps[a].name == ps[b].name
    ensures a == b
  {
  }

  /** Everything but the identity of a component, and of all components of a parameter. */
  ghost predicate SameFields<P, C>(p: Parameter<P, C>, q: Parameter<P, C>) {
    && p.name == q.name && p.fields == q.fields && |p.components| == |q.components|
    && forall i :: 0 <= i < |p.components| ==>
      && p.components[i].name == q.components[i].name && p.components[i].fields == q.components[i].fields
      && Lengths(p.components[i].identity) == Lengths(q.components[i].identity)
  }

  lemma SameEntry<P, C>(s: seq<Site>, p: Parameter<P, C>, t: seq<Site>, q: Parameter<P, C>)
    requires EntryOf(s, p) == EntryOf(t, q)
    ensures SameFields(p, q)
    ensures forall i :: 0 <= i < |p.components| ==>
      Alias(s, p.components[i].identity) == Alias(t, q.components[i].identity)
  {
    var e, f := EntryOf(s, p), EntryOf(t, q);
    assert |e.components| == |f.components|;
    forall i | 0 <= i < |p.components|
      ensures ComponentEntryOf(s, p.components[i]) == ComponentEntryOf(t, q.components[i])
    {
      assert e.components[i] == f.components[i];
    }
  }

  /** Equal entries: the parameters agree name by name, and components share storage on one side exactly when they do
      on the other. */
  lemma EntriesDetermineSchema<P, C>(ps: seq<Parameter<P, C>>, qs: seq<Parameter<P, C>>, a: nat, a': nat, b: nat, b': nat)
    requires Entries(ps) == Entries(qs) && DistinctNames(ps) && DistinctNames(qs)
    requires DistinctLabels(Sites(ps)) && DistinctLabels(Sites(qs))
    requires a < |ps| && a' < |qs| && ps[a].name == qs[a'].name
    requires b < |ps| && b' < |qs| && ps[b].name == qs[b'].name
    ensures SameFields(ps[a], qs[a']) && SameFields(ps[b], qs[b'])
    ensures forall i, j :: 0 <= i < |ps[a].components| && 0 <= j < |ps[b].components| ==>
      (Shares(ps, a, i, b, j) <==> Shares(qs, a', i, b', j))
  {
    CounterpartByName(ps, qs, a, a');
    CounterpartByName(ps, qs, b, b');
    SameEntry(Sites(ps), ps[a], Sites(qs), qs[a']);
    SameEntry(Sites(ps), ps[b], Sites(qs), qs[b']);
    forall i, j | 0 <= i < |ps[a].components| && 0 <= j < |ps[b].components|
      ensures Shares(ps, a, i, b, j) <==> Shares(qs, a', i, b', j)
    {
      assert (a, i) == (b, j) <==> (a', i) == (b', j);
      if (a, i) != (b, j) {
        SharesByAlias(ps, a, i, b, j);
        SharesByAlias(qs, a', i, b', j);
      }
    }
  }
}
