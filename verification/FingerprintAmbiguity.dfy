/** Which names let the fingerprint keep the sharing of storage: the exact condition on the labels. */
module FingerprintAmbiguity {
  import opened Wrappers
  import opened Sequences
  import opened Ordering
  import opened Fingerprint
  import opened FingerprintSharing

  // ---- labels, and places for them ----

  function Labels(sites: seq<Site>): seq<string> {
    seq(|sites|, i requires 0 <= i < |sites| => sites[i].name)
  }

  function At(labels: seq<string>, places: seq<Identity>): (s: seq<Site>)
    requires |labels| == |places|
    ensures |s| == |labels|
  {
    seq(|labels|, i requires 0 <= i < |labels| => Site(labels[i], places[i]))
  }

  /** Four different sites: two with the same label, and two whose labels are not below it. */
  predicate Clash(labels: seq<string>, p: nat, q: nat, r: nat, s: nat) {
    && p < |labels| && q < |labels| && r < |labels| && s < |labels|
    && p != q && p != r && p != s && q != r && q != s && r != s
    && labels[p] == labels[q] && LexLe(labels[p], labels[r]) && LexLe(labels[p], labels[s])
  }

  ghost predicate Ambiguous(labels: seq<string>) { exists p, q, r, s :: Clash(labels, p, q, r, s) }

  // ---- equal labels but different sharing need a clash ----

  /** Sites shared at first and apart afterwards, under the same aliases, belong to two groups with the same least label. */
  lemma MixedUpMeansClash(labels: seq<string>, f: seq<Identity>, g: seq<Identity>, i: nat, j: nat)
    requires |f| == |g| == |labels| && i < j < |labels| && f[i] == f[j] && g[i] != g[j]
    requires Alias(At(labels, f), f[i]) == Alias(At(labels, g), g[i])
    requires Alias(At(labels, f), f[j]) == Alias(At(labels, g), g[j])
    ensures Ambiguous(labels)
  {
    TwoMembers(At(labels, f), i, j);
    var p, m := GroupOf(At(labels, g), g[i]);
    var q, n := GroupOf(At(labels, g), g[j]);
    assert Clash(labels, p, q, m, n);
  }

  // ---- a clash hides a change of sharing ----

  lemma AliasOfPair(sites: seq<Site>, p: nat, r: nat)
    requires p < |sites| && r < |sites| && p != r && sites[p].identity == sites[r].identity
    requires forall k :: 0 <= k < |sites| && sites[k].identity == sites[p].identity ==> k == p || k == r
    requires LexLe(sites[p].name, sites[r].name)
    ensures Alias(sites, sites[p].identity) == Some(sites[p].name)
  {
    var id := sites[p].identity;
    TwoMembers(sites, if p < r then p else r, if p < r then r else p);
    FirstIsMember(Members(sites, id));
    var k := MemberHasSite(sites, id, First(Members(sites, id)));
    SiteIsMember(sites, p);
    FirstIsLeast(Members(sites, id), sites[p].name);
    LexLeTotal(First(Members(sites, id)), sites[p].name);
  }

  function Own(k: nat): Identity { Identity(k, "", []) }

  /** Every site has a place of its own, except that r stands with p and s with q. */
  function Paired(n: nat, p: nat, q: nat, r: nat, s: nat): seq<Identity> {
    seq(n, k requires 0 <= k < n => if k == r then Own(p) else if k == s then Own(q) else Own(k))
  }

  lemma AliasOfPaired(labels: seq<string>, p: nat, q: nat, r: nat, s: nat, k: nat)
    requires Clash(labels, p, q, r, s) && k < |labels|
    ensures var places := Paired(|labels|, p, q, r, s);
            Alias(At(labels, places), places[k]) == if k in {p, q, r, s} then Some(labels[p]) else None
  {
    var places := Paired(|labels|, p, q, r, s);
    var sites := At(labels, places);
    if k == p || k == r {
      AliasOfPair(sites, p, r);
    } else if k == q || k == s {
      AliasOfPair(sites, q, s);
    } else {
      OneMember(sites, places[k], k);
    }
  }

  /** The two ways of pairing have the same aliases everywhere. */
  lemma PairingsAgree(labels: seq<string>, p: nat, q: nat, r: nat, s: nat, k: nat)
    requires Clash(labels, p, q, r, s) && k < |labels|
    ensures var f, g := Paired(|labels|, p, q, r, s), Paired(|labels|, p, q, s, r);
            Lengths(f[k]) == Lengths(g[k]) && Alias(At(labels, f), f[k]) == Alias(At(labels, g), g[k])
  {
    AliasOfPaired(labels, p, q, r, s, k);
    AliasOfPaired(labels, p, q, s, r, k);
  }

  // ---- catalogs with given names ----

  function Count<P, C>(ps: seq<Parameter<P, C>>): nat {
    if ps == [] then 0 else |ps[0].components| + Count(ps[1..])
  }

  lemma {:induction false} CountIsSites<P, C>(ps: seq<Parameter<P, C>>)
    ensures Count(ps) == |Sites(ps)|
  {
    if ps != [] {
      CountIsSites(ps[1..]);
    }
  }

  function PlaceParameter<P, C>(p: Parameter<P, C>, places: seq<Identity>): Parameter<P, C>
    requires |places| == |p.components|
  {
    p.(components := seq(|places|, i requires 0 <= i < |places| => p.components[i].(identity := places[i])))
  }

  /** The same catalog stored at other places. */
  function Placed<P, C>(ps: seq<Parameter<P, C>>, places: seq<Identity>): (qs: seq<Parameter<P, C>>)
    requires |places| == Count(ps)
    ensures |qs| == |ps| && forall a :: 0 <= a < |ps| ==> qs[a].name == ps[a].name
  {
    if ps == [] then []
    else
      var n := |ps[0].components|;
      [PlaceParameter(ps[0], places[..n])] + Placed(ps[1..], places[n..])
  }

  lemma {:induction false} SitesOfPlaced<P, C>(ps: seq<Parameter<P, C>>, places: seq<Identity>)
    requires |places| == Count(ps) == |Sites(ps)|
    ensures Sites(Placed(ps, places)) == At(Labels(Sites(ps)), places)
  {
    if ps != [] {
      var n, qs := |ps[0].components|, Placed(ps, places);
      CountIsSites(ps[1..]);
      SitesOfPlaced(ps[1..], places[n..]);
      assert qs[1..] == Placed(ps[1..], places[n..]);
      assert SitesOf(qs[0]) == At(Labels(SitesOf(ps[0])), places[..n]);
      var f := (p: Parameter<P, C>) => SitesOf(p);
      assert Sites(ps) == f(ps[0]) + FlatMap(f, ps[1..]) == SitesOf(ps[0]) + Sites(ps[1..]);
      assert Sites(qs) == SitesOf(qs[0]) + Sites(qs[1..]);
      assert At(Labels(Sites(ps)), places)
          == At(Labels(SitesOf(ps[0])), places[..n]) + At(Labels(Sites(ps[1..])), places[n..]);
    }
  }

  /** What an entry says of a place. */
  predicate SameAt(s: seq<Site>, x: Identity, t: seq<Site>, y: Identity) {
    Lengths(x) == Lengths(y) && Alias(s, x) == Alias(t, y)
  }

  ghost predicate SameEverywhere(s: seq<Site>, f: seq<Identity>, t: seq<Site>, g: seq<Identity>)
    requires |f| == |g|
  {
    forall k :: 0 <= k < |f| ==> SameAt(s, f[k], t, g[k])
  }

  lemma EntryAgreesIff<P, C>(p: Parameter<P, C>, s: seq<Site>, f: seq<Identity>, t: seq<Site>, g: seq<Identity>)
    requires |f| == |g| == |p.components|
    ensures EntryOf(s, PlaceParameter(p, f)) == EntryOf(t, PlaceParameter(p, g)) <==> SameEverywhere(s, f, t, g)
  {
    var d, e := EntryOf(s, PlaceParameter(p, f)), EntryOf(t, PlaceParameter(p, g));
    forall k | 0 <= k < |f| ensures d.components[k] == e.components[k] <==> SameAt(s, f[k], t, g[k]) {
    }
    assert d == e <==> d.components == e.components;
  }

  lemma {:induction false} EntriesAgreeIff<P, C>(ps: seq<Parameter<P, C>>, s: seq<Site>, f: seq<Identity>, t: seq<Site>,
                                                 g: seq<Identity>)
    requires |f| == |g| == Count(ps)
    ensures EntryList(s, Placed(ps, f)) == EntryList(t, Placed(ps, g)) <==> SameEverywhere(s, f, t, g)
  {
    if ps != [] {
      var n := |ps[0].components|;
      EntryAgreesIff(ps[0], s, f[..n], t, g[..n]);
      EntriesAgreeIff(ps[1..], s, f[n..], t, g[n..]);
      EntryListCons(s, PlaceParameter(ps[0], f[..n]), Placed(ps[1..], f[n..]));
      EntryListCons(t, PlaceParameter(ps[0], g[..n]), Placed(ps[1..], g[n..]));
      SameInParts(s, f, t, g, n);
      ConsAgree(EntryOf(s, PlaceParameter(ps[0], f[..n])), EntryList(s, Placed(ps[1..], f[n..])),
                EntryOf(t, PlaceParameter(ps[0], g[..n])), EntryList(t, Placed(ps[1..], g[n..])));
    }
  }

  lemma ConsAgree<T>(x: T, xs: seq<T>, y: T, ys: seq<T>)
    ensures [x] + xs == [y] + ys <==> x == y && xs == ys
  {
    if [x] + xs == [y] + ys {
      assert ([x] + xs)[0] == ([y] + ys)[0];
      assert ([x] + xs)[1..] == xs && ([y] + ys)[1..] == ys;
    }
  }

  lemma EntryListCons<P, C>(s: seq<Site>, p: Parameter<P, C>, ps: seq<Parameter<P, C>>)
    ensures EntryList(s, [p] + ps) == [EntryOf(s, p)] + EntryList(s, ps)
  {
  }

  lemma SameInParts(s: seq<Site>, f: seq<Identity>, t: seq<Site>, g: seq<Identity>, n: nat)
    requires |f| == |g| && n <= |f|
    ensures SameEverywhere(s, f, t, g)
        <==> SameEverywhere(s, f[..n], t, g[..n]) && SameEverywhere(s, f[n..], t, g[n..])
  {
    forall k | 0 <= k < |f|
      ensures SameAt(s, f[k], t, g[k])
         <==> if k < n then SameAt(s, f[..n][k], t, g[..n][k]) else SameAt(s, f[n..][k - n], t, g[n..][k - n])
    {
    }
    if SameEverywhere(s, f, t, g) {
      forall k | 0 <= k < |f| - n ensures SameAt(s, f[n..][k], t, g[n..][k]) {
        assert SameAt(s, f[n + k], t, g[n + k]);
      }
    }
  }

  /** Lists of entries with the same distinct names are equal once they are sorted only if they were before. */
  lemma SortedListsAgree<P, C>(xs: seq<Entry<P, C>>, ys: seq<Entry<P, C>>)
    requires |xs| == |ys| && forall a :: 0 <= a < |xs| ==> xs[a].name == ys[a].name
    requires forall a, b :: 0 <= a < b < |xs| ==> xs[a].name != xs[b].name
    ensures Sort(ByName, xs) == Sort(ByName, ys) <==> xs == ys
  {
    if Sort(ByName, xs) == Sort(ByName, ys) {
      forall a | 0 <= a < |xs| ensures xs[a] == ys[a] {
        assert xs[a] in multiset(ys);
        var b :| 0 <= b < |ys| && ys[b] == xs[a];
        assert ys[b].name == xs[b].name;
      }
    }
  }

  lemma PlacedEntriesAgreeIff<P, C>(ps: seq<Parameter<P, C>>, f: seq<Identity>, g: seq<Identity>)
    requires DistinctNames(ps) && |f| == |g| == Count(ps) == |Sites(ps)|
    ensures var labels := Labels(Sites(ps));
            Entries(Placed(ps, f)) == Entries(Placed(ps, g)) <==> SameEverywhere(At(labels, f), f, At(labels, g), g)
  {
    var s, t := At(Labels(Sites(ps)), f), At(Labels(Sites(ps)), g);
    SitesOfPlaced(ps, f);
    SitesOfPlaced(ps, g);
    EntriesAgreeIff(ps, s, f, t, g);
    SortedListsAgree(EntryList(s, Placed(ps, f)), EntryList(t, Placed(ps, g)));
  }

  // ---- the exact condition ----

  /** The same sites share storage. */
  ghost predicate SameSharing(f: seq<Identity>, g: seq<Identity>)
    requires |f| == |g|
  {
    forall i, j :: 0 <= i < j < |f| ==> (f[i] == f[j] <==> g[i] == g[j])
  }

  /** Wherever a catalog with these names is stored, its entries determine who shares storage. */
  ghost predicate SharingDetermined<P, C>(ps: seq<Parameter<P, C>>) {
    forall f, g :: |f| == Count(ps) && |g| == Count(ps) && Entries(Placed(ps, f)) == Entries(Placed(ps, g)) ==>
      SameSharing(f, g)
  }

  lemma UnambiguousLabelsKeepSharing<P, C>(ps: seq<Parameter<P, C>>, f: seq<Identity>, g: seq<Identity>)
    requires DistinctNames(ps) && !Ambiguous(Labels(Sites(ps))) && |f| == |g| == Count(ps) == |Sites(ps)|
    requires Entries(Placed(ps, f)) == Entries(Placed(ps, g))
    ensures SameSharing(f, g)
  {
    var labels := Labels(Sites(ps));
    PlacedEntriesAgreeIff(ps, f, g);
    forall i, j | 0 <= i < j < |f| ensures f[i] == f[j] <==> g[i] == g[j] {
      assert SameAt(At(labels, f), f[i], At(labels, g), g[i]) && SameAt(At(labels, f), f[j], At(labels, g), g[j]);
      if f[i] == f[j] && g[i] != g[j] {
        MixedUpMeansClash(labels, f, g, i, j);
      }
      if g[i] == g[j] && f[i] != f[j] {
        MixedUpMeansClash(labels, g, f, i, j);
      }
    }
  }

  lemma PairingsSame(labels: seq<string>, p: nat, q: nat, r: nat, s: nat)
    requires Clash(labels, p, q, r, s)
    ensures var f, g := Paired(|labels|, p, q, r, s), Paired(|labels|, p, q, s, r);
            SameEverywhere(At(labels, f), f, At(labels, g), g)
  {
    var f, g := Paired(|labels|, p, q, r, s), Paired(|labels|, p, q, s, r);
    forall k | 0 <= k < |f| ensures SameAt(At(labels, f), f[k], At(labels, g), g[k]) {
      PairingsAgree(labels, p, q, r, s, k);
    }
  }

  lemma PairingsDiffer(labels: seq<string>, p: nat, q: nat, r: nat, s: nat)
    requires Clash(labels, p, q, r, s)
    ensures !SameSharing(Paired(|labels|, p, q, r, s), Paired(|labels|, p, q, s, r))
  {
    var f, g := Paired(|labels|, p, q, r, s), Paired(|labels|, p, q, s, r);
    assert f[p] == f[r] && g[p] != g[r];
    assert f[r] == f[p] && g[r] != g[p];
  }

  /** With a clash of labels two placements have the same entries and share storage differently. */
  lemma AmbiguousLabelsLoseSharing<P, C>(ps: seq<Parameter<P, C>>, p: nat, q: nat, r: nat, s: nat)
    requires DistinctNames(ps) && Count(ps) == |Sites(ps)| && Clash(Labels(Sites(ps)), p, q, r, s)
    ensures var f, g := Paired(Count(ps), p, q, r, s), Paired(Count(ps), p, q, s, r);
            Entries(Placed(ps, f)) == Entries(Placed(ps, g)) && !SameSharing(f, g)
  {
    PairingsSame(Labels(Sites(ps)), p, q, r, s);
    PairingsDiffer(Labels(Sites(ps)), p, q, r, s);
    PlacedEntriesAgreeIff(ps, Paired(Count(ps), p, q, r, s), Paired(Count(ps), p, q, s, r));
  }

  /** For given names, the entries determine the sharing of storage exactly when no labels clash. */
  lemma SharingDeterminedIff<P, C>(ps: seq<Parameter<P, C>>)
    requires DistinctNames(ps)
    ensures SharingDetermined(ps) <==> !Ambiguous(Labels(Sites(ps)))
  {
    CountIsSites(ps);
    if Ambiguous(Labels(Sites(ps))) {
      var p, q, r, s :| Clash(Labels(Sites(ps)), p, q, r, s);
      AmbiguousLabelsLoseSharing(ps, p, q, r, s);
      assert !SharingDetermined(ps);
    } else {
      forall f, g | |f| == Count(ps) && |g| == Count(ps) && Entries(Placed(ps, f)) == Entries(Placed(ps, g))
        ensures SameSharing(f, g)
      {
        UnambiguousLabelsKeepSharing(ps, f, g);
      }
    }
  }

  // ---- distinct names can clash: the separator may be part of a name ----

  function Single(name: string, component: string): Parameter<int, int> {
    Parameter(name, 0, [Component(component, 0, Own(0))])
  }

  function Clashing(): seq<Parameter<int, int>> {
    [Single("a::b", "c"), Single("a", "b::c"), Single("m", "n"), Single("o", "p")]
  }

  lemma ClashExists()
    ensures DistinctNames(Clashing()) && !SharingDetermined(Clashing())
  {
    var ps := Clashing();
    var f := (p: Parameter<int, int>) => SitesOf(p);
    assert Label("a::b", "c") == "a::b::c" == Label("a", "b::c");
    assert FlatMap(f, ps[4..]) == [];
    assert FlatMap(f, ps[3..]) == SitesOf(ps[3]) && FlatMap(f, ps[2..]) == SitesOf(ps[2]) + FlatMap(f, ps[3..]);
    assert FlatMap(f, ps[1..]) == SitesOf(ps[1]) + FlatMap(f, ps[2..]);
    assert Sites(ps) == SitesOf(ps[0]) + FlatMap(f, ps[1..]);
    var labels := Labels(Sites(ps));
    assert labels[0] == labels[1] == "a::b::c" && labels[2][0] == 'm' && labels[3][0] == 'o';
    assert Clash(labels, 0, 1, 2, 3);
    assert ps[0].name != ps[1].name && ps[0].name[0] == ps[1].name[0] == 'a';
    SharingDeterminedIff(ps);
  }
}
