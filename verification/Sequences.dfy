/** Sequences: images, concatenation and folds. */
module Sequences {

  lemma Associate<T>(a: seq<T>, b: seq<T>, c: seq<T>)
    ensures a + (b + c) == (a + b) + c
  {
  }

  function FlatMap<A, B>(f: A -> seq<B>, s: seq<A>): seq<B> {
    if s == [] then [] else f(s[0]) + FlatMap(f, s[1..])
  }

  lemma FlatMapCons<A, B>(f: A -> seq<B>, a: A, s: seq<A>)
    ensures FlatMap(f, [a] + s) == f(a) + FlatMap(f, s)
  {
    assert ([a] + s)[1..] == s;
  }

  lemma FlatMapOne<A, B>(f: A -> seq<B>, a: A)
    ensures FlatMap(f, [a]) == f(a)
  {
    assert f(a) + [] == f(a);
  }

  lemma {:induction false} FlatMapAppend<A, B>(f: A -> seq<B>, s: seq<A>, t: seq<A>)
    ensures FlatMap(f, s + t) == FlatMap(f, s) + FlatMap(f, t)
  {
    if s == [] {
      assert s + t == t;
    } else {
      FlatMapAppend(f, s[1..], t);
      assert (s + t)[1..] == s[1..] + t;
      Associate(f(s[0]), FlatMap(f, s[1..]), FlatMap(f, t));
    }
  }

  lemma FlatMapStep<A, B>(f: A -> seq<B>, s: seq<A>, i: nat)
    requires i < |s|
    ensures FlatMap(f, s[..i + 1]) == FlatMap(f, s[..i]) + f(s[i])
  {
    assert s[..i + 1] == s[..i] + [s[i]];
    FlatMapAppend(f, s[..i], [s[i]]);
    FlatMapOne(f, s[i]);
  }

  lemma FlatMapLast<A, B>(f: A -> seq<B>, s: seq<A>)
    requires s != []
    ensures FlatMap(f, s) == FlatMap(f, s[..|s| - 1]) + f(s[|s| - 1])
  {
    FlatMapStep(f, s, |s| - 1);
    assert s[..|s|] == s;
  }

  lemma {:induction false} FlatMapMember<A, B>(f: A -> seq<B>, s: seq<A>, x: B)
    ensures x in FlatMap(f, s) <==> exists a :: a in s && x in f(a)
  {
    if s != [] {
      FlatMapMember(f, s[1..], x);
      assert s == [s[0]] + s[1..];
    }
  }

  /** The image of an element is a part of the whole. */
  lemma FlatMapPart<A, B>(f: A -> seq<B>, s: seq<A>, i: nat) returns (before: seq<B>, after: seq<B>)
    requires i < |s|
    ensures before == FlatMap(f, s[..i]) && after == FlatMap(f, s[i + 1..])
    ensures FlatMap(f, s) == before + f(s[i]) + after
  {
    before, after := FlatMap(f, s[..i]), FlatMap(f, s[i + 1..]);
    FlatMapStep(f, s, i);
    FlatMapAppend(f, s[..i + 1], s[i + 1..]);
    assert s == s[..i + 1] + s[i + 1..];
  }

  // ---- numbers and elements ----

  function Min(a: nat, b: nat): nat { if a < b then a else b }

  function Sum(numbers: seq<nat>): nat {
    if numbers == [] then 0 else Sum(numbers[..|numbers| - 1]) + numbers[|numbers| - 1]
  }

  function SetOf<T(==)>(s: seq<T>): set<T> { set x | x in s }

  ghost predicate Distinct<T>(s: seq<T>) { forall i, j :: 0 <= i < j < |s| ==> s[i] != s[j] }
}
