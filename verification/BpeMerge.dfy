/** The greedy merge loop of the tokenizer, against rewriting by the lowest-ranked, then leftmost, pair. */
module BpeMerge {
  import opened Bytes
  import opened Sequences
  import opened Wrappers

  type Merges = map<(string, string), nat>

  /** A pair whose rank is the largest u32 is never merged: the search starts from that rank. */
  predicate Mergeable(m: Merges, ps: seq<string>, i: int) {
    0 <= i < |ps| - 1 && (ps[i], ps[i + 1]) in m && m[(ps[i], ps[i + 1])] < U32_MAX
  }

  function Rank(m: Merges, ps: seq<string>, i: int): nat
    requires Mergeable(m, ps, i)
  {
    m[(ps[i], ps[i + 1])]
  }

  /** Position i has the lowest rank, and no position left of it has that rank. */
  ghost predicate IsBest(m: Merges, ps: seq<string>, i: int) {
    && Mergeable(m, ps, i)
    && forall j :: Mergeable(m, ps, j) ==> Rank(m, ps, i) < Rank(m, ps, j) || (Rank(m, ps, i) == Rank(m, ps, j) && i <= j)
  }

  function MergeAt(ps: seq<string>, i: nat): seq<string>
    requires i < |ps| - 1
  {
    ps[..i] + [ps[i] + ps[i + 1]] + ps[i + 2..]
  }

  ghost predicate Settled(m: Merges, ps: seq<string>) {
    forall i :: !Mergeable(m, ps, i)
  }

  ghost function BestOf(m: Merges, ps: seq<string>): (i: int)
    requires exists i :: IsBest(m, ps, i)
    ensures IsBest(m, ps, i)
  {
    var i :| IsBest(m, ps, i); i
  }

  /** The specification: rewrite at the best position until there is none. */
  ghost function Rewrite(m: Merges, ps: seq<string>): seq<string>
    decreases |ps|
  {
    if exists i :: IsBest(m, ps, i) then Rewrite(m, MergeAt(ps, BestOf(m, ps))) else ps
  }

  function Itself(s: string): string { s }

  function Join(ps: seq<string>): string { FlatMap(Itself, ps) }

  lemma JoinMergeAt(ps: seq<string>, i: nat)
    requires i < |ps| - 1
    ensures Join(MergeAt(ps, i)) == Join(ps)
  {
    var a, x, y, z := ps[..i], ps[i], ps[i + 1], ps[i + 2..];
    assert ps == a + ([x] + ([y] + z)) && MergeAt(ps, i) == a + ([x + y] + z);
    FlatMapAppend(Itself, a, [x] + ([y] + z));
    FlatMapCons(Itself, x, [y] + z);
    FlatMapCons(Itself, y, z);
    FlatMapAppend(Itself, a, [x + y] + z);
    FlatMapCons(Itself, x + y, z);
    Associate(x, y, Join(z));
  }

  lemma {:induction false} RewriteKeepsText(m: Merges, ps: seq<string>)
    ensures Join(Rewrite(m, ps)) == Join(ps)
    decreases |ps|
  {
    if exists i :: IsBest(m, ps, i) {
      RewriteKeepsText(m, MergeAt(ps, BestOf(m, ps)));
      JoinMergeAt(ps, BestOf(m, ps));
    }
  }

  lemma RewriteStep(m: Merges, ps: seq<string>, i: nat)
    requires IsBest(m, ps, i)
    ensures Rewrite(m, ps) == Rewrite(m, MergeAt(ps, i))
  {
    assert IsBest(m, ps, BestOf(m, ps));
  }

  /** Every piece of the result is an initial piece or the concatenation of a merge pair. */
  lemma {:induction false} RewritePieces(m: Merges, ps: seq<string>, pieces: set<string>)
    requires forall p :: p in ps ==> p in pieces
    requires forall a, b :: (a, b) in m ==> a + b in pieces
    ensures forall p :: p in Rewrite(m, ps) ==> p in pieces
    decreases |ps|
  {
    if exists i :: IsBest(m, ps, i) {
      RewritePieces(m, MergeAt(ps, BestOf(m, ps)), pieces);
    }
  }

  /** The search of one pass: the best position, or none when no pair can be merged. */
  method FindBest(m: Merges, ps: seq<string>) returns (best: Option<int>)
    ensures best.Some? ==> IsBest(m, ps, best.value)
    ensures best.None? ==> Settled(m, ps)
  {
    var bestRank := U32_MAX;
    best := None;
    var i := 0;
    while i < |ps| - 1
      invariant 0 <= i
      invariant best.None? ==> bestRank == U32_MAX && forall j :: 0 <= j < i ==> !Mergeable(m, ps, j)
      invariant best.Some? ==> Mergeable(m, ps, best.value) && bestRank == Rank(m, ps, best.value) && best.value < i
      invariant best.Some? ==> forall j :: 0 <= j < i && Mergeable(m, ps, j) ==>
        bestRank < Rank(m, ps, j) || (bestRank == Rank(m, ps, j) && best.value <= j)
    {
      var pair := (ps[i], ps[i + 1]);
      if pair in m && m[pair] < bestRank {
        bestRank, best := m[pair], Some(i);
      }
      i := i + 1;
    }
  }

  method PutMerged(pieces: seq<string>, i: nat) returns (ps: seq<string>)
    requires i < |pieces| - 1
    ensures ps == MergeAt(pieces, i)
  {
    ps := pieces[i := pieces[i] + pieces[i + 1]];
    ps := ps[..i + 1] + ps[i + 2..];
  }

  /** At most one merge per piece but the first. */
  method Merge(m: Merges, start: seq<string>) returns (ps: seq<string>, ghost merges: nat)
    ensures ps == Rewrite(m, start)
    ensures Join(ps) == Join(start)
    ensures Settled(m, ps)
    ensures merges == |start| - |ps| && (start != [] ==> merges <= |start| - 1)
  {
    ps, merges := start, 0;
    RewriteKeepsText(m, start);
    if |ps| <= 1 {
      return;
    }
    while true
      invariant |ps| >= 1 && merges == |start| - |ps|
      invariant Rewrite(m, ps) == Rewrite(m, start)
      decreases |ps|
    {
      var best := FindBest(m, ps);
      if best.None? {
        break;
      }
      var i := best.value;
      RewriteStep(m, ps, i);
      ps := PutMerged(ps, i);
      merges := merges + 1;
    }
  }
}
