/** The splitting of a text at its special pieces, on bytes as the tokenizer does it. */
module Splitter {
  import opened Bytes
  import opened Sequences
  import opened Wrappers

  type Pieces = seq<seq<byte>>

  predicate Occurs(piece: seq<byte>, rest: seq<byte>, q: int) {
    0 <= q <= |rest| && piece <= rest[q..]
  }

  /** Piece k at position p: the earliest occurrence of any piece, and there the first piece of the list. */
  ghost predicate IsNext(pieces: Pieces, rest: seq<byte>, p: int, k: int) {
    && 0 <= k < |pieces| && Occurs(pieces[k], rest, p)
    && forall j, q :: 0 <= j < |pieces| && Occurs(pieces[j], rest, q) ==> p < q || (p == q && k <= j)
  }

  ghost predicate HasNext(pieces: Pieces, rest: seq<byte>) {
    exists p, k :: IsNext(pieces, rest, p, k)
  }

  ghost function NextOf(pieces: Pieces, rest: seq<byte>): (r: (int, int))
    requires HasNext(pieces, rest)
    ensures IsNext(pieces, rest, r.0, r.1)
  {
    var p, k :| IsNext(pieces, rest, p, k); (p, k)
  }

  datatype Segment = Ordinary(bytes: seq<byte>) | Special(index: nat)

  ghost predicate NoEmptyPiece(pieces: Pieces) {
    forall k :: 0 <= k < |pieces| ==> pieces[k] != []
  }

  /** The loop over the text stops here: nothing is left, or no special piece. */
  ghost predicate Stops(pieces: Pieces, rest: seq<byte>) { rest == [] || !HasNext(pieces, rest) }

  /** What one turn of the loop leaves. */
  ghost function Tail(pieces: Pieces, rest: seq<byte>): (r: seq<byte>)
    requires !Stops(pieces, rest)
    ensures |r| <= |rest| && (|r| == |rest| ==> r == rest)
  {
    var (p, k) := NextOf(pieces, rest);
    rest[p + |pieces[k]|..]
  }

  /** The loop ends: every turn leaves less. */
  ghost predicate Ends(pieces: Pieces, rest: seq<byte>)
    decreases |rest|
  {
    Stops(pieces, rest) || (|Tail(pieces, rest)| < |rest| && Ends(pieces, Tail(pieces, rest)))
  }

  /** The text cut at its special pieces, if that comes to an end. */
  ghost function Split(pieces: Pieces, rest: seq<byte>): seq<Segment>
    requires Ends(pieces, rest)
    decreases |rest|
  {
    if rest == [] then []
    else if !HasNext(pieces, rest) then [Ordinary(rest)]
    else
      var (p, k) := NextOf(pieces, rest);
      Before(rest, p) + [Special(k)] + Split(pieces, rest[p + |pieces[k]|..])
  }

  function Before(rest: seq<byte>, p: nat): seq<Segment>
    requires p <= |rest|
  {
    if p > 0 then [Ordinary(rest[..p])] else []
  }

  lemma NextIsUnique(pieces: Pieces, rest: seq<byte>, p: int, k: int)
    requires IsNext(pieces, rest, p, k)
    ensures HasNext(pieces, rest) && NextOf(pieces, rest) == (p, k)
  {
    var (p', k') := NextOf(pieces, rest);
    assert Occurs(pieces[k], rest, p) && Occurs(pieces[k'], rest, p');
  }

  lemma TailEnds(pieces: Pieces, rest: seq<byte>, p: nat, k: nat)
    requires Ends(pieces, rest) && rest != [] && IsNext(pieces, rest, p, k)
    ensures p + |pieces[k]| > 0 && Ends(pieces, rest[p + |pieces[k]|..])
  {
    NextIsUnique(pieces, rest, p, k);
  }

  /** What a function of segments makes of a text with a next special piece. */
  lemma FlatMapSplit<B>(f: Segment -> seq<B>, pieces: Pieces, rest: seq<byte>, p: nat, k: nat)
    requires Ends(pieces, rest) && rest != [] && IsNext(pieces, rest, p, k)
    requires Ends(pieces, rest[p + |pieces[k]|..])
    ensures FlatMap(f, Split(pieces, rest)) ==
            (if p > 0 then f(Ordinary(rest[..p])) else []) + f(Special(k))
            + FlatMap(f, Split(pieces, rest[p + |pieces[k]|..]))
  {
    NextIsUnique(pieces, rest, p, k);
    var tail := Split(pieces, rest[p + |pieces[k]|..]);
    FlatMapAppend(f, Before(rest, p) + [Special(k)], tail);
    FlatMapAppend(f, Before(rest, p), [Special(k)]);
    FlatMapOne(f, Special(k));
    FlatMapOne(f, Ordinary(rest[..p]));
  }

  ghost function SegmentBytes(pieces: Pieces): Segment -> seq<byte> {
    (s: Segment) => match s
      case Ordinary(b) => b
      case Special(k) => if k < |pieces| then pieces[k] else []
  }

  lemma {:induction false} SplitJoins(pieces: Pieces, rest: seq<byte>)
    requires Ends(pieces, rest)
    ensures FlatMap(SegmentBytes(pieces), Split(pieces, rest)) == rest
    decreases |rest|
  {
    var f := SegmentBytes(pieces);
    if rest != [] {
      if HasNext(pieces, rest) {
        var (p, k) := NextOf(pieces, rest);
        SplitJoins(pieces, rest[p + |pieces[k]|..]);
        JoinsWithNext(pieces, rest, p, k);
      } else {
        FlatMapOne(f, Ordinary(rest));
      }
    }
  }

  lemma JoinsWithNext(pieces: Pieces, rest: seq<byte>, p: nat, k: nat)
    requires Ends(pieces, rest) && rest != [] && IsNext(pieces, rest, p, k) && Ends(pieces, rest[p + |pieces[k]|..])
    requires var tail := rest[p + |pieces[k]|..]; FlatMap(SegmentBytes(pieces), Split(pieces, tail)) == tail
    ensures FlatMap(SegmentBytes(pieces), Split(pieces, rest)) == rest
  {
    FlatMapSplit(SegmentBytes(pieces), pieces, rest, p, k);
    CutOut(rest, p, pieces[k]);
    assert p == 0 ==> rest[..p] == [];
  }

  lemma CutOut(rest: seq<byte>, p: nat, piece: seq<byte>)
    requires Occurs(piece, rest, p)
    ensures rest == rest[..p] + piece + rest[p + |piece|..]
  {
    assert rest[p..] == piece + rest[p..][|piece|..];
  }

  lemma BeforeClean(pieces: Pieces, rest: seq<byte>, p: nat, k: nat, j: nat, q: int)
    requires IsNext(pieces, rest, p, k) && 0 < p <= |rest| && j < |pieces|
    ensures !Occurs(pieces[j], rest[..p], q)
  {
    assert pieces[j] == [] ==> Occurs(pieces[j], rest, 0);
    PrefixOccurs(pieces[j], rest, p, q);
  }

  /** No special piece inside an ordinary span, and no empty span. */
  lemma {:induction false} SplitClean(pieces: Pieces, rest: seq<byte>, i: int, j: int, q: int)
    requires Ends(pieces, rest)
    requires 0 <= i < |Split(pieces, rest)| && 0 <= j < |pieces|
    ensures var s := Split(pieces, rest)[i];
            match s
            case Ordinary(b) => b != [] && !Occurs(pieces[j], b, q)
            case Special(k) => k < |pieces|
    decreases |rest|
  {
    if HasNext(pieces, rest) {
      var (p, k) := NextOf(pieces, rest);
      var before := Before(rest, p);
      if i < |before| {
        BeforeClean(pieces, rest, p, k, j, q);
      } else if i > |before| {
        SplitClean(pieces, rest[p + |pieces[k]|..], i - |before| - 1, j, q);
      }
    } else if Occurs(pieces[j], rest, q) {
      LeastOccurrence(pieces, rest, j, q);
    }
  }

  lemma PrefixOccurs(piece: seq<byte>, rest: seq<byte>, p: nat, q: int)
    requires p <= |rest|
    ensures Occurs(piece, rest[..p], q) ==> Occurs(piece, rest, q) && q + |piece| <= p
  {
    if Occurs(piece, rest[..p], q) {
      assert rest[..p][q..] <= rest[q..];
    }
  }

  /** If any piece occurs there is a next one. */
  lemma {:induction false} LeastOccurrence(pieces: Pieces, rest: seq<byte>, j: nat, q: nat)
    requires j < |pieces| && Occurs(pieces[j], rest, q)
    ensures HasNext(pieces, rest)
    decreases q, j
  {
    if j': nat, q': nat :| j' < |pieces| && Occurs(pieces[j'], rest, q') && (q' < q || (q' == q && j' < j)) {
      LeastOccurrence(pieces, rest, j', q');
    } else {
      assert IsNext(pieces, rest, q, j);
    }
  }

  /** With the pieces in order of falling length, the piece taken is the longest at its place. */
  lemma NextIsLongest(pieces: Pieces, rest: seq<byte>, p: int, k: int, j: int)
    requires forall a, b :: 0 <= a < b < |pieces| ==> |pieces[a]| >= |pieces[b]|
    requires IsNext(pieces, rest, p, k)
    requires 0 <= j < |pieces| && Occurs(pieces[j], rest, p)
    ensures |pieces[j]| <= |pieces[k]|
  {
  }

  // ---- the code ----

  /** The library's substring search. */
  method Find(rest: seq<byte>, piece: seq<byte>) returns (at: Option<nat>)
    ensures at.Some? ==> Occurs(piece, rest, at.value) && forall q :: Occurs(piece, rest, q) ==> at.value <= q
    ensures at.None? ==> forall q :: !Occurs(piece, rest, q)
  {
    for p := 0 to |rest| + 1
      invariant forall q :: 0 <= q < p ==> !Occurs(piece, rest, q)
    {
      if piece <= rest[p..] {
        return Some(p);
      }
    }
    at := None;
  }

  method FindNext(pieces: Pieces, rest: seq<byte>) returns (next: Option<(nat, nat)>)
    ensures next.Some? ==> IsNext(pieces, rest, next.value.0, next.value.1)
    ensures next.None? ==> !HasNext(pieces, rest)
  {
    next := None;
    for i := 0 to |pieces|
      invariant next.None? ==> forall j, q :: 0 <= j < i ==> !Occurs(pieces[j], rest, q)
      invariant next.Some? ==> next.value.1 < i && Occurs(pieces[next.value.1], rest, next.value.0)
      invariant next.Some? ==> forall j, q :: 0 <= j < i && Occurs(pieces[j], rest, q) ==>
        next.value.0 < q || (next.value.0 == q && next.value.1 <= j)
    {
      var at := Find(rest, pieces[i]);
      if at.Some? && (next.None? || at.value < next.value.0) {
        next := Some((at.value, i));
      }
    }
  }

  /** An empty piece is found at the front of every rest: unless a longer piece stands there, the rest does not
      get shorter. */
  lemma ProgressIff(pieces: Pieces, rest: seq<byte>, p: int, k: int)
    requires forall a, b :: 0 <= a < b < |pieces| ==> |pieces[a]| >= |pieces[b]|
    requires IsNext(pieces, rest, p, k)
    ensures p + |pieces[k]| > 0
       <==> NoEmptyPiece(pieces) || exists j :: 0 <= j < |pieces| && pieces[j] != [] && Occurs(pieces[j], rest, 0)
  {
    if e :| 0 <= e < |pieces| && pieces[e] == [] {
      assert Occurs(pieces[e], rest, 0);
    }
  }

  // ---- for which texts the loop ends ----

  /** What is left after a number of turns. */
  ghost function After(pieces: Pieces, rest: seq<byte>, turns: nat): seq<byte> {
    if turns == 0 || Stops(pieces, rest) then rest else After(pieces, Tail(pieces, rest), turns - 1)
  }

  ghost predicate StopsAfter(pieces: Pieces, rest: seq<byte>, turns: nat) { Stops(pieces, After(pieces, rest, turns)) }

  lemma {:induction false} EndsInTurns(pieces: Pieces, rest: seq<byte>) returns (turns: nat)
    requires Ends(pieces, rest)
    ensures StopsAfter(pieces, rest, turns)
    decreases |rest|
  {
    if Stops(pieces, rest) {
      turns := 0;
    } else {
      var more := EndsInTurns(pieces, Tail(pieces, rest));
      turns := more + 1;
    }
  }

  lemma {:induction false} TurnsEnd(pieces: Pieces, rest: seq<byte>, turns: nat)
    requires StopsAfter(pieces, rest, turns)
    ensures Ends(pieces, rest)
    decreases turns
  {
    if turns > 0 && !Stops(pieces, rest) {
      TurnsEnd(pieces, Tail(pieces, rest), turns - 1);
    }
  }

  /** The loop stops after some number of turns exactly when every turn leaves less. */
  lemma LoopEndsIff(pieces: Pieces, rest: seq<byte>)
    ensures (exists turns: nat :: StopsAfter(pieces, rest, turns)) <==> Ends(pieces, rest)
  {
    if Ends(pieces, rest) {
      var turns := EndsInTurns(pieces, rest);
      assert StopsAfter(pieces, rest, turns);
    }
    forall turns: nat | StopsAfter(pieces, rest, turns) ensures Ends(pieces, rest) {
      TurnsEnd(pieces, rest, turns);
    }
  }

  lemma {:induction false} NoEmptyPieceEnds(pieces: Pieces, rest: seq<byte>)
    requires NoEmptyPiece(pieces)
    ensures Ends(pieces, rest)
    decreases |rest|
  {
    if !Stops(pieces, rest) {
      NoEmptyPieceEnds(pieces, Tail(pieces, rest));
    }
  }

  /** The length of the longest piece at the front of a text, 0 if there is none but the empty one. */
  function LongestInFront(pieces: Pieces, rest: seq<byte>): (n: nat)
    ensures n <= |rest|
  {
    if pieces == [] then 0
    else
      var n, last := LongestInFront(pieces[..|pieces| - 1], rest), pieces[|pieces| - 1];
      if last <= rest && |last| > n then |last| else n
  }

  lemma {:induction false} LongestIsLongest(pieces: Pieces, rest: seq<byte>, k: nat)
    requires k < |pieces| && pieces[k] <= rest
    requires forall j :: 0 <= j < |pieces| && pieces[j] <= rest ==> |pieces[j]| <= |pieces[k]|
    ensures LongestInFront(pieces, rest) == |pieces[k]|
  {
    var n := |pieces| - 1;
    if k < n {
      LongestIsLongest(pieces[..n], rest, k);
    } else {
      LongestIsBounded(pieces[..n], rest, |pieces[k]|);
    }
  }

  lemma {:induction false} LongestIsBounded(pieces: Pieces, rest: seq<byte>, bound: nat)
    requires forall j :: 0 <= j < |pieces| && pieces[j] <= rest ==> |pieces[j]| <= bound
    ensures LongestInFront(pieces, rest) <= bound
  {
    if pieces != [] {
      LongestIsBounded(pieces[..|pieces| - 1], rest, bound);
    }
  }

  /** Taking the longest piece off the front again and again leaves nothing. */
  predicate MadeOfPieces(pieces: Pieces, rest: seq<byte>)
    decreases |rest|
  {
    rest == []
    || (LongestInFront(pieces, rest) > 0 && MadeOfPieces(pieces, rest[LongestInFront(pieces, rest)..]))
  }

  /** With an empty piece among them, a turn of the loop takes the longest piece off the front. */
  lemma TailWithEmptyPiece(pieces: Pieces, rest: seq<byte>)
    requires forall a, b :: 0 <= a < b < |pieces| ==> |pieces[a]| >= |pieces[b]|
    requires !NoEmptyPiece(pieces) && rest != []
    ensures !Stops(pieces, rest) && Tail(pieces, rest) == rest[LongestInFront(pieces, rest)..]
  {
    var e :| 0 <= e < |pieces| && pieces[e] == [];
    assert Occurs(pieces[e], rest, 0);
    LeastOccurrence(pieces, rest, e, 0);
    var (p, k) := NextOf(pieces, rest);
    assert p == 0 && rest[0..] == rest;
    forall j | 0 <= j < |pieces| && pieces[j] <= rest ensures |pieces[j]| <= |pieces[k]| {
      assert Occurs(pieces[j], rest, 0);
      NextIsLongest(pieces, rest, p, k, j);
    }
    LongestIsLongest(pieces, rest, k);
  }

  /** With the pieces in order of falling length the loop ends exactly when no piece is empty, or nothing is left when
      the longest piece is taken off the front again and again. */
  lemma {:induction false} EndsIff(pieces: Pieces, rest: seq<byte>)
    requires forall a, b :: 0 <= a < b < |pieces| ==> |pieces[a]| >= |pieces[b]|
    ensures Ends(pieces, rest) <==> NoEmptyPiece(pieces) || MadeOfPieces(pieces, rest)
    decreases |rest|
  {
    if NoEmptyPiece(pieces) {
      NoEmptyPieceEnds(pieces, rest);
    } else if rest != [] {
      TailWithEmptyPiece(pieces, rest);
      if LongestInFront(pieces, rest) > 0 {
        EndsIff(pieces, Tail(pieces, rest));
      }
    }
  }

  lemma EmptyPieceStays(rest: seq<byte>)
    requires rest != []
    ensures !Stops([[]], rest) && Tail([[]], rest) == rest
  {
    var pieces: Pieces := [[]];
    assert Occurs(pieces[0], rest, 0);
    LeastOccurrence(pieces, rest, 0, 0);
    var (p, k) := NextOf(pieces, rest);
    assert p == 0 && k == 0;
  }

  /** An empty piece alone keeps the loop at a text for ever. */
  lemma {:induction false} EmptyPieceDiverges(rest: seq<byte>, turns: nat)
    requires rest != []
    ensures After([[]], rest, turns) == rest && !StopsAfter([[]], rest, turns)
  {
    EmptyPieceStays(rest);
    if turns > 0 {
      EmptyPieceDiverges(rest, turns - 1);
    }
  }
}
