/** The tables of the tokenizer, built from the parsed tokenizer file. */
module TokenizerFile {
  import opened Bytes
  import opened Sequences
  import opened Wrappers
  import opened Ordering
  import opened BpeMerge
  import opened Splitter
  import opened Tokenizer
  import Utf8

  datatype MergeEntry = Str(text: string) | Pair(parts: seq<string>)

  datatype AddedToken = AddedToken(id: nat, content: string, special: bool)

  /** The vocabulary as its pairs, in whatever order the hash map yields them. */
  datatype File = File(vocab: seq<(string, nat)>, added: seq<AddedToken>, merges: seq<MergeEntry>)

  function IndexOf(s: string, c: char): (i: nat)
    ensures i <= |s| && (i < |s| ==> s[i] == c) && c !in s[..i]
  {
    if s == "" || s[0] == c then 0
    else
      var i := 1 + IndexOf(s[1..], c);
      assert s[..i] == [s[0]] + s[1..][..i - 1];
      i
  }

  /** The two sides of a merge: split at the first space, or the first two of a list. */
  function MergePair(e: MergeEntry): Option<(string, string)> {
    match e
    case Str(text) =>
      var i := IndexOf(text, ' ');
      Some((text[..i], if i < |text| then text[i + 1..] else ""))
    case Pair(parts) => if |parts| >= 2 then Some((parts[0], parts[1])) else None
  }

  // ---- the tables as folds over the file ----

  function AddedPairs(added: seq<AddedToken>): seq<(string, nat)> {
    seq(|added|, i requires 0 <= i < |added| => (added[i].content, added[i].id))
  }

  function Pairs(f: File): seq<(string, nat)> { f.vocab + AddedPairs(f.added) }

  function MaxId(pairs: seq<(string, nat)>): (m: nat)
    ensures forall i :: 0 <= i < |pairs| ==> pairs[i].1 <= m
  {
    if pairs == [] then 0
    else
      var m, last := MaxId(pairs[..|pairs| - 1]), pairs[|pairs| - 1].1;
      if m < last then last else m
  }

  function IdsByToken(pairs: seq<(string, nat)>): map<string, nat> {
    if pairs == [] then map[]
    else
      var last := pairs[|pairs| - 1];
      IdsByToken(pairs[..|pairs| - 1])[last.0 := last.1]
  }

  function TokensById(pairs: seq<(string, nat)>, size: nat): (tokens: seq<string>)
    requires forall i :: 0 <= i < |pairs| ==> pairs[i].1 < size
    ensures |tokens| == size
  {
    if pairs == [] then seq(size, _ => "")
    else
      var last := pairs[|pairs| - 1];
      TokensById(pairs[..|pairs| - 1], size)[last.1 := last.0]
  }

  /** The rank of a pair is the place of its last entry, as a u32. */
  function MergeRanks(entries: seq<MergeEntry>): Merges {
    if entries == [] then map[]
    else
      var n := |entries| - 1;
      match MergePair(entries[n])
      case None => MergeRanks(entries[..n])
      case Some(pair) => MergeRanks(entries[..n])[pair := n % TWO32]
  }

  predicate IsSplitPiece(a: AddedToken) { a.special || "<|" <= a.content }

  function SplitPieces(a: AddedToken): seq<(string, nat)> {
    if IsSplitPiece(a) then [(a.content, a.id)] else []
  }

  predicate LongerFirst(a: (string, nat), b: (string, nat)) {
    |Utf8.Encode(a.0)| >= |Utf8.Encode(b.0)|
  }

  function Specials(added: seq<AddedToken>): seq<(string, nat)> {
    Sort(LongerFirst, FlatMap(SplitPieces, added))
  }

  function SpecialId(a: AddedToken): seq<nat> { if a.special then [a.id] else [] }

  function FirstOf(added: seq<AddedToken>, contents: set<string>): Option<nat> {
    if added == [] then None
    else if added[0].content in contents then Some(added[0].id)
    else FirstOf(added[1..], contents)
  }

  const BOS_TOKENS := {"<s>", "<|begin_of_text|>"}
  const EOS_TOKENS := {"</s>", "<|endoftext|>", "<|im_end|>", "<|eot_id|>"}

  /** The tables, with the ids of the beginning and the end of a text. */
  function Assembled(f: File, tokenToId: map<string, nat>, idToToken: seq<string>, merges: Merges,
                     specials: seq<(string, nat)>): Tables
  {
    var imEnd := FirstOf(f.added, {"<|im_end|>"});
    Tables(tokenToId, idToToken, merges, FirstOf(f.added, BOS_TOKENS),
           if imEnd.Some? then imEnd else FirstOf(f.added, EOS_TOKENS), FlatMap(SpecialId, f.added), specials)
  }

  function TablesOf(f: File): Tables {
    Assembled(f, IdsByToken(Pairs(f)), TokensById(Pairs(f), MaxId(Pairs(f)) + 1), MergeRanks(f.merges), Specials(f.added))
  }

  // ---- the last entry wins ----

  predicate LastWithToken(pairs: seq<(string, nat)>, i: nat) {
    i < |pairs| && forall j :: i < j < |pairs| ==> pairs[j].0 != pairs[i].0
  }

  predicate LastWithId(pairs: seq<(string, nat)>, i: nat) {
    i < |pairs| && forall j :: i < j < |pairs| ==> pairs[j].1 != pairs[i].1
  }

  predicate LastWithPair(entries: seq<MergeEntry>, i: nat) {
    && i < |entries| && MergePair(entries[i]).Some?
    && forall j :: i < j < |entries| ==> MergePair(entries[j]) != MergePair(entries[i])
  }

  lemma {:induction false} LastTokenWins(pairs: seq<(string, nat)>, i: nat)
    requires LastWithToken(pairs, i)
    ensures pairs[i].0 in IdsByToken(pairs) && IdsByToken(pairs)[pairs[i].0] == pairs[i].1
  {
    if i < |pairs| - 1 {
      LastTokenWins(pairs[..|pairs| - 1], i);
    }
  }

  lemma {:induction false} LastIdWins(pairs: seq<(string, nat)>, size: nat, i: nat)
    requires (forall k :: 0 <= k < |pairs| ==> pairs[k].1 < size) && LastWithId(pairs, i)
    ensures TokensById(pairs, size)[pairs[i].1] == pairs[i].0
  {
    if i < |pairs| - 1 {
      LastIdWins(pairs[..|pairs| - 1], size, i);
    }
  }

  lemma {:induction false} LastMergeWins(entries: seq<MergeEntry>, i: nat)
    requires LastWithPair(entries, i)
    ensures MergePair(entries[i]).value in MergeRanks(entries)
    ensures MergeRanks(entries)[MergePair(entries[i]).value] == i % TWO32
  {
    if i < |entries| - 1 {
      LastMergeWins(entries[..|entries| - 1], i);
    }
  }

  lemma {:induction false} OnlyTokensHaveIds(pairs: seq<(string, nat)>, token: string)
    requires token in IdsByToken(pairs)
    ensures exists i :: 0 <= i < |pairs| && pairs[i].0 == token
  {
    var n := |pairs| - 1;
    if pairs[n].0 != token {
      OnlyTokensHaveIds(pairs[..n], token);
    }
  }

  lemma {:induction false} UnlistedIsEmpty(pairs: seq<(string, nat)>, size: nat, id: nat)
    requires id < size && forall k :: 0 <= k < |pairs| ==> pairs[k].1 < size && pairs[k].1 != id
    ensures TokensById(pairs, size)[id] == ""
  {
    if pairs != [] {
      UnlistedIsEmpty(pairs[..|pairs| - 1], size, id);
    }
  }

  /** Each token listed has the id of the last pair that lists it, and no other token has an id. */
  ghost predicate IdsAreLast(pairs: seq<(string, nat)>, ids: map<string, nat>) {
    && (forall i: nat {:trigger LastWithToken(pairs, i)} :: LastWithToken(pairs, i) ==>
          pairs[i].0 in ids && ids[pairs[i].0] == pairs[i].1)
    && forall t :: t in ids ==> exists i :: 0 <= i < |pairs| && pairs[i].0 == t
  }

  predicate Listed(pairs: seq<(string, nat)>, id: nat) { exists p :: p in pairs && p.1 == id }

  ghost predicate ListedAreLast(pairs: seq<(string, nat)>, tokens: seq<string>) {
    forall i: nat {:trigger LastWithId(pairs, i)} :: LastWithId(pairs, i) ==>
      pairs[i].1 < |tokens| && tokens[pairs[i].1] == pairs[i].0
  }

  ghost predicate OthersAreEmpty(pairs: seq<(string, nat)>, tokens: seq<string>) {
    forall id {:trigger Listed(pairs, id)} :: 0 <= id < |tokens| && !Listed(pairs, id) ==> tokens[id] == ""
  }

  /** Each id listed has the token of the last pair that lists it, and every other id the empty token. */
  ghost predicate TokensAreLast(pairs: seq<(string, nat)>, tokens: seq<string>) {
    ListedAreLast(pairs, tokens) && OthersAreEmpty(pairs, tokens)
  }

  /** Each pair listed has the rank of the last entry that lists it, and no other pair has a rank. */
  ghost predicate RanksAreLast(entries: seq<MergeEntry>, merges: Merges) {
    && (forall i: nat {:trigger LastWithPair(entries, i)} :: LastWithPair(entries, i) ==>
          MergePair(entries[i]).value in merges && merges[MergePair(entries[i]).value] == i % TWO32)
    && forall p :: p in merges ==> exists e :: e in entries && MergePair(e) == Some(p)
  }

  lemma IdsFoldIsLast(pairs: seq<(string, nat)>)
    ensures IdsAreLast(pairs, IdsByToken(pairs))
  {
    forall i: nat | LastWithToken(pairs, i)
      ensures pairs[i].0 in IdsByToken(pairs) && IdsByToken(pairs)[pairs[i].0] == pairs[i].1
    {
      LastTokenWins(pairs, i);
    }
    forall t | t in IdsByToken(pairs) ensures exists i :: 0 <= i < |pairs| && pairs[i].0 == t {
      OnlyTokensHaveIds(pairs, t);
    }
  }

  lemma ListedFold(pairs: seq<(string, nat)>, size: nat)
    requires forall k :: 0 <= k < |pairs| ==> pairs[k].1 < size
    ensures ListedAreLast(pairs, TokensById(pairs, size))
  {
    forall i: nat | LastWithId(pairs, i) ensures TokensById(pairs, size)[pairs[i].1] == pairs[i].0 {
      LastIdWins(pairs, size, i);
    }
  }

  lemma OthersFold(pairs: seq<(string, nat)>, size: nat)
    requires forall k :: 0 <= k < |pairs| ==> pairs[k].1 < size
    ensures OthersAreEmpty(pairs, TokensById(pairs, size))
  {
    forall id | 0 <= id < size && !Listed(pairs, id) ensures TokensById(pairs, size)[id] == "" {
      assert forall k :: 0 <= k < |pairs| ==> pairs[k] in pairs;
      UnlistedIsEmpty(pairs, size, id);
    }
  }

  lemma TokensFoldIsLast(pairs: seq<(string, nat)>, size: nat)
    requires forall k :: 0 <= k < |pairs| ==> pairs[k].1 < size
    ensures TokensAreLast(pairs, TokensById(pairs, size))
  {
    ListedFold(pairs, size);
    OthersFold(pairs, size);
  }

  lemma RanksFoldIsLast(entries: seq<MergeEntry>)
    ensures RanksAreLast(entries, MergeRanks(entries))
  {
    forall i: nat | LastWithPair(entries, i)
      ensures MergePair(entries[i]).value in MergeRanks(entries)
      ensures MergeRanks(entries)[MergePair(entries[i]).value] == i % TWO32
    {
      LastMergeWins(entries, i);
    }
    forall p | p in MergeRanks(entries) ensures exists e :: e in entries && MergePair(e) == Some(p) {
      MergeRanksPairs(entries, p.0, p.1);
    }
  }

  /** In all three tables the last entry wins. */
  ghost predicate AllAreLast(f: File, t: Tables) {
    && IdsAreLast(Pairs(f), t.tokenToId) && TokensAreLast(Pairs(f), t.idToToken) && RanksAreLast(f.merges, t.merges)
  }

  lemma FieldsAreLast(f: File, t: Tables)
    requires t.tokenToId == IdsByToken(Pairs(f)) && t.idToToken == TokensById(Pairs(f), MaxId(Pairs(f)) + 1)
    requires t.merges == MergeRanks(f.merges)
    ensures AllAreLast(f, t)
  {
    IdsFoldIsLast(Pairs(f));
    TokensFoldIsLast(Pairs(f), MaxId(Pairs(f)) + 1);
    RanksFoldIsLast(f.merges);
  }

  lemma TablesAreLast(f: File, t: Tables)
    requires t == TablesOf(f)
    ensures AllAreLast(f, t)
  {
    TablesParts(f);
    FieldsAreLast(f, t);
  }

  lemma AssembledIs(f: File, tokenToId: map<string, nat>, idToToken: seq<string>, merges: Merges,
                    specials: seq<(string, nat)>)
    requires tokenToId == IdsByToken(Pairs(f)) && idToToken == TokensById(Pairs(f), MaxId(Pairs(f)) + 1)
    requires merges == MergeRanks(f.merges) && specials == Specials(f.added)
    ensures var t := Assembled(f, tokenToId, idToToken, merges, specials);
            t == TablesOf(f)
  {
  }

  // ---- the loops that build them ----

  method FromFile(f: File) returns (r: Result<Tables, string>)
    ensures f.vocab == [] ==> r == Err("tokenizer vocab is empty")
    ensures f.vocab != [] ==> r.Ok? && r.value == TablesOf(f) && AllAreLast(f, r.value)
  {
    if f.vocab == [] {
      return Err("tokenizer vocab is empty");
    }
    var tokenToId, idToToken := BuildIds(Pairs(f));
    var merges := BuildMerges(f.merges);
    var specials := BuildSpecials(f.added);
    AssembledIs(f, tokenToId, idToToken, merges, specials);
    r := Ok(Assembled(f, tokenToId, idToToken, merges, specials));
    TablesAreLast(f, r.value);
  }

  /** Vocabulary first, then the added tokens over it. */
  method BuildIds(pairs: seq<(string, nat)>) returns (tokenToId: map<string, nat>, idToToken: seq<string>)
    ensures IdsAreLast(pairs, tokenToId) && TokensAreLast(pairs, idToToken)
    ensures tokenToId == IdsByToken(pairs) && idToToken == TokensById(pairs, MaxId(pairs) + 1)
  {
    tokenToId, idToToken := map[], seq(MaxId(pairs) + 1, _ => "");
    for i := 0 to |pairs|
      invariant tokenToId == IdsByToken(pairs[..i]) && idToToken == TokensById(pairs[..i], MaxId(pairs) + 1)
    {
      assert pairs[..i + 1][..i] == pairs[..i];
      tokenToId := tokenToId[pairs[i].0 := pairs[i].1];
      idToToken := idToToken[pairs[i].1 := pairs[i].0];
    }
    assert pairs[..|pairs|] == pairs;
    IdsFoldIsLast(pairs);
    TokensFoldIsLast(pairs, MaxId(pairs) + 1);
  }

  method BuildSpecials(added: seq<AddedToken>) returns (specials: seq<(string, nat)>)
    ensures specials == Specials(added)
  {
    specials := [];
    for i := 0 to |added|
      invariant specials == FlatMap(SplitPieces, added[..i])
    {
      FlatMapStep(SplitPieces, added, i);
      if added[i].special || "<|" <= added[i].content {
        specials := specials + [(added[i].content, added[i].id)];
      }
    }
    assert added[..|added|] == added;
    specials := Sort(LongerFirst, specials);
  }

  method BuildMerges(entries: seq<MergeEntry>) returns (merges: Merges)
    ensures RanksAreLast(entries, merges)
    ensures merges == MergeRanks(entries)
  {
    merges := map[];
    for rank := 0 to |entries|
      invariant merges == MergeRanks(entries[..rank])
    {
      assert entries[..rank + 1][..rank] == entries[..rank];
      var pair := MergePair(entries[rank]);
      if pair.Some? {
        merges := merges[pair.value := rank % TWO32];
      }
    }
    assert entries[..|entries|] == entries;
    RanksFoldIsLast(entries);
  }

  // ---- files whose tables are complete ----

  /** One id per token and one token per id, over the vocabulary and the added tokens together. */
  ghost predicate OneToOne(pairs: seq<(string, nat)>) {
    forall i, j :: 0 <= i < |pairs| && 0 <= j < |pairs| ==> (pairs[i].0 == pairs[j].0 <==> pairs[i].1 == pairs[j].1)
  }

  ghost predicate HasToken(f: File, token: string) {
    exists i :: 0 <= i < |Pairs(f)| && Pairs(f)[i].0 == token
  }

  ghost predicate WellFormed(f: File) {
    && OneToOne(Pairs(f))
    && (forall b: byte :: HasToken(f, BytePiece(b)))
    && (forall e :: e in f.merges && MergePair(e).Some? ==> HasToken(f, MergePair(e).value.0 + MergePair(e).value.1))
    && (forall a :: a in f.added && IsSplitPiece(a) ==> a.content != "")
  }

  lemma {:induction false} IdsOfPairs(pairs: seq<(string, nat)>, size: nat)
    requires OneToOne(pairs) && forall i :: 0 <= i < |pairs| ==> pairs[i].1 < size
    ensures forall i :: 0 <= i < |pairs| ==> pairs[i].0 in IdsByToken(pairs) && IdsByToken(pairs)[pairs[i].0] == pairs[i].1
    ensures forall i :: 0 <= i < |pairs| ==> TokensById(pairs, size)[pairs[i].1] == pairs[i].0
    ensures forall p :: p in IdsByToken(pairs) ==> exists i :: 0 <= i < |pairs| && pairs[i] == (p, IdsByToken(pairs)[p])
  {
    if pairs != [] {
      var n := |pairs| - 1;
      IdsOfPairs(pairs[..n], size);
      forall i | 0 <= i < n
        ensures pairs[..n][i] == pairs[i]
      {
      }
    }
  }

  lemma {:induction false} MergeRanksPairs(entries: seq<MergeEntry>, a: string, b: string)
    requires (a, b) in MergeRanks(entries)
    ensures exists e :: e in entries && MergePair(e) == Some((a, b))
  {
    var n := |entries| - 1;
    if MergePair(entries[n]) == Some((a, b)) {
      assert entries[n] in entries;
    } else {
      MergeRanksPairs(entries[..n], a, b);
      var e :| e in entries[..n] && MergePair(e) == Some((a, b));
      assert e in entries;
    }
  }

  lemma {:induction false} SplitPiecesOf(added: seq<AddedToken>, x: (string, nat))
    requires x in FlatMap(SplitPieces, added)
    ensures exists i :: 0 <= i < |added| && IsSplitPiece(added[i]) && x == (added[i].content, added[i].id)
  {
    if x in SplitPieces(added[0]) {
    } else {
      SplitPiecesOf(added[1..], x);
      var i :| 0 <= i < |added[1..]| && IsSplitPiece(added[1..][i]) && x == (added[1..][i].content, added[1..][i].id);
      assert added[i + 1] == added[1..][i];
    }
  }

  lemma SpecialsOf(f: File, k: nat)
    requires WellFormed(f) && k < |Specials(f.added)|
    ensures Specials(f.added)[k].0 != "" && Specials(f.added)[k] in Pairs(f)
  {
    var x := Specials(f.added)[k];
    assert x in multiset(Specials(f.added));
    SplitPiecesOf(f.added, x);
    var i :| 0 <= i < |f.added| && IsSplitPiece(f.added[i]) && x == (f.added[i].content, f.added[i].id);
    assert f.added[i] in f.added && Pairs(f)[|f.vocab| + i] == x;
  }

  lemma SpecialsLongestFirst(added: seq<AddedToken>)
    ensures Sorted(LongerFirst, Specials(added))
  {
    SortSorted(LongerFirst, FlatMap(SplitPieces, added));
  }

  lemma VocabularyIsComplete(f: File)
    requires WellFormed(f)
    ensures forall b: byte :: BytePiece(b) in IdsByToken(Pairs(f))
    ensures forall x, y :: (x, y) in MergeRanks(f.merges) ==> x + y in IdsByToken(Pairs(f))
  {
    IdsOfPairs(Pairs(f), MaxId(Pairs(f)) + 1);
    forall b: byte ensures BytePiece(b) in IdsByToken(Pairs(f)) {
      assert HasToken(f, BytePiece(b));
    }
    forall x, y | (x, y) in MergeRanks(f.merges) ensures x + y in IdsByToken(Pairs(f)) {
      MergeRanksPairs(f.merges, x, y);
      assert HasToken(f, x + y);
    }
  }

  lemma TokensLeadBack(f: File, t: Tables)
    requires WellFormed(f) && t.tokenToId == IdsByToken(Pairs(f))
    requires t.idToToken == TokensById(Pairs(f), MaxId(Pairs(f)) + 1)
    ensures forall p :: p in t.tokenToId ==> t.TokenOf(t.tokenToId[p]) == p
    ensures forall x :: x in Pairs(f) ==> t.TokenOf(x.1) == x.0
  {
    IdsOfPairs(Pairs(f), MaxId(Pairs(f)) + 1);
  }

  lemma SpecialsAreComplete(f: File, t: Tables)
    requires WellFormed(f) && t.specials == Specials(f.added)
    requires forall x :: x in Pairs(f) ==> t.TokenOf(x.1) == x.0
    ensures forall k :: 0 <= k < |t.specials| ==> t.specials[k].0 != "" && t.TokenOf(t.specials[k].1) == t.specials[k].0
    ensures forall a, b :: 0 <= a < b < |t.specials| ==> |t.Pieces()[a]| >= |t.Pieces()[b]|
  {
    forall k | 0 <= k < |t.specials| ensures t.specials[k].0 != "" && t.specials[k] in Pairs(f) {
      SpecialsOf(f, k);
    }
    SpecialsLongestFirst(f.added);
    forall a, b | 0 <= a < b < |t.specials| ensures |t.Pieces()[a]| >= |t.Pieces()[b]| {
      assert LongerFirst(t.specials[a], t.specials[b]);
    }
  }

  lemma TablesParts(f: File)
    ensures var t := TablesOf(f);
            && t.tokenToId == IdsByToken(Pairs(f)) && t.idToToken == TokensById(Pairs(f), MaxId(Pairs(f)) + 1)
            && t.merges == MergeRanks(f.merges) && t.specials == Specials(f.added)
  {
  }

  lemma FileIsComplete(f: File, t: Tables)
    requires WellFormed(f) && t.tokenToId == IdsByToken(Pairs(f))
    requires t.idToToken == TokensById(Pairs(f), MaxId(Pairs(f)) + 1)
    requires t.merges == MergeRanks(f.merges) && t.specials == Specials(f.added)
    ensures Complete(t)
  {
    VocabularyIsComplete(f);
    TokensLeadBack(f, t);
    SpecialsAreComplete(f, t);
  }

  /** A well-formed file gives complete tables, so decoding undoes encoding unless a special piece uses a
      non-ASCII character of the byte alphabet. */
  lemma TablesAreComplete(f: File, t: Tables)
    requires WellFormed(f) && t == TablesOf(f)
    ensures Complete(t) && NoEmptyPiece(t.Pieces())
    ensures (forall text :: RoundTrips(t, text)) <==> PlainSpecials(t)
  {
    TablesParts(f);
    FileIsComplete(f, t);
    PiecesNotEmpty(t);
    RoundTripIff(t);
  }
}
