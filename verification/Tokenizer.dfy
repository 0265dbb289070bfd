/** The byte-level BPE tokenizer: tables, encoding, decoding, and the round trip. */
module Tokenizer {
  import opened Bytes
  import opened Sequences
  import opened Wrappers
  import opened ByteMap
  import opened BpeMerge
  import opened Splitter
  import Utf8

  datatype Tables = Tables(
    tokenToId: map<string, nat>,
    idToToken: seq<string>,
    merges: Merges,
    bosId: Option<nat>,
    eosId: Option<nat>,
    specialIds: seq<nat>,
    specials: seq<(string, nat)>
  )
  {
    /** The byte forms of the special pieces, in the order they are tried. */
    function Pieces(): (p: Pieces)
      ensures |p| == |specials|
    {
      seq(|specials|, k requires 0 <= k < |specials| => Utf8.Encode(specials[k].0))
    }

    function IdOf(piece: string): nat {
      if piece in tokenToId then tokenToId[piece]
      else if "<unk>" in tokenToId then tokenToId["<unk>"]
      else 0
    }

    function TokenOf(id: nat): string {
      if id < |idToToken| then idToToken[id] else ""
    }

    predicate IsSpecial(id: nat) {
      Some(id) == bosId || Some(id) == eosId || id in specialIds
    }
  }

  // ---- encoding ----

  function BytePiece(b: byte): string { [ByteChar(b)] }

  function BytePieces(text: seq<byte>): seq<string> {
    seq(|text|, i requires 0 <= i < |text| => BytePiece(text[i]))
  }

  function Ids(t: Tables, pieces: seq<string>): seq<nat> {
    seq(|pieces|, i requires 0 <= i < |pieces| => t.IdOf(pieces[i]))
  }

  ghost function OrdinaryIds(t: Tables, text: seq<byte>): seq<nat> {
    Ids(t, Rewrite(t.merges, BytePieces(text)))
  }

  ghost function SegmentIds(t: Tables): Segment -> seq<nat> {
    (s: Segment) =>
      match s
      case Ordinary(b) => OrdinaryIds(t, b)
      case Special(k) => if k < |t.specials| then [t.specials[k].1] else []
  }

  ghost function Encoded(t: Tables, text: seq<byte>): seq<nat>
    requires Ends(t.Pieces(), text)
  {
    FlatMap(SegmentIds(t), Split(t.Pieces(), text))
  }

  method InitialPieces(text: seq<byte>) returns (pieces: seq<string>)
    ensures pieces == BytePieces(text)
  {
    var enc, _ := Gpt2BytesToUnicode();
    pieces := [];
    for i := 0 to |text|
      invariant pieces == BytePieces(text[..i])
    {
      pieces := pieces + [[enc[text[i]]]];
    }
    assert text[..|text|] == text;
  }

  method EncodeOrdinary(t: Tables, text: seq<byte>) returns (ids: seq<nat>)
    ensures text == [] ==> ids == []
    ensures text != [] ==> ids == OrdinaryIds(t, text)
  {
    ids := [];
    if text == [] {
      return;
    }
    var start := InitialPieces(text);
    var pieces, _ := Merge(t.merges, start);
    for i := 0 to |pieces|
      invariant ids == Ids(t, pieces[..i])
    {
      ids := ids + [t.IdOf(pieces[i])];
    }
    assert pieces[..|pieces|] == pieces;
  }

  /** Where the loop over the special pieces ends at all. */
  method Encode(t: Tables, text: string, addSpecialTokens: bool) returns (ids: seq<nat>)
    requires Ends(t.Pieces(), Utf8.Encode(text))
    ensures ids == (if addSpecialTokens && t.bosId.Some? then [t.bosId.value] else []) + Encoded(t, Utf8.Encode(text))
  {
    ids := [];
    if addSpecialTokens && t.bosId.Some? {
      ids := ids + [t.bosId.value];
    }
    var more := EncodeText(t, Utf8.Encode(text));
    ids := ids + more;
  }

  /** The loop that splits at special pieces. */
  method EncodeText(t: Tables, text: seq<byte>) returns (ids: seq<nat>)
    requires Ends(t.Pieces(), text)
    ensures ids == Encoded(t, text)
  {
    ids := [];
    var rest := text;
    var pieces := t.Pieces();
    ghost var f := SegmentIds(t);
    while rest != []
      invariant Ends(pieces, rest)
      invariant ids + FlatMap(f, Split(pieces, rest)) == FlatMap(f, Split(pieces, text))
      decreases |rest|
    {
      var next := FindNext(pieces, rest);
      if next.None? {
        var more := EncodeOrdinary(t, rest);
        ids := ids + more;
        FlatMapOne(f, Ordinary(rest));
        return;
      }
      var (p, k) := next.value;
      TailEnds(pieces, rest, p, k);
      FlatMapSplit(f, pieces, rest, p, k);
      var more := EncodeUpTo(t, rest, p, k);
      Associate(ids, more, FlatMap(f, Split(pieces, rest[p + |pieces[k]|..])));
      ids := ids + more;
      rest := rest[p + |pieces[k]|..];
    }
  }

  /** The ids of what stands before a special piece, and its own id. */
  method EncodeUpTo(t: Tables, rest: seq<byte>, p: nat, k: nat) returns (ids: seq<nat>)
    requires p <= |rest| && k < |t.specials|
    ensures ids == (if p > 0 then SegmentIds(t)(Ordinary(rest[..p])) else []) + SegmentIds(t)(Special(k))
  {
    ids := [];
    if p > 0 {
      ids := EncodeOrdinary(t, rest[..p]);
    }
    ids := ids + [t.specials[k].1];
  }

  // ---- decoding ----

  const GPT2_SPACE: char := '\U{0120}'

  function CharBytes(c: char): seq<byte> {
    match CharByte(c)
    case Some(b) => [b]
    case None => if c == GPT2_SPACE then [0x20] else Utf8.EncodeChar(c)
  }

  predicate IsMarker(token: string) {
    "<|" <= token && |token| >= 2 && token[|token| - 2..] == "|>"
  }

  function TokenText(t: Tables, skipSpecialTokens: bool): nat -> string {
    (id: nat) =>
      var token := t.TokenOf(id);
      if skipSpecialTokens && (t.IsSpecial(id) || IsMarker(token)) then "" else token
  }

  function DecodedBytes(t: Tables, ids: seq<nat>, skipSpecialTokens: bool): seq<byte> {
    FlatMap(CharBytes, FlatMap(TokenText(t, skipSpecialTokens), ids))
  }

  /** Bytes that are not UTF-8 come out with replacement characters, which is not part of this model. */
  datatype Decoded = Text(text: string) | Lossy(bytes: seq<byte>)

  function FromUtf8Lossy(bytes: seq<byte>): Decoded {
    match Utf8.Decode(bytes)
    case Some(text) => Text(text)
    case None => Lossy(bytes)
  }

  method Decode(t: Tables, ids: seq<nat>, skipSpecialTokens: bool) returns (r: Decoded)
    ensures r == FromUtf8Lossy(DecodedBytes(t, ids, skipSpecialTokens))
  {
    var text := Tokens(t, ids, skipSpecialTokens);
    var _, dec := Gpt2BytesToUnicode();
    var bytes: seq<byte> := [];
    for i := 0 to |text|
      invariant bytes == FlatMap(CharBytes, text[..i])
    {
      var c := text[i];
      FlatMapStep(CharBytes, text, i);
      if c in dec {
        bytes := bytes + [dec[c]];
      } else if c == GPT2_SPACE {
        bytes := bytes + [0x20];
      } else {
        bytes := bytes + Utf8.EncodeChar(c);
      }
    }
    assert text[..|text|] == text;
    r := FromUtf8Lossy(bytes);
  }

  method Tokens(t: Tables, ids: seq<nat>, skipSpecialTokens: bool) returns (text: string)
    ensures text == FlatMap(TokenText(t, skipSpecialTokens), ids)
  {
    text := "";
    for i := 0 to |ids|
      invariant text == FlatMap(TokenText(t, skipSpecialTokens), ids[..i])
    {
      FlatMapStep(TokenText(t, skipSpecialTokens), ids, i);
      var token := t.TokenOf(ids[i]);
      if skipSpecialTokens && t.IsSpecial(ids[i]) {
        continue;
      }
      if token == "" {
        continue;
      }
      if IsMarker(token) {
        if !skipSpecialTokens {
          text := text + token;
        }
        continue;
      }
      text := text + token;
    }
    assert ids[..|ids|] == ids;
  }

  // ---- the round trip ----

  /** What the tables of a byte-level tokenizer must offer: every byte character and every merge result has an
      id, the ids lead back, and the special pieces are tried longest first. */
  ghost predicate Complete(t: Tables) {
    && (forall b: byte :: BytePiece(b) in t.tokenToId)
    && (forall x, y :: (x, y) in t.merges ==> x + y in t.tokenToId)
    && (forall p :: p in t.tokenToId ==> t.TokenOf(t.tokenToId[p]) == p)
    && (forall k :: 0 <= k < |t.specials| ==> t.specials[k].0 != "" && t.TokenOf(t.specials[k].1) == t.specials[k].0)
    && (forall a, b :: 0 <= a < b < |t.specials| ==> |t.Pieces()[a]| >= |t.Pieces()[b]|)
  }

  /** A character that decoding leaves alone: ASCII, or outside the byte alphabet. */
  predicate Plain(c: char) { c as int < 0x80 || CharByte(c).None? }

  predicate AllPlain(s: string) { forall c :: c in s ==> Plain(c) }

  lemma PlainChar(c: char)
    ensures Plain(c) ==> CharBytes(c) == Utf8.EncodeChar(c)
    ensures !Plain(c) ==> |CharBytes(c)| < |Utf8.EncodeChar(c)|
  {
    if c as int < 0x80 {
      AsciiCharByte(c);
    }
  }

  lemma {:induction false} PlainText(s: string)
    ensures AllPlain(s) ==> FlatMap(CharBytes, s) == Utf8.Encode(s)
    ensures |FlatMap(CharBytes, s)| <= |Utf8.Encode(s)|
    ensures !AllPlain(s) ==> |FlatMap(CharBytes, s)| < |Utf8.Encode(s)|
  {
    if s != "" {
      PlainChar(s[0]);
      PlainText(s[1..]);
      assert s == [s[0]] + s[1..];
    }
  }

  lemma {:induction false} BytesOfBytePieces(text: seq<byte>)
    ensures FlatMap(CharBytes, Join(BytePieces(text))) == text
  {
    if text != [] {
      BytesOfBytePieces(text[1..]);
      assert BytePieces(text) == [BytePiece(text[0])] + BytePieces(text[1..]);
      FlatMapCons(Itself, BytePiece(text[0]), BytePieces(text[1..]));
      FlatMapCons(CharBytes, ByteChar(text[0]), Join(BytePieces(text[1..])));
      CharByteInvertsByteChar(text[0], ByteChar(text[0]));
    }
  }

  lemma {:induction false} TokensOfIds(t: Tables, ps: seq<string>)
    requires Complete(t) && forall p :: p in ps ==> p in t.tokenToId
    ensures FlatMap(TokenText(t, false), Ids(t, ps)) == Join(ps)
  {
    if ps != [] {
      TokensOfIds(t, ps[1..]);
      assert Ids(t, ps) == [t.IdOf(ps[0])] + Ids(t, ps[1..]);
      FlatMapCons(TokenText(t, false), t.IdOf(ps[0]), Ids(t, ps[1..]));
    }
  }

  lemma OrdinaryRoundTrip(t: Tables, text: seq<byte>)
    requires Complete(t)
    ensures DecodedBytes(t, OrdinaryIds(t, text), false) == text
  {
    var start := BytePieces(text);
    RewritePieces(t.merges, start, t.tokenToId.Keys);
    RewriteKeepsText(t.merges, start);
    TokensOfIds(t, Rewrite(t.merges, start));
    BytesOfBytePieces(text);
  }

  lemma SpecialDecodes(t: Tables, k: nat)
    requires Complete(t) && k < |t.specials|
    ensures DecodedBytes(t, [t.specials[k].1], false) == FlatMap(CharBytes, t.specials[k].0)
  {
    FlatMapOne(TokenText(t, false), t.specials[k].1);
  }

  lemma DecodedAppend(t: Tables, a: seq<nat>, b: seq<nat>)
    ensures DecodedBytes(t, a + b, false) == DecodedBytes(t, a, false) + DecodedBytes(t, b, false)
  {
    var f := TokenText(t, false);
    FlatMapAppend(f, a, b);
    FlatMapAppend(CharBytes, FlatMap(f, a), FlatMap(f, b));
  }

  lemma PiecesNotEmpty(t: Tables)
    requires Complete(t)
    ensures NoEmptyPiece(t.Pieces())
  {
    forall k | 0 <= k < |t.specials| ensures t.Pieces()[k] != [] {
      assert t.specials[k].0 != "";
    }
  }

  ghost predicate PlainSpecials(t: Tables) {
    forall k :: 0 <= k < |t.specials| ==> AllPlain(t.specials[k].0)
  }

  lemma SegmentRoundTrip(t: Tables, s: Segment)
    requires Complete(t) && PlainSpecials(t)
    ensures DecodedBytes(t, SegmentIds(t)(s), false) == SegmentBytes(t.Pieces())(s)
  {
    match s
    case Ordinary(b) => OrdinaryRoundTrip(t, b);
    case Special(k) =>
      if k < |t.specials| {
        SpecialDecodes(t, k);
        PlainText(t.specials[k].0);
      }
  }

  lemma {:induction false} SegmentsRoundTrip(t: Tables, segments: seq<Segment>)
    requires Complete(t) && PlainSpecials(t)
    ensures DecodedBytes(t, FlatMap(SegmentIds(t), segments), false) == FlatMap(SegmentBytes(t.Pieces()), segments)
  {
    if segments != [] {
      SegmentRoundTrip(t, segments[0]);
      SegmentsRoundTrip(t, segments[1..]);
      DecodedAppend(t, SegmentIds(t)(segments[0]), FlatMap(SegmentIds(t), segments[1..]));
    }
  }

  lemma BytesRoundTrip(t: Tables, text: seq<byte>)
    requires Complete(t) && PlainSpecials(t) && Ends(t.Pieces(), text)
    ensures DecodedBytes(t, Encoded(t, text), false) == text
  {
    SegmentsRoundTrip(t, Split(t.Pieces(), text));
    SplitJoins(t.Pieces(), text);
  }

  /** Encoding comes to an end, and decoding gives the text back. */
  ghost predicate RoundTrips(t: Tables, text: string) {
    Ends(t.Pieces(), Utf8.Encode(text))
    && FromUtf8Lossy(DecodedBytes(t, Encoded(t, Utf8.Encode(text)), false)) == Text(text)
  }

  lemma SpecialAlone(t: Tables, k: nat)
    requires Complete(t) && k < |t.specials| && Ends(t.Pieces(), Utf8.Encode(t.specials[k].0))
    ensures DecodedBytes(t, Encoded(t, Utf8.Encode(t.specials[k].0)), false) == FlatMap(CharBytes, t.specials[k].0)
  {
    var f, pieces, piece := SegmentIds(t), t.Pieces(), t.Pieces()[k];
    assert Occurs(pieces[k], piece, 0);
    LeastOccurrence(pieces, piece, k, 0);
    var (p, j) := NextOf(pieces, piece);
    assert p == 0 && j <= k && piece == pieces[j];
    Utf8.EncodeInjective(t.specials[j].0, t.specials[k].0);
    PiecesNotEmpty(t);
    TailEnds(pieces, piece, 0, j);
    FlatMapSplit(f, pieces, piece, 0, j);
    assert Encoded(t, piece) == [t.specials[j].1];
    SpecialDecodes(t, j);
  }

  /** A special piece with a non-ASCII character of the byte alphabet does not come back. */
  lemma SpecialIsLost(t: Tables, k: nat)
    requires Complete(t) && k < |t.specials| && !AllPlain(t.specials[k].0)
    ensures !RoundTrips(t, t.specials[k].0)
  {
    var piece := t.specials[k].0;
    PiecesNotEmpty(t);
    NoEmptyPieceEnds(t.Pieces(), Utf8.Encode(piece));
    SpecialAlone(t, k);
    PlainText(piece);
    if RoundTrips(t, piece) {
      Utf8.DecodeEncode(FlatMap(CharBytes, piece));
    }
  }

  /** Decoding undoes encoding on every text exactly when no special piece uses a non-ASCII character of the
      byte alphabet. */
  lemma RoundTripIff(t: Tables)
    requires Complete(t)
    ensures (forall text :: RoundTrips(t, text)) <==> PlainSpecials(t)
  {
    if PlainSpecials(t) {
      PiecesNotEmpty(t);
      forall text ensures RoundTrips(t, text) {
        NoEmptyPieceEnds(t.Pieces(), Utf8.Encode(text));
        BytesRoundTrip(t, Utf8.Encode(text));
        Utf8.EncodeDecode(text);
      }
    } else {
      var k :| 0 <= k < |t.specials| && !AllPlain(t.specials[k].0);
      SpecialIsLost(t, k);
    }
  }

  // ---- a tokenizer without the round trip, and one that does not end ----

  /** The byte alphabet as vocabulary, and the character of the space as a special piece under its own id. */
  function SpaceSpecial(): Tables {
    Tables(map c: char | CharByte(c).Some? :: [c] := CharByte(c).value as nat,
           seq(256, i requires 0 <= i < 256 => BytePiece(i as byte)), map[], None, None, [], [([GPT2_SPACE], 32)])
  }

  /** Its tables are complete, and its special piece is decoded to a space. */
  lemma SpaceSpecialIsLost()
    ensures Complete(SpaceSpecial()) && !RoundTrips(SpaceSpecial(), [GPT2_SPACE])
  {
    var t := SpaceSpecial();
    forall b: byte ensures BytePiece(b) in t.tokenToId {
      CharByteInvertsByteChar(b, ByteChar(b));
    }
    forall p | p in t.tokenToId ensures t.TokenOf(t.tokenToId[p]) == p {
      CharByteInvertsByteChar(CharByte(p[0]).value, p[0]);
    }
    assert ByteChar(32) == GPT2_SPACE;
    CharByteInvertsByteChar(32, GPT2_SPACE);
    assert Complete(t);
    assert GPT2_SPACE in t.specials[0].0 && !Plain(GPT2_SPACE);
    SpecialIsLost(t, 0);
  }

  function EmptySpecial(): Tables { SpaceSpecial().(specials := [("", 0)]) }

  lemma EmptySpecialDiverges(turns: nat)
    ensures var pieces := EmptySpecial().Pieces();
            !StopsAfter(pieces, Utf8.Encode("x"), turns) && !Ends(pieces, Utf8.Encode("x"))
  {
    assert EmptySpecial().Pieces() == [[]];
    assert Utf8.Encode("x") == Utf8.EncodeChar('x') + [] == [0x78];
    EmptyPieceDiverges([0x78], turns);
    forall n: nat ensures !StopsAfter([[]], [0x78], n) {
      EmptyPieceDiverges([0x78], n);
    }
    LoopEndsIff([[]], [0x78]);
  }
}
