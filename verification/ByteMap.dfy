/** The GPT-2 byte alphabet: every byte as a printable character. */
module ByteMap {
  import opened Bytes
  import opened Wrappers

  predicate IsPrintable(b: int) {
    0x21 <= b <= 0x7E || 0xA1 <= b <= 0xAC || 0xAE <= b <= 0xFF
  }

  /** How many of the bytes below b are not printable. */
  function RankBelow(b: nat): nat
    requires b <= 256
  {
    if b <= 0x21 then b else if b <= 0x7F then 0x21 else if b <= 0xA1 then b - 0x5E else if b <= 0xAD then 0x43 else 0x44
  }

  function ByteChar(b: byte): char {
    if IsPrintable(b as int) then b as char else (256 + RankBelow(b as nat)) as char
  }

  function CharByte(c: char): Option<byte> {
    var n := c as int;
    if IsPrintable(n) then Some(n as byte)
    else if 256 <= n < 256 + 0x21 then Some((n - 256) as byte)
    else if 256 + 0x21 <= n < 256 + 0x43 then Some((n - 256 + 0x5E) as byte)
    else if n == 256 + 0x43 then Some(0xAD)
    else None
  }

  /** A bijection between the bytes and the characters that have one. */
  lemma CharByteInvertsByteChar(b: byte, c: char)
    ensures CharByte(c) == Some(b) <==> ByteChar(b) == c
  {
  }

  /** ASCII that is not a printable byte character has no byte of its own. */
  lemma AsciiCharByte(c: char)
    requires c as int < 0x80
    ensures CharByte(c) == if IsPrintable(c as int) then Some(c as int as byte) else None
  {
  }

  method Gpt2BytesToUnicode() returns (enc: map<byte, char>, dec: map<char, byte>)
    ensures forall b: byte :: b in enc && enc[b] == ByteChar(b)
    ensures forall c: char :: c in dec <==> CharByte(c).Some?
    ensures forall c: char :: c in dec ==> CharByte(c) == Some(dec[c])
  {
    var bs, cs := AlphabetColumns();
    enc, dec := map[], map[];
    for i := 0 to |bs|
      invariant forall j :: 0 <= j < i ==> bs[j] in enc && ByteChar(bs[j]) in dec
      invariant forall b :: b in enc ==> enc[b] == ByteChar(b)
      invariant forall c :: c in dec ==> CharByte(c) == Some(dec[c])
    {
      CharByteInvertsByteChar(bs[i], cs[i] as char);
      enc := enc[bs[i] := cs[i] as char];
      dec := dec[cs[i] as char := bs[i]];
    }
    forall b: byte ensures b in enc && ByteChar(b) in dec {
      assert b in bs;
    }
    forall c: char | CharByte(c).Some? ensures c in dec {
      CharByteInvertsByteChar(CharByte(c).value, c);
    }
  }

  /** The printable bytes first, then the others, numbered from 256. */
  method AlphabetColumns() returns (bs: seq<byte>, cs: seq<nat>)
    ensures |bs| == |cs|
    ensures forall b: byte :: b in bs
    ensures forall j :: 0 <= j < |bs| ==> cs[j] == ByteChar(bs[j]) as nat
  {
    bs, cs := PrintableColumn();
    assert forall j :: 0 <= j < |bs| ==> bs[j] in bs;
    var n := 0;
    for b: int := 0 to 256
      invariant |bs| == |cs| && n == RankBelow(b)
      invariant forall x: byte :: x in bs <==> IsPrintable(x as int) || x as int < b
      invariant forall j :: 0 <= j < |bs| ==> cs[j] == ByteChar(bs[j]) as nat
    {
      if b as byte !in bs {
        bs := bs + [b as byte];
        cs := cs + [256 + n];
        n := n + 1;
      }
    }
  }

  method PrintableColumn() returns (bs: seq<byte>, cs: seq<nat>)
    ensures |bs| == |cs|
    ensures forall x: byte :: x in bs <==> IsPrintable(x as int)
    ensures forall j :: 0 <= j < |bs| ==> cs[j] == bs[j] as nat
  {
    bs, cs := [], [];
    for b: int := 0x21 to 0x7F
      invariant |bs| == |cs| && forall x: byte :: x in bs <==> 0x21 <= x as int < b
      invariant forall j :: 0 <= j < |bs| ==> cs[j] == bs[j] as nat
    {
      bs, cs := bs + [b as byte], cs + [b];
    }
    for b: int := 0xA1 to 0xAD
      invariant |bs| == |cs| && forall x: byte :: x in bs <==> 0x21 <= x as int <= 0x7E || 0xA1 <= x as int < b
      invariant forall j :: 0 <= j < |bs| ==> cs[j] == bs[j] as nat
    {
      bs, cs := bs + [b as byte], cs + [b];
    }
    for b: int := 0xAE to 0x100
      invariant |bs| == |cs|
      invariant forall x: byte :: x in bs <==> 0x21 <= x as int <= 0x7E || 0xA1 <= x as int <= 0xAC || 0xAE <= x as int < b
      invariant forall j :: 0 <= j < |bs| ==> cs[j] == bs[j] as nat
    {
      bs, cs := bs + [b as byte], cs + [b];
    }
  }
}
