/** UTF-8: the byte form of strings, and its strict inverse. */
module Utf8 {
  import opened Bytes
  import opened Wrappers
  import opened Sequences

  function EncodeChar(c: char): (b: seq<byte>)
    ensures 1 <= |b| <= 4
  {
    var n := c as int;
    var n6 := n / 64;
    var n12 := n6 / 64;
    var n18 := n12 / 64;
    if n < 0x80 then [n as byte]
    else if n < 0x800 then [(0xC0 + n6) as byte, Tail(n)]
    else if n < 0x10000 then [(0xE0 + n12) as byte, Tail(n6), Tail(n)]
    else [(0xF0 + n18) as byte, Tail(n12), Tail(n6), Tail(n)]
  }

  function Tail(n: nat): byte { (0x80 + n % 64) as byte }

  function Encode(s: string): seq<byte> { FlatMap(EncodeChar, s) }

  /** Bytes of a character by its first byte; 0 for a byte that starts none. */
  function CharLength(lead: byte): nat {
    if lead < 0x80 then 1 else if lead < 0xC0 then 0 else if lead < 0xE0 then 2
    else if lead < 0xF0 then 3 else if lead < 0xF8 then 4 else 0
  }

  function Payload(b: seq<byte>): nat
    requires 1 <= |b| <= 4
  {
    if |b| == 1 then b[0] as nat
    else if |b| == 2 then b[0] as nat % 32 * 64 + b[1] as nat % 64
    else if |b| == 3 then (b[0] as nat % 16 * 64 + b[1] as nat % 64) * 64 + b[2] as nat % 64
    else ((b[0] as nat % 8 * 64 + b[1] as nat % 64) * 64 + b[2] as nat % 64) * 64 + b[3] as nat % 64
  }

  predicate IsScalar(n: nat) { n < 0xD800 || 0xE000 <= n < 0x110000 }

  /** The first character, if the bytes start with the byte form of one. */
  function FirstChar(b: seq<byte>): (r: Option<char>)
    ensures r.Some? ==> EncodeChar(r.value) <= b
  {
    if b == [] then None
    else
      var k := CharLength(b[0]);
      if k == 0 || |b| < k || !IsScalar(Payload(b[..k])) then None
      else
        var c := Payload(b[..k]) as char;
        if EncodeChar(c) == b[..k] then Some(c) else None
  }

  function Decode(b: seq<byte>): Option<string>
    decreases |b|
  {
    if b == [] then Some("")
    else
      match FirstChar(b)
      case None => None
      case Some(c) =>
        match Decode(b[|EncodeChar(c)|..])
        case None => None
        case Some(s) => Some([c] + s)
  }

  lemma TailPayload(n: nat)
    ensures Tail(n) as nat % 64 == n % 64
  {
    assert Tail(n) as nat == 64 * 2 + n % 64;
  }

  lemma LeadPayload(n: nat)
    ensures n < 32 ==> (0xC0 + n) % 32 == n
    ensures n < 16 ==> (0xE0 + n) % 16 == n
    ensures n < 8 ==> (0xF0 + n) % 8 == n
  {
  }

  lemma PayloadOfChar(c: char)
    ensures CharLength(EncodeChar(c)[0]) == |EncodeChar(c)|
    ensures Payload(EncodeChar(c)) == c as int
  {
    var n := c as int;
    var n6 := n / 64;
    var n12 := n6 / 64;
    var n18 := n12 / 64;
    TailPayload(n);
    TailPayload(n6);
    TailPayload(n12);
    if n < 0x80 {
    } else if n < 0x800 {
      LeadPayload(n6);
    } else if n < 0x10000 {
      LeadPayload(n12);
    } else {
      LeadPayload(n18);
    }
  }

  lemma FirstCharOfEncoded(c: char, rest: seq<byte>)
    ensures FirstChar(EncodeChar(c) + rest) == Some(c)
  {
    PayloadOfChar(c);
    assert (EncodeChar(c) + rest)[..|EncodeChar(c)|] == EncodeChar(c);
  }

  lemma {:induction false} EncodeDecode(s: string)
    ensures Decode(Encode(s)) == Some(s)
  {
    if s != "" {
      FirstCharOfEncoded(s[0], Encode(s[1..]));
      EncodeDecode(s[1..]);
      assert Encode(s)[|EncodeChar(s[0])|..] == Encode(s[1..]);
      assert s == [s[0]] + s[1..];
    }
  }

  lemma {:induction false} DecodeEncode(b: seq<byte>)
    requires Decode(b).Some?
    ensures Encode(Decode(b).value) == b
    decreases |b|
  {
    if b != [] {
      var c := FirstChar(b).value;
      var rest := b[|EncodeChar(c)|..];
      DecodeEncode(rest);
      FlatMapCons(EncodeChar, c, Decode(rest).value);
      Rejoin(EncodeChar(c), b);
    }
  }

  lemma Rejoin(start: seq<byte>, b: seq<byte>)
    requires start <= b
    ensures b == start + b[|start|..]
  {
  }

  /** No two strings have the same bytes. */
  lemma EncodeInjective(s: string, t: string)
    requires Encode(s) == Encode(t)
    ensures s == t
  {
    EncodeDecode(s);
    EncodeDecode(t);
  }
}
