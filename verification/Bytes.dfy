/** Octets and fixed-width unsigned numbers. */
module Bytes {

  newtype byte = x: int | 0 <= x < 256

  const TWO32 := 0x1_0000_0000
  const TWO64 := 0x1_0000_0000_0000_0000
  const U32_MAX := TWO32 - 1
  const U64_MAX := TWO64 - 1

  function Zeros(n: nat): (z: seq<byte>)
    ensures |z| == n
  {
    seq(n, _ => 0 as byte)
  }

  function PowerOf256(i: nat): (p: nat)
    ensures p > 0
  {
    if i == 0 then 1 else 256 * PowerOf256(i - 1)
  }

  // ---- little-endian numbers ----

  /** The k low bytes of n, least significant first. */
  function Le(n: nat, k: nat): (b: seq<byte>)
    ensures |b| == k
  {
    if k == 0 then [] else [(n % 256) as byte] + Le(n / 256, k - 1)
  }

  function FromLe(b: seq<byte>): nat {
    if b == [] then 0 else b[0] as nat + 256 * FromLe(b[1..])
  }

  lemma {:induction false} FromLeBound(b: seq<byte>)
    ensures FromLe(b) < PowerOf256(|b|)
  {
    if b != [] {
      FromLeBound(b[1..]);
    }
  }

  lemma {:induction false} LeRoundTrip(n: nat, k: nat)
    requires n < PowerOf256(k)
    ensures FromLe(Le(n, k)) == n
  {
    if k > 0 {
      LeRoundTrip(n / 256, k - 1);
    }
  }

  lemma PowersOf256()
    ensures PowerOf256(1) == 256 && PowerOf256(2) == 0x1_0000
    ensures PowerOf256(4) == TWO32 && PowerOf256(8) == TWO64
  {
    assert PowerOf256(3) == 256 * PowerOf256(2);
    assert PowerOf256(5) == 256 * PowerOf256(4);
    assert PowerOf256(7) == 256 * PowerOf256(6);
  }
}
