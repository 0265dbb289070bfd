/** Rounding, clamping and extremes over the reals, and chunks of a sequence. */
module Rounding {

  function Abs(x: real): real { if x >= 0.0 then x else -x }

  /** To the nearest integer, halves away from zero. */
  function Round(x: real): int {
    if x >= 0.0 then (x + 0.5).Floor else -((0.5 - x).Floor)
  }

  lemma RoundIsNear(x: real)
    ensures Abs(Round(x) as real - x) <= 0.5
  {
  }

  lemma RoundStays(x: real, lo: int, hi: int)
    requires lo as real <= x <= hi as real
    ensures lo <= Round(x) <= hi
  {
    RoundIsNear(x);
  }

  function Clamp(n: int, lo: int, hi: int): int
    requires lo <= hi
  {
    if n < lo then lo else if n > hi then hi else n
  }

  // ---- extremes ----

  function MaxAbs(block: seq<real>): (m: real)
    ensures m >= 0.0
  {
    if block == [] then 0.0
    else
      var before, last := MaxAbs(block[..|block| - 1]), Abs(block[|block| - 1]);
      if last > before then last else before
  }

  lemma {:induction false} MaxAbsBounds(block: seq<real>)
    ensures forall x :: x in block ==> Abs(x) <= MaxAbs(block)
  {
    if block != [] {
      MaxAbsBounds(block[..|block| - 1]);
      assert block == block[..|block| - 1] + [block[|block| - 1]];
    }
  }

  function Least(block: seq<real>): real
    requires block != []
  {
    if |block| == 1 then block[0]
    else
      var before, last := Least(block[..|block| - 1]), block[|block| - 1];
      if last < before then last else before
  }

  function Greatest(block: seq<real>): real
    requires block != []
  {
    if |block| == 1 then block[0]
    else
      var before, last := Greatest(block[..|block| - 1]), block[|block| - 1];
      if last > before then last else before
  }

  lemma {:induction false} ExtremesBound(block: seq<real>)
    requires block != []
    ensures forall x :: x in block ==> Least(block) <= x <= Greatest(block)
  {
    if |block| > 1 {
      ExtremesBound(block[..|block| - 1]);
      assert block == block[..|block| - 1] + [block[|block| - 1]];
    }
  }

  method FindExtremes(block: seq<real>) returns (least: real, greatest: real)
    requires block != []
    ensures least == Least(block) && greatest == Greatest(block)
  {
    least, greatest := block[0], block[0];
    for i := 1 to |block|
      invariant least == Least(block[..i]) && greatest == Greatest(block[..i])
    {
      assert block[..i + 1][..i] == block[..i];
      least := if block[i] < least then block[i] else least;
      greatest := if block[i] > greatest then block[i] else greatest;
    }
    assert block[..|block|] == block;
  }

  method FindMaxAbs(block: seq<real>) returns (amax: real)
    ensures amax == MaxAbs(block)
  {
    amax := 0.0;
    for i := 0 to |block|
      invariant amax == MaxAbs(block[..i])
    {
      assert block[..i + 1][..i] == block[..i];
      amax := if Abs(block[i]) > amax then Abs(block[i]) else amax;
    }
    assert block[..|block|] == block;
  }

  // ---- chunks ----

  /** Consecutive chunks of n elements; a shorter rest is dropped. */
  function Chunks<T>(s: seq<T>, n: nat): (c: seq<seq<T>>)
    requires n > 0
    ensures forall i :: 0 <= i < |c| ==> |c[i]| == n
  {
    if |s| < n then [] else [s[..n]] + Chunks(s[n..], n)
  }

  /** As many whole chunks as there are. */
  lemma {:induction false} ChunkCount<T>(s: seq<T>, n: nat, count: nat)
    requires n > 0 && |s| == SizeOfChunks(count, n)
    ensures |Chunks(s, n)| == count
  {
    if count > 0 {
      ChunkCount(s[n..], n, count - 1);
    }
  }

  function SizeOfChunks(count: nat, n: nat): nat {
    if count == 0 then 0 else SizeOfChunks(count - 1, n) + n
  }

  lemma {:induction false} SizeIsProduct(count: nat, n: nat)
    ensures SizeOfChunks(count, n) == count * n
  {
    if count > 0 {
      SizeIsProduct(count - 1, n);
      assert count * n == (count - 1) * n + n;
    }
  }

  /** Chunk j stands behind the j chunks before it. */
  lemma {:induction false} ChunkAt<T>(s: seq<T>, n: nat, j: nat)
    requires n > 0 && j < |Chunks(s, n)|
    ensures SizeOfChunks(j, n) + n <= |s|
    ensures Chunks(s, n)[j] == s[SizeOfChunks(j, n)..SizeOfChunks(j, n) + n]
  {
    if j > 0 {
      ChunkAt(s[n..], n, j - 1);
    }
  }

  lemma {:induction false} ChunksAppend<T>(s: seq<T>, n: nat, count: nat, chunk: seq<T>)
    requires n > 0 && |s| == SizeOfChunks(count, n) && |chunk| == n
    ensures Chunks(s + chunk, n) == Chunks(s, n) + [chunk] && |s + chunk| == SizeOfChunks(count + 1, n)
  {
    if count == 0 {
      assert s + chunk == chunk && chunk[..n] == chunk;
    } else {
      ChunksAppend(s[n..], n, count - 1, chunk);
      assert (s + chunk)[n..] == s[n..] + chunk && (s + chunk)[..n] == s[..n];
    }
  }

  // ---- scaling ----

  /** What every packer multiplies by. */
  function Inverse(scale: real): real {
    if scale > 0.0 then 1.0 / scale else 0.0
  }

  /** A value between two multiples of the scale is between the multipliers once divided. */
  lemma Scaled(x: real, s: real, lo: real, hi: real)
    requires s > 0.0 && lo * s <= x <= hi * s
    ensures lo <= x * Inverse(s) <= hi && x * Inverse(s) * s == x
  {
    var y := x * Inverse(s);
    Cancel(x, Inverse(s), s);
    if y < lo {
      Positive(lo - y, s);
    }
    if y > hi {
      Positive(y - hi, s);
    }
  }

  lemma Cancel(x: real, v: real, s: real)
    requires v * s == 1.0
    ensures x * v * s == x
  {
    assert x * v * s == x * (v * s);
  }

  lemma Positive(a: real, b: real)
    requires a > 0.0 && b > 0.0
    ensures a * b > 0.0
  {
  }

  lemma ProductBound(a: real, b: real, k: real)
    requires Abs(a) <= k
    ensures Abs(a * b) <= k * Abs(b)
  {
    var c := Abs(b);
    NotNegative(k - a, c);
    NotNegative(k + a, c);
    Distribute(k, a, c);
    SignOut(a, b);
  }

  lemma NotNegative(a: real, b: real)
    requires a >= 0.0 && b >= 0.0
    ensures a * b >= 0.0
  {
  }

  lemma Distribute(k: real, a: real, c: real)
    ensures (k - a) * c == k * c - a * c && (k + a) * c == k * c + a * c
  {
  }

  lemma SignOut(a: real, b: real)
    ensures a * b == a * Abs(b) || a * b == -(a * Abs(b))
  {
    if b < 0.0 {
      assert a * -b == -(a * b);
    }
  }

  lemma ScaledAround(x: real, s: real, k: real)
    requires k >= 0.0 && s >= 0.0 && Abs(x) <= k * s
    ensures var y := x * Inverse(s); -k <= y <= k && y * s == x
  {
    if s > 0.0 {
      assert -k * s == -(k * s);
      Scaled(x, s, -k, k);
    } else {
      assert k * s == 0.0;
    }
  }

  /** A value between two multiples of the scale rounds to a step between the multipliers. */
  lemma RoundBetween(x: real, s: real, lo: int, hi: int)
    requires lo <= 0 <= hi && s >= 0.0 && lo as real * s <= x <= hi as real * s
    ensures lo <= Round(x * Inverse(s)) <= hi
  {
    if s > 0.0 {
      Scaled(x, s, lo as real, hi as real);
    }
    RoundStays(x * Inverse(s), lo, hi);
  }

  /** q steps of length t. */
  function Steps(q: int, t: real): real { q as real * t }

  /** Half a step of s, and k times the distance of the scales. */
  function Spread(s: real, t: real, k: int): real { s / 2.0 + k as real * Abs(t - s) }

  predicate Near(y: real, x: real, e: real) { Abs(y - x) <= e }

  lemma NearShifted(y: real, x: real, m: real, n: real, e: real)
    requires Near(y, x - m, e)
    ensures Near(y + n, x, e + Abs(n - m))
  {
  }

  /** Rounding to a multiple of the scale s, then reading with another scale t. */
  lemma QuantizationError(x: real, s: real, t: real, k: int)
    requires k >= 0 && s >= 0.0 && Abs(x) <= k as real * s
    ensures var q := Round(x * Inverse(s));
            -k <= q <= k && Near(Steps(q, t), x, Spread(s, t, k))
  {
    ScaledAround(x, s, k as real);
    RoundedError(x, x * Inverse(s), s, t, k);
  }

  lemma RoundedError(x: real, y: real, s: real, t: real, k: int)
    requires k >= 0 && s >= 0.0 && y * s == x && -(k as real) <= y <= k as real
    ensures -k <= Round(y) <= k && Near(Steps(Round(y), t), x, Spread(s, t, k))
  {
    RoundStays(y, -k, k);
    RoundIsNear(y);
    StepsError(x, y, Round(y), s, t, k);
  }

  lemma StepsError(x: real, y: real, q: int, s: real, t: real, k: int)
    requires k >= 0 && s >= 0.0 && y * s == x && Abs(q as real - y) <= 0.5 && -k <= q <= k
    ensures Near(Steps(q, t), x, Spread(s, t, k))
  {
    ErrorsAdd(y, q as real, s, t, k as real);
  }

  lemma ErrorsAdd(y: real, q: real, s: real, t: real, k: real)
    requires s >= 0.0 && Abs(q - y) <= 0.5 && Abs(q) <= k
    ensures Abs(q * t - y * s) <= s / 2.0 + k * Abs(t - s)
  {
    StepError(y, q, s);
    ScaleError(q, s, t, k);
    Triangle(q * t, q * s, y * s, k * Abs(t - s), s / 2.0);
  }

  /** The error of rounding to a step. */
  lemma StepError(y: real, q: real, s: real)
    requires s >= 0.0 && Abs(q - y) <= 0.5
    ensures Abs(q * s - y * s) <= s / 2.0
  {
    ProductBound(q - y, s, 0.5);
    Distribute(q, y, s);
  }

  /** The error of reading with another scale. */
  lemma ScaleError(q: real, s: real, t: real, k: real)
    requires Abs(q) <= k
    ensures Abs(q * t - q * s) <= k * Abs(t - s)
  {
    ProductBound(q, t - s, k);
    Distribute(t, s, q);
  }

  lemma Triangle(a: real, b: real, c: real, first: real, second: real)
    requires Abs(a - b) <= first && Abs(b - c) <= second
    ensures Abs(a - c) <= second + first
  {
  }
}
