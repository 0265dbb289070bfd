/** The names of the operations, values and parameters of a decoder layer. */
module Names {

  // ---- decimal numbers ----

  function Digit(n: nat): char
    requires n < 10
  {
    '0' + n as char
  }

  function Decimal(n: nat): string {
    if n < 10 then [Digit(n)] else Decimal(n / 10) + [Digit(n % 10)]
  }

  function Number(s: string): int {
    if s == "" then 0 else 10 * Number(s[..|s| - 1]) + (s[|s| - 1] as int - '0' as int)
  }

  lemma {:induction false} DecimalRoundTrip(n: nat)
    ensures Number(Decimal(n)) == n
  {
    if n >= 10 {
      DecimalRoundTrip(n / 10);
      assert Decimal(n)[..|Decimal(n)| - 1] == Decimal(n / 10);
    } else {
      assert Decimal(n)[..0] == "";
    }
  }

  lemma {:induction false} DecimalHasNoDot(n: nat)
    ensures '.' !in Decimal(n)
  {
    if n >= 10 {
      DecimalHasNoDot(n / 10);
    }
  }

  /** Two names with a dot behind a part without dots agree part by part. */
  lemma {:induction false} SplitAtDot(a: string, x: string, b: string, y: string)
    requires '.' !in a && '.' !in b && a + "." + x == b + "." + y
    ensures a == b && x == y
  {
    if a == "" || b == "" {
      assert (a + "." + x)[0] == (b + "." + y)[0];
      assert a == "" && b == "";
      assert ("" + "." + x)[1..] == x && ("" + "." + y)[1..] == y;
    } else {
      assert (a + "." + x)[0] == a[0] && (b + "." + y)[0] == b[0];
      assert (a + "." + x)[1..] == a[1..] + "." + x && (b + "." + y)[1..] == b[1..] + "." + y;
      SplitAtDot(a[1..], x, b[1..], y);
      assert a == [a[0]] + a[1..] && b == [b[0]] + b[1..];
    }
  }

  // ---- stems ----

  /** The operations of a layer. */
  datatype Stem =
    | AttnNorm | AttnQ | AttnK | AttnV | AttnQNorm | AttnKNorm | AttnQRope | AttnKRope
    | KeyCacheWrite | ValueCacheWrite | KeyCacheRead | ValueCacheRead | Attended | AttnOutput | AttnResidual
    | FfnNorm | FfnGate | FfnUp | FfnSilu | FfnMultiply | FfnDown | FfnResidual
    | ShortConvIn | ShortConvMix | ShortConvOut | ShortConvResidual

  function Text(s: Stem): string {
    match s
    case AttnNorm => "attn_norm"
    case AttnQ => "attn_q"
    case AttnK => "attn_k"
    case AttnV => "attn_v"
    case AttnQNorm => "attn_q_norm"
    case AttnKNorm => "attn_k_norm"
    case AttnQRope => "attn_q_rope"
    case AttnKRope => "attn_k_rope"
    case KeyCacheWrite => "key_cache_write"
    case ValueCacheWrite => "value_cache_write"
    case KeyCacheRead => "key_cache_read"
    case ValueCacheRead => "value_cache_read"
    case Attended => "attention"
    case AttnOutput => "attn_output"
    case AttnResidual => "attn_residual"
    case FfnNorm => "ffn_norm"
    case FfnGate => "ffn_gate"
    case FfnUp => "ffn_up"
    case FfnSilu => "ffn_silu"
    case FfnMultiply => "ffn_multiply"
    case FfnDown => "ffn_down"
    case FfnResidual => "ffn_residual"
    case ShortConvIn => "shortconv_in"
    case ShortConvMix => "shortconv"
    case ShortConvOut => "shortconv_out"
    case ShortConvResidual => "shortconv_residual"
  }

  /** The order in which a layer adds its operations. */
  function Stage(s: Stem): nat {
    match s
    case AttnNorm => 0
    case AttnQ => 1
    case AttnK => 2
    case AttnV => 3
    case AttnQNorm => 4
    case AttnKNorm => 5
    case AttnQRope => 6
    case AttnKRope => 7
    case KeyCacheWrite => 8
    case ValueCacheWrite => 9
    case KeyCacheRead => 10
    case ValueCacheRead => 11
    case Attended => 12
    case AttnOutput => 13
    case AttnResidual => 14
    case ShortConvIn => 1
    case ShortConvMix => 2
    case ShortConvOut => 3
    case ShortConvResidual => 4
    case FfnNorm => 15
    case FfnGate => 16
    case FfnUp => 17
    case FfnSilu => 18
    case FfnMultiply => 19
    case FfnDown => 20
    case FfnResidual => 21
  }

  /** What the weight of an operation is called, without its ending. */
  function WeightText(s: Stem): string {
    match s
    case ShortConvIn => "shortconv.in_proj"
    case ShortConvMix => "shortconv.conv"
    case ShortConvOut => "shortconv.out_proj"
    case _ => Text(s)
  }

  lemma TextInjective(s: Stem, t: Stem)
    requires Text(s) == Text(t)
    ensures s == t
  {
  }

  predicate Renamed(s: Stem) { s.ShortConvIn? || s.ShortConvMix? || s.ShortConvOut? }

  lemma RenamedWeight(s: Stem, t: Stem)
    requires Renamed(s) && WeightText(s) == WeightText(t)
    ensures s == t
  {
  }

  lemma WeightTextInjective(s: Stem, t: Stem)
    requires WeightText(s) == WeightText(t)
    ensures s == t
  {
    if Renamed(s) {
      RenamedWeight(s, t);
    } else if Renamed(t) {
      RenamedWeight(t, s);
    } else {
      TextInjective(s, t);
    }
  }

  // ---- names in a layer ----

  function Prefix(layer: nat): string { "blk" + "." + Decimal(layer) }

  function OperationName(layer: nat, s: Stem): string { Prefix(layer) + "." + Text(s) }

  function OutputName(operation: string): string { operation + ".output" }

  function WeightName(layer: nat, s: Stem): string { Prefix(layer) + "." + WeightText(s) + ".weight" }

  lemma PrefixedNames(k: nat, x: string, l: nat, y: string)
    requires Prefix(k) + "." + x == Prefix(l) + "." + y
    ensures k == l && x == y
  {
    DecimalHasNoDot(k);
    DecimalHasNoDot(l);
    assert Prefix(k) + "." + x == "blk" + "." + (Decimal(k) + "." + x);
    assert Prefix(l) + "." + y == "blk" + "." + (Decimal(l) + "." + y);
    SplitAtDot("blk", Decimal(k) + "." + x, "blk", Decimal(l) + "." + y);
    SplitAtDot(Decimal(k), x, Decimal(l), y);
    DecimalRoundTrip(k);
    DecimalRoundTrip(l);
  }

  lemma SameEnding(a: string, b: string, ending: string)
    requires a + ending == b + ending
    ensures a == b
  {
    assert |a + ending| == |b + ending|;
    assert (a + ending)[..|a|] == a && (b + ending)[..|b|] == b;
  }

  /** Different operations have different names, outputs and weights. */
  lemma NamesDiffer(k: nat, s: Stem, l: nat, t: Stem)
    requires (k, s) != (l, t)
    ensures OperationName(k, s) != OperationName(l, t)
    ensures OutputName(OperationName(k, s)) != OutputName(OperationName(l, t))
    ensures WeightName(k, s) != WeightName(l, t)
  {
    if OutputName(OperationName(k, s)) == OutputName(OperationName(l, t)) {
      SameEnding(OperationName(k, s), OperationName(l, t), ".output");
    }
    if OperationName(k, s) == OperationName(l, t) {
      PrefixedNames(k, Text(s), l, Text(t));
      TextInjective(s, t);
    }
    if WeightName(k, s) == WeightName(l, t) {
      SameEnding(Prefix(k) + "." + WeightText(s), Prefix(l) + "." + WeightText(t), ".weight");
      PrefixedNames(k, WeightText(s), l, WeightText(t));
      WeightTextInjective(s, t);
    }
  }

  /** All names of layers start alike. */
  lemma LayerNamesStart(layer: nat, s: Stem)
    ensures OperationName(layer, s)[0] == OutputName(OperationName(layer, s))[0] == WeightName(layer, s)[0] == 'b'
  {
  }
}
