/** The GGUF writer. */
module GgufWriter {
  import opened Bytes
  import opened GgufTypes
  import opened GgufReader
  import Utf8

  datatype MetaValue = U32(x: nat) | U64(x: nat) | F32(bits: nat) | Text(s: string)
  {
    predicate Valid() {
      match this
      case U32(x) => x <= U32_MAX
      case U64(x) => x <= U64_MAX
      case F32(bits) => bits <= U32_MAX
      case Text(s) => |Utf8.Encode(s)| <= U64_MAX
    }

    /** What a reader makes of the value. */
    function ToJson(): Json {
      match this
      case U32(x) => Int(x)
      case U64(x) => Int(x)
      case F32(bits) => Float32Json(bits)
      case Text(s) => Str(s)
    }
  }

  datatype Tensor = Tensor(name: string, shape: seq<nat>, code: nat, bytes: seq<byte>)

  type Meta = seq<(string, MetaValue)>

  // ---- the layout ----

  function Concat(chunks: seq<seq<byte>>): seq<byte> {
    if chunks == [] then [] else Concat(chunks[..|chunks| - 1]) + chunks[|chunks| - 1]
  }

  lemma ConcatAppend(chunks: seq<seq<byte>>, c: seq<byte>)
    ensures Concat(chunks + [c]) == Concat(chunks) + c
  {
    assert (chunks + [c])[..|chunks|] == chunks;
  }

  lemma ConcatStep(start: seq<byte>, chunks: seq<seq<byte>>, i: nat)
    requires i < |chunks|
    ensures start + Concat(chunks[..i + 1]) == start + Concat(chunks[..i]) + chunks[i]
  {
    assert chunks[..i + 1] == chunks[..i] + [chunks[i]];
    ConcatAppend(chunks[..i], chunks[i]);
  }

  function StringBytes(s: string): seq<byte> {
    Le(|Utf8.Encode(s)|, 8) + Utf8.Encode(s)
  }

  function TypeTag(v: MetaValue): nat {
    match v
    case U32(_) => 4
    case U64(_) => 10
    case F32(_) => 6
    case Text(_) => 8
  }

  function PayloadBytes(v: MetaValue): seq<byte> {
    match v
    case U32(x) => Le(x, 4)
    case U64(x) => Le(x, 8)
    case F32(bits) => Le(bits, 4)
    case Text(s) => StringBytes(s)
  }

  function EntryBytes(e: (string, MetaValue)): seq<byte> {
    StringBytes(e.0) + Le(TypeTag(e.1), 4) + PayloadBytes(e.1)
  }

  function DimBytes(d: nat): seq<byte> { Le(d, 8) }

  function DimChunks(shape: seq<nat>): seq<seq<byte>> {
    seq(|shape|, i requires 0 <= i < |shape| => DimBytes(shape[|shape| - 1 - i]))
  }

  function ShapeBytes(shape: seq<nat>): seq<byte> {
    Le(|shape|, 4) + Concat(DimChunks(shape))
  }

  function DirBytes(t: Tensor, offset: nat): seq<byte> {
    StringBytes(t.name) + ShapeBytes(t.shape) + Le(t.code, 4) + Le(offset, 8)
  }

  /** The writer's own rounding up to a multiple of 32. */
  function Align32(n: nat): (r: nat)
    ensures n <= r < n + 32 && r % 32 == 0
  {
    n + (32 - n % 32) % 32
  }

  lemma Align32IsAlignUp(n: nat)
    ensures Align32(n) == AlignUp(n, 32)
  {
  }

  function Padding(n: nat): (z: seq<byte>)
    ensures n + |z| == Align32(n)
  {
    Zeros((32 - n % 32) % 32)
  }

  function DataOf(tensors: seq<Tensor>): seq<byte> {
    if tensors == [] then []
    else
      var before := DataOf(tensors[..|tensors| - 1]);
      before + Padding(|before|) + tensors[|tensors| - 1].bytes
  }

  lemma DataStep(tensors: seq<Tensor>, i: nat)
    requires i < |tensors|
    ensures var before := DataOf(tensors[..i]);
            DataOf(tensors[..i + 1]) == before + Padding(|before|) + tensors[i].bytes
            && OffsetOf(tensors, i) == |before + Padding(|before|)|
  {
    assert tensors[..i + 1][..i] == tensors[..i];
  }

  function OffsetOf(tensors: seq<Tensor>, i: nat): nat
    requires i <= |tensors|
  {
    Align32(|DataOf(tensors[..i])|)
  }

  function DirChunks(tensors: seq<Tensor>): seq<seq<byte>> {
    seq(|tensors|, i requires 0 <= i < |tensors| => DirBytes(tensors[i], OffsetOf(tensors, i)))
  }

  function MetaChunks(meta: Meta): seq<seq<byte>> {
    seq(|meta|, i requires 0 <= i < |meta| => EntryBytes(meta[i]))
  }

  const VERSION: nat := 3

  function Preamble(tensorCount: nat, kvCount: nat): seq<byte> {
    MAGIC + Le(VERSION, 4) + Le(tensorCount, 8) + Le(kvCount, 8)
  }

  function Head(tensors: seq<Tensor>, meta: Meta): seq<byte> {
    Preamble(|tensors|, |meta|) + Concat(MetaChunks(meta)) + Concat(DirChunks(tensors))
  }

  function Written(tensors: seq<Tensor>, meta: Meta): seq<byte> {
    var head := Head(tensors, meta);
    head + Padding(|head|) + DataOf(tensors)
  }

  // ---- the code ----

  method WriteString(body: seq<byte>, s: string) returns (out: seq<byte>)
    ensures out == body + StringBytes(s)
  {
    out := body + Le(|Utf8.Encode(s)|, 8);
    out := out + Utf8.Encode(s);
  }

  method WriteEntry(start: seq<byte>, e: (string, MetaValue)) returns (body: seq<byte>)
    ensures body == start + EntryBytes(e)
  {
    body := WriteString(start, e.0);
    body := body + Le(TypeTag(e.1), 4);
    body := WritePayload(body, e.1);
  }

  method WritePayload(start: seq<byte>, v: MetaValue) returns (body: seq<byte>)
    ensures body == start + PayloadBytes(v)
  {
    match v {
      case U32(x) => body := start + Le(x, 4);
      case U64(x) => body := start + Le(x, 8);
      case F32(bits) => body := start + Le(bits, 4);
      case Text(s) => body := WriteString(start, s);
    }
  }

  method WriteMeta(start: seq<byte>, meta: Meta) returns (body: seq<byte>)
    ensures body == start + Concat(MetaChunks(meta))
  {
    body := start;
    ghost var chunks := MetaChunks(meta);
    for i := 0 to |meta|
      invariant body == start + Concat(chunks[..i])
    {
      ConcatStep(start, chunks, i);
      body := WriteEntry(body, meta[i]);
    }
    assert chunks[..|meta|] == chunks;
  }

  method WriteDir(start: seq<byte>, t: Tensor, offset: nat) returns (body: seq<byte>)
    ensures body == start + DirBytes(t, offset)
  {
    body := WriteString(start, t.name);
    body := WriteShape(body, t.shape);
    body := body + Le(t.code, 4);
    body := body + Le(offset, 8);
  }

  method WriteShape(start: seq<byte>, shape: seq<nat>) returns (body: seq<byte>)
    ensures body == start + ShapeBytes(shape)
  {
    body := start + Le(|shape|, 4);
    ghost var ranked, chunks := body, DimChunks(shape);
    for i := 0 to |shape|
      invariant body == ranked + Concat(chunks[..i])
    {
      ConcatStep(ranked, chunks, i);
      body := body + DimBytes(shape[|shape| - 1 - i]);
    }
    assert chunks[..|shape|] == chunks;
  }

  /** Directory entries and data side by side: each tensor is aligned within the data. */
  method WriteTensors(start: seq<byte>, tensors: seq<Tensor>) returns (body: seq<byte>, data: seq<byte>)
    ensures body == start + Concat(DirChunks(tensors)) && data == DataOf(tensors)
  {
    body, data := start, [];
    ghost var chunks := DirChunks(tensors);
    for i := 0 to |tensors|
      invariant body == start + Concat(chunks[..i]) && data == DataOf(tensors[..i])
    {
      ConcatStep(start, chunks, i);
      DataStep(tensors, i);
      data := data + Padding(|data|);
      body := WriteDir(body, tensors[i], |data|);
      data := data + tensors[i].bytes;
    }
    assert tensors[..|tensors|] == tensors && chunks[..|tensors|] == chunks;
  }

  method WriteGguf(tensors: seq<Tensor>, meta: Meta) returns (body: seq<byte>)
    ensures body == Written(tensors, meta)
  {
    body := WritePreamble(|tensors|, |meta|);
    body := WriteMeta(body, meta);
    var data;
    body, data := WriteTensors(body, tensors);
    body := body + Padding(|body|);
    body := body + data;
  }

  method WritePreamble(tensorCount: nat, kvCount: nat) returns (body: seq<byte>)
    ensures body == Preamble(tensorCount, kvCount)
  {
    body := MAGIC;
    body := body + Le(VERSION, 4);
    body := body + Le(tensorCount, 8);
    body := body + Le(kvCount, 8);
  }
}
