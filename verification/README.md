# Dyninfer, modelled and proved in Dafny

Dyninfer compiles language models from checkpoint files and runs them. This project models the parts of it that decide
whether an answer is right, and proves what they promise.

- **Checkpoint identity.** The runner hashes checkpoints with its own streaming SHA-256 (`Sha256.dfy`), shown equal to
  FIPS 180-4 for every way of cutting the file. The schema fingerprint forgets where tensors are stored and keeps which
  of them share storage (`Fingerprint`, `FingerprintSharing`, `FingerprintAmbiguity`).
- **Checkpoint files.** GGUF writer and reader (`GgufTypes`, `GgufWriter`, `GgufReader`, `GgufCursor`,
  `GgufRoundTrip`, `GgufAlignment`, `GgufSafety`), the overlap check of SafeTensors (`SafeTensors.dfy`), and block quantization against its
  independent reference (`Rounding`, `Lanes`, `GgufBlocks`, `AffineU4`).
- **Text.** The byte-level BPE tokenizer: byte alphabet, merge loop, special pieces, encoder and decoder (`Utf8`,
  `ByteMap`, `BpeMerge`, `Splitter`, `Tokenizer`, `TokenizerFile`).
- **Inference.** A session over a device with a KV cache, chunked and padded prefill, single-token decode, and greedy
  generation (`Executor`, `Session`, `Maximum`, `Generate`).
- **Compilation.** The graph builder and verifier with the Llama model (`Graph`, `Names`, `Builder`, `Llama`), kernel
  selection, coverage and lowering validation (`KernelRegistry`, `Coverage`, `Lowering`), and the chain from binding to
  loading (`Binding`, `Provider`, `BindToLoad`, `Manifest`, `BindExamples`).
- **Artifacts.** The cache publication protocol as a state machine (`CacheProtocol.dfy`), and the logit trace protocol
  with two producers and one reader (`LogitTrace`, `TraceIo`, `TraceRunner`).

Where the code does something other than what it promises, the model follows the code. A lemma says exactly when the
promise holds, and an example shows that it can fail:

| promise | holds exactly when | example |
|---|---|---|
| decoding undoes encoding | `Tokenizer.RoundTripIff` | `Tokenizer.SpaceSpecialIsLost` |
| encoding ends | `Splitter.EndsIff` | `Tokenizer.EmptySpecialDiverges` |
| a written GGUF file is read in place | `GgufAlignment.InPlaceIff` | `GgufAlignment.LargeAlignmentIsRefused`, `GgufAlignment.SmallAlignmentMisreads` |
| chunked prefill is prefill | `Executor.RightIffChunksFit` | `Executor.MisfitGoesWrong` |
| equal fingerprint entries mean equal sharing | `FingerprintAmbiguity.SharingDeterminedIff` | `FingerprintAmbiguity.ClashExists` |
| an overlap error means a shared byte | `SafeTensors.OverlapIff` | `SafeTensors.EmptyTensorRefused` |
| complete coverage leads to valid lowerings | `Lowering.CoverageImpliesLowering` | `Lowering.SensitiveTypeMatters` |
| what is bound can be planned | `BindToLoad.PlanAcceptsIff` | `BindExamples.AliasIsBoundThenRefused` |
| the manifest is what the loader recomputes | `Manifest.MapsAgreeIff` | `BindExamples.ScopeDecides` |

Conventions: a method with loops is proved against a function, and the lemmas are about the function. Predicates such
as `LookAt` or `LookInto` that are always true only mark the terms a quantified definition is looked into at.

`dafny verify dfyconfig.toml` checks everything.

## Model

| member | source | states |
|---|---|---|
| StreamingSha256.HashPieces | tools/llama-logits/main.cc:144-161 | a file hashed in pieces of any sizes has the digest of FIPS 180-4 of the whole message; below 2^64 bits the length field is the length, past that it wraps |
| StreamingSha256.Sha256.constructor | tools/llama-logits/main.cc:33-38 | an empty message: no block hashed, nothing in the buffer, a zero counter |
| StreamingSha256.Sha256.Update | tools/llama-logits/main.cc:40-53 | the bytes are added behind the message hashed so far: whole blocks are compressed, the rest stays in the buffer with fewer than 64 bytes, the counter is the bit length modulo 2^64 |
| StreamingSha256.Sha256.Absorb | tools/llama-logits/main.cc:42-52 | one turn of the loop: hashed blocks and buffer together grow by exactly the piece, and a full buffer is emptied |
| StreamingSha256.Sha256.CountBits | tools/llama-logits/main.cc:41 | the 64-bit counter stays eight times the number of bytes modulo 2^64, although the product wraps on its own |
| StreamingSha256.Sha256.FillBlock | tools/llama-logits/main.cc:43-47 | the copy into the buffer keeps what is there, and every index stays inside the 64 bytes |
| StreamingSha256.Sha256.Transform | tools/llama-logits/main.cc:79-136 | the state becomes the hash of the blocks so far and the buffered block; the buffer is unchanged |
| StreamingSha256.Sha256.Final | tools/llama-logits/main.cc:55-72 | the digest, printed as eight words, of the message padded as in 5.1.1 of FIPS 180-4 |
| StreamingSha256.Sha256.CloseMessage | tools/llama-logits/main.cc:56-66 | what was compressed is the whole padded message, with one block of padding or two |
| StreamingSha256.Sha256.MarkEnd | tools/llama-logits/main.cc:56-61 | the end mark, and an extra block exactly when the length field no longer fits |
| StreamingSha256.Sha256.PutLength | tools/llama-logits/main.cc:63-65 | the counter most significant byte first in the last eight bytes |
| StreamingSha256.Print | tools/llama-logits/main.cc:67-71 | every word prints as exactly eight hexadecimal digits |
| StreamingSha256.FilledIsFixed | tools/llama-logits/main.cc:68-70 | filling a number with zeros to a width is its fixed-width form, for every number that fits the width |
| StreamingSha256.CompressBlock | tools/llama-logits/main.cc:94-135 | the rounds over eight working variables are the compression of 6.2.2 of FIPS 180-4 |
| StreamingSha256.ExpandBlock | tools/llama-logits/main.cc:94-107 | the 64 words are the message schedule of 6.2.2 |
| StreamingSha256.SigmaForms | tools/llama-logits/main.cc:75-77 | rotation by two shifts, as the runner writes it, is rotation, in all four sums of 4.1.2 |
| StreamingSha256.ZerosOfPadding | tools/llama-logits/main.cc:57-62 | the zeros the two branches write are the zeros the standard asks for, from the fill of the open block alone |
| Fips180.ZeroBits | tools/llama-logits/main.cc:55-62 | the number of zero bits of 5.1.1: the least that fills the block up to the length field |
| ByteMap.CharByteInvertsByteChar | crates/dyninfer-runtime/src/tokenizer_bpe.rs:81-105 | the byte alphabet is a bijection between the 256 bytes and its characters |
| ByteMap.Gpt2BytesToUnicode | crates/dyninfer-runtime/src/tokenizer_bpe.rs:81-105 | the two tables that the loops fill are that bijection and its inverse, and hold nothing else |
| ByteMap.AlphabetColumns | crates/dyninfer-runtime/src/tokenizer_bpe.rs:84-95 | printable bytes keep their code, the others are numbered from 256 in their order |
| BpeMerge.Merge | crates/dyninfer-runtime/src/tokenizer_bpe.rs:377-400 | the merge loop computes the rewriting that always merges the leftmost pair of lowest rank; it keeps the text, ends with no mergeable pair, and makes at most one merge per piece but the first |
| BpeMerge.FindBest | crates/dyninfer-runtime/src/tokenizer_bpe.rs:382-394 | the pair of one pass has the lowest rank and is the leftmost of that rank; none is found only when no pair can be merged |
| BpeMerge.RewriteKeepsText | crates/dyninfer-runtime/src/tokenizer_bpe.rs:377-400 | rewriting never changes the concatenation of the pieces |
| BpeMerge.RewritePieces | crates/dyninfer-runtime/src/tokenizer_bpe.rs:395-397 | every piece of the result is an initial piece or the result of a merge entry |
| Splitter.FindNext | crates/dyninfer-runtime/src/tokenizer_bpe.rs:412-423 | the special piece taken is the one that occurs earliest, and of those at one place the first in the order tried; none is reported only when none occurs |
| Splitter.Find | crates/dyninfer-runtime/src/tokenizer_bpe.rs:414 | the least position at which a piece occurs |
| Splitter.NextIsLongest | crates/dyninfer-runtime/src/tokenizer_bpe.rs:191-192 | with the pieces in order of falling length the piece taken is the longest at its place |
| Splitter.SplitJoins | crates/dyninfer-runtime/src/tokenizer_bpe.rs:410-429 | special pieces and ordinary spans together are the text |
| Splitter.SplitClean | crates/dyninfer-runtime/src/tokenizer_bpe.rs:410-429 | no special piece occurs inside an ordinary span, and no span is empty |
| Splitter.LeastOccurrence | crates/dyninfer-runtime/src/tokenizer_bpe.rs:413-419 | if any special piece occurs anywhere there is a next one |
| Splitter.ProgressIff | crates/dyninfer-runtime/src/tokenizer_bpe.rs:410-429 | a turn of the loop shortens the rest exactly when no piece is empty or another piece stands at the front |
| Splitter.LoopEndsIff | crates/dyninfer-runtime/src/tokenizer_bpe.rs:410-429 | the loop stops after some number of turns exactly when every turn leaves less |
| Splitter.EndsIff | crates/dyninfer-runtime/src/tokenizer_bpe.rs:410-429 | with the pieces in order of falling length the loop ends on a text exactly when no piece is empty, or taking the longest piece off the front again and again leaves nothing |
| Splitter.EmptyPieceDiverges | crates/dyninfer-runtime/src/tokenizer_bpe.rs:410-429 | with the empty piece alone the loop never stops on a text that is not empty |
| Tokenizer.Encode | crates/dyninfer-runtime/src/tokenizer_bpe.rs:402-431 | for every text on which the loop ends at all: the ids of the segments in order, after the beginning-of-sequence id when it is asked for and known |
| Tokenizer.EncodeText | crates/dyninfer-runtime/src/tokenizer_bpe.rs:410-430 | the loop gives the ids of the split: pieces of ordinary spans, single ids of special ones |
| Tokenizer.EncodeOrdinary | crates/dyninfer-runtime/src/tokenizer_bpe.rs:433-453 | the ids of the merged byte pieces; an unknown piece becomes the unknown id or 0 |
| Tokenizer.Decode | crates/dyninfer-runtime/src/tokenizer_bpe.rs:503-539 | the text whose bytes the tokens stand for, skipping special tokens on request |
| Tokenizer.BytesRoundTrip | crates/dyninfer-runtime/src/tokenizer_bpe.rs:402-453 | decoding the encoding of any bytes gives them back, for complete tables whose special pieces use no non-ASCII character of the byte alphabet |
| Tokenizer.RoundTripIff | crates/dyninfer-runtime/src/tokenizer_bpe.rs:503-539 | decoding undoes encoding on every text exactly when no special piece uses a non-ASCII character of the byte alphabet |
| Tokenizer.SpecialIsLost | crates/dyninfer-runtime/src/tokenizer_bpe.rs:503-539 | a special piece with such a character does not come back from its own encoding |
| Tokenizer.SpaceSpecialIsLost | crates/dyninfer-runtime/src/tokenizer_bpe.rs:503-539 | complete tables with such a piece |
| Tokenizer.EmptySpecialDiverges | crates/dyninfer-runtime/src/tokenizer_bpe.rs:410-429 | tables on which encoding a letter never ends |
| TokenizerFile.FromFile | crates/dyninfer-runtime/src/tokenizer_bpe.rs:156-266 | a file without vocabulary is refused; otherwise in all three tables the last entry wins: of a token, of an id, of a merge |
| TokenizerFile.BuildIds | crates/dyninfer-runtime/src/tokenizer_bpe.rs:170-186 | each token has the id of the last pair that lists it and each id the token of the last pair that lists it, added tokens after the vocabulary; no other token has an id, and no other id a token |
| TokenizerFile.BuildMerges | crates/dyninfer-runtime/src/tokenizer_bpe.rs:194-207 | a pair has the rank of the last entry that lists it, modulo 2^32, and no other pair has a rank |
| TokenizerFile.LastTokenWins | crates/dyninfer-runtime/src/tokenizer_bpe.rs:170-186 | a token has the id of the last pair that lists it |
| TokenizerFile.LastIdWins | crates/dyninfer-runtime/src/tokenizer_bpe.rs:170-186 | an id inside the table has the token of the last pair that lists it |
| TokenizerFile.LastMergeWins | crates/dyninfer-runtime/src/tokenizer_bpe.rs:194-207 | a pair has the rank of the last entry that lists it, its index modulo 2^32 |
| TokenizerFile.OnlyTokensHaveIds | crates/dyninfer-runtime/src/tokenizer_bpe.rs:170-186 | no token but those listed has an id |
| TokenizerFile.SpecialsLongestFirst | crates/dyninfer-runtime/src/tokenizer_bpe.rs:192 | special pieces are tried in order of falling byte length |
| TokenizerFile.TablesAreComplete | crates/dyninfer-runtime/src/tokenizer_bpe.rs:156-266 | a well-formed file gives tables with the round trip: exactly when no special piece uses a non-ASCII character of the byte alphabet |
| Utf8.EncodeDecode | crates/dyninfer-runtime/src/tokenizer_bpe.rs:538 | every string is read back from its UTF-8 bytes |
| Utf8.DecodeEncode | crates/dyninfer-runtime/src/tokenizer_bpe.rs:538 | bytes that are read as a string are the bytes of that string, so no over-long form is accepted |
| GgufTypes.NbytesIs | crates/dyninfer-checkpoint-gguf/src/types.rs:219-276 | a tensor has a size exactly when its type is known, no product of leading dimensions leaves 64 bits, the elements fill whole blocks and the bytes fit 64 bits; the size is that of the blocks |
| GgufTypes.AlignUp | crates/dyninfer-checkpoint-gguf/src/container.rs:155-160 | a multiple of the alignment, not below the value and less than one alignment above it |
| GgufTypes.AlignUpIsLeast | crates/dyninfer-checkpoint-gguf/src/container.rs:155-160 | no multiple of the alignment lies between the value and its aligned value |
| GgufTypes.AlignUpFits | crates/dyninfer-checkpoint-gguf/src/container.rs:155-160 | below 2^63 aligning never overflows 64 bits |
| GgufReader.ReadValue | crates/dyninfer-checkpoint-gguf/src/container.rs:83-137 | reading a metadata value moves forward and never past the end, through arrays nested to any depth, so it terminates |
| GgufReader.ReadString | crates/dyninfer-checkpoint-gguf/src/container.rs:62-81 | a string read is within the length limit and inside the source |
| GgufCursor.Cursor.ReadValue | crates/dyninfer-checkpoint-gguf/src/container.rs:83-137 | the recursive reader with its cursor agrees with the specification: value, new position and error |
| GgufCursor.Cursor.ReadString | crates/dyninfer-checkpoint-gguf/src/container.rs:62-81 | length, limit, bytes and UTF-8 check agree with the specification |
| GgufCursor.Cursor.ReadExact | crates/dyninfer-checkpoint-gguf/src/container.rs:28-35 | bytes at the cursor, which moves by their number, or an error |
| GgufCursor.Cursor.ReadMany | crates/dyninfer-checkpoint-gguf/src/container.rs:110-114 | the loop over the elements of an array, stopping at the first error |
| GgufCursor.Cursor.ReadMetadata | crates/dyninfer-checkpoint-gguf/src/container.rs:223-230 | the entries in order, a later key replacing an earlier one |
| GgufCursor.Cursor.ReadDir | crates/dyninfer-checkpoint-gguf/src/container.rs:247-274 | name, shape in logical order, known type and offset of a tensor |
| GgufCursor.IndexFile | crates/dyninfer-checkpoint-gguf/src/container.rs:179-318 | the reader computes the index of the specification for every source, or the same error |
| GgufCursor.PlaceAll | crates/dyninfer-checkpoint-gguf/src/container.rs:278-316 | each tensor is placed behind the aligned header, or the first failure is reported |
| GgufSafety.AcceptedIndexIsSafe | crates/dyninfer-checkpoint-gguf/src/container.rs:179-318 | for arbitrary bytes: accepted entries are within the count limit, sorted by key, inside the file, and as long as their type and shape ask for |
| GgufSafety.NothingOverflows | crates/dyninfer-checkpoint-gguf/src/container.rs:179-318 | for a source below 2^63 bytes, accepted or not: the header ends inside it, the declared alignment and the start of the data fit 64 bits, and so do the ends of all entries |
| GgufSafety.HeaderInside | crates/dyninfer-checkpoint-gguf/src/container.rs:184-275 | a header that can be read ends inside the source, and declares an alignment of 64 bits |
| GgufWriter.WriteGguf | crates/dyninfer-checkpoint-gguf/src/q4.rs:139-195 | the buffers written in place are header, metadata, directory, padding and aligned data, in this order |
| GgufWriter.WriteTensors | crates/dyninfer-checkpoint-gguf/src/q4.rs:168-189 | directory and data grow together: each offset recorded is where the tensor starts in the data |
| GgufWriter.Align32IsAlignUp | crates/dyninfer-checkpoint-gguf/src/q4.rs:182-192 | the writer's own padding is the reader's alignment by 32 |
| GgufWriter.WriteString | crates/dyninfer-checkpoint-gguf/src/q4.rs:197-201 | length in 64 bits, then the UTF-8 bytes |
| GgufRoundTrip.RoundTrip | crates/dyninfer-checkpoint-gguf/src/q4.rs:139-195 | for every tensor and metadata map within the limits the reader accepts what the writer wrote: same version, same metadata, and in key order an entry for every tensor with its name, shape and type, at a multiple of 32, selecting exactly the tensor's bytes |
| GgufRoundTrip.DefaultAgrees | crates/dyninfer-checkpoint-gguf/src/container.rs:232-235 | the round trip applies whenever no alignment other than 32 is declared |
| GgufRoundTrip.AlignmentMatters | crates/dyninfer-checkpoint-gguf/src/container.rs:277-287 | when a declared alignment moves the data, the reader fails or takes every tensor from another place: the condition of the round trip is exact |
| GgufAlignment.InPlaceIff | crates/dyninfer-checkpoint-gguf/src/container.rs:277-287 | a written file with tensors is read with every range in its place exactly when the declared alignment, applied to the end of the header, agrees with rounding up to 32 |
| GgufAlignment.LargeAlignmentIsRefused | crates/dyninfer-checkpoint-gguf/src/container.rs:277-296 | a file with one tensor that declares an alignment of 64 is refused |
| GgufAlignment.SmallAlignmentMisreads | crates/dyninfer-checkpoint-gguf/src/container.rs:277-296 | the same file declaring 1 is accepted, with padding in place of the tensor |
| GgufRoundTrip.MetadataLookup | crates/dyninfer-checkpoint-gguf/src/container.rs:223-230 | every key written is read with its value |
| GgufRoundTrip.DataAt | crates/dyninfer-checkpoint-gguf/src/q4.rs:182-187 | the bytes of each tensor stand in the data at its recorded offset, a multiple of 32 |
| GgufRoundTrip.ReadsPayload | crates/dyninfer-checkpoint-gguf/src/q4.rs:152-170 | what is written for a value is read back as that value, for all four kinds |
| GgufRoundTrip.ReadsDir | crates/dyninfer-checkpoint-gguf/src/container.rs:247-268 | a directory entry written with reversed dimensions is read back in logical order |
| GgufRoundTrip.ReadsAsPlaced | crates/dyninfer-checkpoint-gguf/src/container.rs:184-318 | reading a written file comes down to placing its directory from the aligned end of its header, whatever alignment it declares |
| GgufBlocks.PackQ40 | crates/dyninfer-checkpoint-gguf/src/q4.rs:16-46 | 18 bytes for each 32 weights and nothing else: the stored scale low byte first, then in sixteen bytes lane i low and lane i+16 high; any other count is refused |
| GgufBlocks.PackQ41 | crates/dyninfer-checkpoint-gguf/src/q4.rs:48-76 | the same with 20 bytes, the stored minimum behind the scale |
| GgufBlocks.PackQ80 | crates/dyninfer-checkpoint-gguf/src/q4.rs:78-98 | 34 bytes for each 32 weights: the stored scale, then one signed byte for each weight |
| GgufBlocks.DequantQ40 | crates/dyninfer-checkpoint-gguf/src/q4.rs:102-128 | lane by lane reading of all blocks of 18 bytes; a count that is not whole blocks, or another number of bytes, is refused |
| GgufBlocks.GgufQ40RoundTrip | crates/dyninfer-runtime/src/reference.rs:106-127 | the loops of the independent reference compute its block-wise specification |
| GgufBlocks.GgufQ41RoundTrip | crates/dyninfer-runtime/src/reference.rs:129-154 | the same for Q4_1 |
| GgufBlocks.GgufQ80RoundTrip | crates/dyninfer-runtime/src/reference.rs:156-175 | the same for Q8_0 |
| GgufBlocks.TensorRoundTrip40 | crates/dyninfer-checkpoint-gguf/src/q4.rs:16-128 | packing a tensor and reading it back equals the independent reference round trip of the tensor |
| GgufBlocks.TensorRoundTrip41 | crates/dyninfer-checkpoint-gguf/src/q4.rs:48-76 | the same for Q4_1 |
| GgufBlocks.TensorRoundTrip80 | crates/dyninfer-checkpoint-gguf/src/q4.rs:78-98 | the same for Q8_0 |
| GgufBlocks.NeverClamps40 | crates/dyninfer-checkpoint-gguf/src/q4.rs:39-40 | clamping to -8..7 never changes a value |
| GgufBlocks.NeverClamps41 | crates/dyninfer-checkpoint-gguf/src/q4.rs:68-71 | clamping to 0..15 never changes a value |
| GgufBlocks.NeverClamps80 | crates/dyninfer-checkpoint-gguf/src/q4.rs:94 | clamping to -127..127 never changes a value |
| GgufBlocks.Error40 | crates/dyninfer-checkpoint-gguf/src/q4.rs:30-41 | each value read back is within scale/2 + 7 abs(ds) of the weight, ds the rounding of the stored scale |
| GgufBlocks.Error41 | crates/dyninfer-checkpoint-gguf/src/q4.rs:59-72 | within scale/2 + 15 abs(ds) + abs(dmin) |
| GgufBlocks.Error80 | crates/dyninfer-checkpoint-gguf/src/q4.rs:88-94 | within scale/2 + 127 abs(ds) |
| Lanes.LaneOfPacked | crates/dyninfer-checkpoint-gguf/src/q4.rs:38-42 | every lane read from the packed nibbles is the code packed for it |
| Lanes.PackLanes | crates/dyninfer-checkpoint-gguf/src/q4.rs:34-43 | sixteen bytes, lane i in the low and lane i+16 in the high half |
| Lanes.SignedRoundTrip | crates/dyninfer-checkpoint-gguf/src/q4.rs:94 | a signed value survives its byte |
| Lanes.HalfRoundTrip | crates/dyninfer-checkpoint-gguf/src/q4.rs:31 | a stored half survives its two bytes |
| Rounding.ChunksAppend | crates/dyninfer-checkpoint-gguf/src/q4.rs:31-43 | appending the bytes of a block appends one block to those read |
| AffineU4.QuantizeAffineU4 | crates/dyninfer-checkpoint-safetensors/src/fixture.rs:287-317 | for every row and group: scale, bias and words of eight lanes each; a lane of a word is the code of its value |
| AffineU4.PackWord | crates/dyninfer-checkpoint-safetensors/src/fixture.rs:306-312 | eight codes or-ed into a word at shifts of four bits are read back unchanged |
| AffineU4.AffineU4RoundTrip | crates/dyninfer-runtime/src/reference.rs:177-193 | the nested loops of the reference compute its group-wise specification |
| AffineU4.DequantIsReference | crates/dyninfer-checkpoint-safetensors/src/fixture.rs:287-317 | reading all packed words with their scales and biases is the independent reference round trip |
| AffineU4.NeverClamps | crates/dyninfer-checkpoint-safetensors/src/fixture.rs:309 | clamping to 0..15 never changes a value |
| AffineU4.GroupError | crates/dyninfer-runtime/src/reference.rs:183-189 | each value read back is within half a step of the original |
| AffineU4.GroupScale | crates/dyninfer-checkpoint-safetensors/src/fixture.rs:303 | the scale is positive and fifteen steps cover the group |
| Session.IreeSession.constructor | crates/dyninfer-runtime/src/session.rs:29-54 | a session at position 0 without history |
| Session.IreeSession.WindowFromTokens | crates/dyninfer-runtime/src/session.rs:64-75 | the tokens left-aligned in a window of fixed length, padding behind them, and the index of the last real one |
| Session.IreeSession.Prefill | crates/dyninfer-runtime/src/session.rs:89-175 | refusals change nothing; success sets position and history to the list, and when the chunks fit the window the logits are those of the plain list; a later failure keeps the position |
| Session.IreeSession.Decode | crates/dyninfer-runtime/src/session.rs:177-225 | at the limit it refuses; otherwise the logits are those of the history with the token appended, and a failure keeps position, history and all entries before the position |
| Session.IreeSession.PrefillArgmax | crates/dyninfer-runtime/src/session.rs:227-285 | the same state as a prefill, and the token picked for the plain list |
| Session.IreeSession.DecodeArgmax | crates/dyninfer-runtime/src/session.rs:287-330 | the same state as a decode, and the token picked for the whole history |
| Session.IreeSession.Reset | crates/dyninfer-runtime/src/session.rs:336-343 | position 0 and no history, or nothing changed |
| Session.IreeSession.RunChunks | crates/dyninfer-runtime/src/session.rs:142-158 | the loop over chunks is a chunked run of the executor that ends with the whole list |
| Session.IreeSession.RunChunk | crates/dyninfer-runtime/src/session.rs:144-153 | one chunk writes its tokens behind the earlier chunks and touches nothing before them |
| Session.IreeSession.StaticStep | crates/dyninfer-runtime/src/session.rs:207-210 | with the causal bias a decode of the static cache sees exactly the history |
| Session.FillCausalAttnBias | crates/iree-runtime/src/lib.rs:594-604 | zero up to the position, hidden behind it |
| Session.DivCeilCovers | crates/dyninfer-runtime/src/session.rs:132 | the pages ordered hold the whole sequence limit |
| Executor.VisibleIsPrefix | crates/iree-runtime/src/lib.rs:594-604 | a causal bias shows exactly the entries up to the position |
| Executor.FittingRunGives | crates/dyninfer-runtime/src/session.rs:142-158 | when chunks fit the window, chunked and padded prefill gives the logits and entries of one prefill of the whole list: padding is never observed |
| Executor.MisfitGoesWrong | crates/dyninfer-runtime/src/session.rs:64-75 | when some chunk does not fit, there are a device and a run whose logits are not those of the list, for any type of entries with two different values |
| Executor.RightIffChunksFit | crates/dyninfer-runtime/src/session.rs:142-158 | for any type of entries with two different values: chunked prefill is right for every device exactly when the chunk size, or the whole list, fits the window |
| Executor.StartIsProduct | crates/dyninfer-runtime/src/session.rs:145 | chunk n starts at n times the chunk size |
| Executor.Context.InvokePagedChunkEx | crates/iree-runtime/src/lib.rs:495-537 | the executor as it is assumed: entries of the real tokens depend on what stands before them, everything behind is arbitrary |
| Executor.Context.InvokeDecode | crates/iree-runtime/src/lib.rs:418-441 | the executor as it is assumed for one token under a bias |
| Generate.GenerateByToken | crates/dyninfer-runtime/src/generate.rs:170-183 | the ids returned are prompt and new tokens, at most as many as allowed and none a stop token, and the session stands behind all of them; when the chunks of the prompt fit, the new tokens are the greedy ones; the limit is never hit if prompt and budget fit |
| Generate.GenerateByLogits | crates/dyninfer-runtime/src/generate.rs:184-204 | the same with the penalized choice on the host |
| Generate.GreedyIsGreedy | crates/dyninfer-runtime/src/generate.rs:174-182 | every generated token is the pick after the ids before it and no stop token, and generation ends early only at a stop token |
| Generate.GreedyIsUnique | crates/dyninfer-runtime/src/generate.rs:174-182 | no other list of tokens has these properties |
| Generate.BranchesAgree | crates/dyninfer-runtime/src/generate.rs:165-204 | without a penalty both branches generate the same tokens when the device picks what the host would |
| Generate.ApplyRepetitionPenalty | crates/dyninfer-runtime/src/generate.rs:29-45 | the logits of the seen tokens are penalized in place, each once, in whatever order they are visited, and no others |
| Generate.CountSeen | crates/dyninfer-runtime/src/generate.rs:159-162 | each token of the prompt with the number of its occurrences, and no other |
| Maximum.Argmax | crates/dyninfer-runtime/src/generate.rs:16-26 | the first of the greatest values |
| Maximum.FirstMax | crates/dyninfer-runtime/src/generate.rs:16-26 | at least every value and greater than every earlier one |
| Maximum.ArgmaxIsUnique | crates/dyninfer-runtime/src/generate.rs:16-26 | there is only one such index |
| Fingerprint.SchemaFingerprint | crates/dyninfer-checkpoint/src/fingerprint.rs:36-122 | the sorted canonical entries, the number of parameters and the total of all lengths capped at the 64-bit maximum |
| Fingerprint.FindGroups | crates/dyninfer-checkpoint/src/fingerprint.rs:42-58 | for each storage identity the labels stored there, in order, and no others |
| Fingerprint.LabelsAreAliases | crates/dyninfer-checkpoint/src/fingerprint.rs:59-68 | the labels handed on are the aliases of the identities, and only those |
| FingerprintSharing.AliasIsLeast | crates/dyninfer-checkpoint/src/fingerprint.rs:59-68 | an identity has an alias label exactly when at least two components are stored there, and it is one of their labels and not above any of them |
| Fingerprint.TotalBytes | crates/dyninfer-checkpoint/src/fingerprint.rs:111-115 | the saturating fold is the sum of all lengths, capped |
| Fingerprint.PermutationInvariant | crates/dyninfer-checkpoint/src/fingerprint.rs:70-108 | with distinct names the entries are the same for every order of the parameters |
| Fingerprint.TotalPermutes | crates/dyninfer-checkpoint/src/fingerprint.rs:111-115 | the total is the same for every order |
| Fingerprint.RelabellingInvariant | crates/dyninfer-checkpoint/src/fingerprint.rs:39-68 | the entries are the same under every injective renaming of files, keys and offsets that keeps the lengths |
| FingerprintSharing.SharesIff | crates/dyninfer-checkpoint/src/fingerprint.rs:59-68 | with distinct labels two components share storage exactly when both have the same alias label |
| FingerprintSharing.EntriesDetermineSchema | crates/dyninfer-checkpoint/src/fingerprint.rs:70-108 | equal entries mean equal fields name by name, and the same pairs of components that share storage |
| FingerprintAmbiguity.SharingDeterminedIff | crates/dyninfer-checkpoint/src/fingerprint.rs:36-108 | for given distinct names: wherever the catalog is stored, equal entries determine which components share storage exactly when there are no four different components with labels l, l, m, n where l is at most m and n |
| FingerprintAmbiguity.AmbiguousLabelsLoseSharing | crates/dyninfer-checkpoint/src/fingerprint.rs:56-68 | for every catalog with such labels: two placements with the same entries that share storage differently |
| FingerprintAmbiguity.UnambiguousLabelsKeepSharing | crates/dyninfer-checkpoint/src/fingerprint.rs:56-68 | without such labels placements with the same entries share storage in the same way |
| FingerprintAmbiguity.EntriesAgreeIff | crates/dyninfer-checkpoint/src/fingerprint.rs:70-108 | two placements of the same names have the same entries exactly when lengths and alias labels agree component by component |
| FingerprintAmbiguity.ClashExists | crates/dyninfer-checkpoint/src/fingerprint.rs:56 | a catalog with such labels and distinct names, since the separator may be part of a name |
| CacheProtocol.MutualExclusion | crates/dyninfer-cache/src/lib.rs:267-298 | over all interleavings with crashes: at most one live publisher is past the lock of a digest |
| CacheProtocol.CompleteStays | crates/dyninfer-cache/src/lib.rs:138-147 | once complete, the entry is never changed or removed by a publisher |
| CacheProtocol.CompleteIsUniform | crates/dyninfer-cache/src/lib.rs:114-147 | all files of a complete entry are whole and come from one publisher |
| CacheProtocol.SuccessMeansComplete | crates/dyninfer-cache/src/lib.rs:82-163 | a publisher that returns an entry returns a complete one |
| CacheProtocol.OnePublishes | crates/dyninfer-cache/src/lib.rs:82-163 | at most one publisher renames its staging folder into place; the others that succeed return its entry |
| CacheProtocol.NextKeeps | crates/dyninfer-cache/src/lib.rs:82-163 | every step of every publisher keeps the invariant and a complete entry |
| CacheProtocol.AcquireKeeps | crates/dyninfer-cache/src/lib.rs:272-292 | taking the lock and reclaiming it from a dead holder keep the invariant |
| CacheProtocol.WriteKeeps | crates/dyninfer-cache/src/lib.rs:114-136 | a publisher changes one file of its own staging folder, and neither the lock nor the entry nor another folder; the invariant stays |
| CacheProtocol.RenameKeeps | crates/dyninfer-cache/src/lib.rs:147 | a rename that publishes puts all whole files of its publisher where there was no entry; otherwise entry and folders stay |
| CacheProtocol.RemoveKeeps | crates/dyninfer-cache/src/lib.rs:143-146 | the removal of a leftover, file by file and with crashes, never touches a complete entry |
| CacheProtocol.CrashKeeps | crates/dyninfer-cache/src/lib.rs:335-343 | a crash at any step keeps the invariant |
| SafeTensors.IndexHeader | crates/dyninfer-checkpoint-safetensors/src/container.rs:133-290 | entries, overlap check and total as specified, with the errors in the order of the code |
| SafeTensors.Placed | crates/dyninfer-checkpoint-safetensors/src/container.rs:141-229 | a placed entry lies inside the file and has exactly the bytes of its shape and type |
| SafeTensors.HasOverlap | crates/dyninfer-checkpoint-safetensors/src/container.rs:247-271 | sort by start and comparison of neighbours, as a loop |
| SafeTensors.CheckIsPairwise | crates/dyninfer-checkpoint-safetensors/src/container.rs:255-270 | the check accepts exactly the ranges of which every pair is apart in the order of their starts |
| SafeTensors.AcceptedIsDisjoint | crates/dyninfer-checkpoint-safetensors/src/container.rs:255-270 | acceptance means that no two ranges share a byte |
| SafeTensors.RefusalMeansOverlap | crates/dyninfer-checkpoint-safetensors/src/container.rs:255-270 | without empty ranges a refusal means that two ranges share a byte |
| SafeTensors.OverlapIff | crates/dyninfer-checkpoint-safetensors/src/container.rs:246-271 | for placed entries within the count limit the overlap error is given exactly when two entries share a byte, an empty one lies strictly inside another, or an empty one stands at the start of a full one and behind it in the header |
| SafeTensors.EmptyTensorRefused | crates/dyninfer-checkpoint-safetensors/src/container.rs:255-270 | a header that is refused for overlap although no byte is shared |
| SafeTensors.EmptyTensorAccepted | crates/dyninfer-checkpoint-safetensors/src/container.rs:255-270 | the same two tensors in the other order are no overlap |
| SafeTensors.AcceptedIndexIsSafe | crates/dyninfer-checkpoint-safetensors/src/container.rs:133-271 | the entries of an accepted header lie inside the file and pairwise share no byte |
| SafeTensors.OverlapIsReal | crates/dyninfer-checkpoint-safetensors/src/container.rs:246-271 | when no tensor is empty the overlap error is given only if two tensors share a byte |
| LogitTrace.ValidateHeader | crates/dyninfer-cli/src/logit_trace.rs:330-399 | accepts exactly the headers with sound fields whose rows walk along prompt and decode tokens: one row for each position from the last prompt token on, with the token there, forced to the token behind it |
| LogitTrace.HeaderWalks | crates/dyninfer-cli/src/logit_trace.rs:371-397 | the checks by row index are that walk |
| LogitTrace.RowsChain | crates/dyninfer-cli/src/logit_trace.rs:371-397 | each row of a valid header is forced to the token that the next row reads one position on, and the last to none |
| LogitTrace.FindArgmax | crates/dyninfer-cli/src/logit_trace.rs:444-454 | the first value greater than minus infinity that no other exceeds, where a value that is not a number compares with nothing, or 0; for finite values the first of the greatest |
| LogitTrace.HeaderDeterminesRows | crates/dyninfer-cli/src/logit_trace.rs:371-397 | the rows of a valid header follow from the trajectory, up to the recorded maxima |
| LogitTrace.ValuesOfRow | crates/dyninfer-cli/src/logit_trace.rs:132-143 | a row of values is read back from its little-endian bytes |
| LogitTrace.RowAt | crates/dyninfer-cli/src/logit_trace.rs:128-131 | row i stands behind the rows before it |
| TraceIo.TraceWriter.Create | crates/dyninfer-cli/src/logit_trace.rs:181-236 | a writer exists exactly for a sound trajectory and checksum |
| TraceIo.TraceWriter.WriteRow | crates/dyninfer-cli/src/logit_trace.rs:238-285 | an accepted row is the expected one, finite, and appended to header and file; a refused one changes no row, and leaves bytes only in front of a value that is not finite or a failed write |
| TraceIo.TraceWriter.WriteValues | crates/dyninfer-cli/src/logit_trace.rs:270-276 | the bytes of the values up to the first that is refused |
| TraceIo.TraceWriter.Finish | crates/dyninfer-cli/src/logit_trace.rs:287-319 | what is published has a valid header; without an input/output failure only missing rows or a blank engine name prevent it |
| TraceIo.CompleteHeader | crates/dyninfer-cli/src/logit_trace.rs:294 | with all rows written a blank engine name is the only thing left to refuse |
| TraceIo.TraceReader.Open | crates/dyninfer-cli/src/logit_trace.rs:90-120 | opens exactly the traces with a valid header and the exact size |
| TraceIo.TraceReader.NextRow | crates/dyninfer-cli/src/logit_trace.rs:122-155 | the next row, finite and with the recorded maximum, or an error with the reader moved as the code moves it |
| TraceIo.TraceReader.Finish | crates/dyninfer-cli/src/logit_trace.rs:157-169 | succeeds exactly when all rows and all bytes are read |
| TraceIo.OpensIffClean | crates/dyninfer-cli/src/logit_trace.rs:104-110 | a published trace opens exactly when no refused row left bytes behind |
| TraceIo.RoundTrip | crates/dyninfer-cli/src/logit_trace.rs:83-170 | a trace whose refused rows left nothing behind opens and is read back row for row, to the end of the file |
| TraceRunner.RunTrajectory | tools/llama-logits/main.cc:700-801 | without a failure of device or files a trace is published exactly when all logits along the trajectory, greedy or forced, are finite; it has a header the reader accepts, the decode tokens of the trajectory, and the rows are the model's logits along it |
| TraceRunner.FollowsIsDecode | tools/llama-logits/main.cc:718-733 | tokens that follow the rows one by one are those of the trajectory defined from the model alone |
| TraceRunner.WriteLogitRow | tools/llama-logits/main.cc:524-554 | one row little-endian and its first maximum, exactly if every value is finite and the file takes them |
| TraceRunner.EmittedIsHeld | tools/llama-logits/main.cc:742-766 | the header the runner prints from its rows is valid and describes the bytes written |
| Graph.VerifyGraph | crates/dyninfer-architecture/src/builder.rs:789-917 | accepts exactly the graphs with unique names, known references, one producer for each value, a consumer for each required slot, and exports with outputs |
| Graph.VerifyOperations | crates/dyninfer-architecture/src/builder.rs:819-876 | the growing sets decide uniqueness of operations and producers, references and operand types |
| Graph.VerifyOperation | crates/dyninfer-architecture/src/builder.rs:829-875 | the references, producers and operand types of one operation |
| Graph.VerifyConformance | crates/dyninfer-architecture/src/builder.rs:920-938 | in addition prefill and decode are exported |
| Names.NamesDiffer | crates/dyninfer-architecture/src/builder.rs:499-611 | operations of different layers or roles have different names, outputs and weights |
| Names.DecimalRoundTrip | crates/dyninfer-architecture/src/builder.rs:499 | layer numbers are printed without loss |
| Builder.StepKeepsBuilt | crates/dyninfer-architecture/src/builder.rs:172-227 | adding an operation with its slot and output, under free names and from known inputs, keeps: values produced once and before they are read, slots consumed once |
| Builder.BuiltConforms | crates/dyninfer-architecture/src/builder.rs:748-785 | such a graph with the standard exports passes the verifier |
| Builder.ModelBuilder.constructor | crates/dyninfer-architecture/src/builder.rs:124-133 | an empty graph |
| Builder.ModelBuilder.DeclareParameter | crates/dyninfer-architecture/src/builder.rs:139-148 | the slot is added, or refused when its name is taken |
| Builder.ModelBuilder.NewValue | crates/dyninfer-architecture/src/builder.rs:172-184 | the value is added, or refused when its name is taken |
| Builder.ModelBuilder.AddOperation | crates/dyninfer-architecture/src/builder.rs:186-208 | the operation is added, or refused when its name is taken |
| Builder.ModelBuilder.Append | crates/dyninfer-architecture/src/builder.rs:150-227 | slot, value and operation in this order; succeeds exactly when the three names are free, and keeps the graph built |
| Builder.ModelBuilder.InputTokens | crates/dyninfer-architecture/src/builder.rs:230-249 | the token input; a second one is refused |
| Builder.ModelBuilder.Single | crates/dyninfer-architecture/src/builder.rs:251-266 | an operation with a weight under its own name |
| Builder.ModelBuilder.AttentionSublayer | crates/dyninfer-architecture/src/builder.rs:491-612 | exactly the operations of the sublayer in order; an invalid specification is refused, and with free names and equal widths it succeeds |
| Builder.ModelBuilder.FeedForwardSublayer | crates/dyninfer-architecture/src/builder.rs:664-718 | exactly the operations of the sublayer in order; it succeeds with free names and equal widths |
| Builder.ModelBuilder.DecoderBlock | crates/dyninfer-architecture/src/builder.rs:479-488 | attention, then feed-forward; afterwards all names of later layers are still free |
| Builder.ModelBuilder.ShortConvSublayer | crates/dyninfer-architecture/src/builder.rs:616-661 | exactly the operations of the short convolution in order; an invalid specification is refused, and with free names and equal widths it succeeds |
| Builder.ModelBuilder.Prepare | crates/dyninfer-architecture/src/builder.rs:530-563 | head norms and rotation only where asked for |
| Builder.ModelBuilder.AttendCached | crates/dyninfer-architecture/src/builder.rs:564-611 | keys and values are written, read back, attended to and added |
| Builder.ModelBuilder.ExportPrefillAndDecode | crates/dyninfer-architecture/src/builder.rs:748-768 | two exports from the token input to the logits; refused without an input |
| Builder.ModelBuilder.Finish | crates/dyninfer-architecture/src/builder.rs:770-785 | hands over the graph exactly if it conforms |
| Builder.ModelBuilder.FinishAccepts | crates/dyninfer-architecture/src/builder.rs:770-785 | after successful steps and one export nothing the builder made is rejected |
| Llama.Build | crates/dyninfer-architecture/src/models/llama.rs:68-99 | from a new builder it succeeds for every number of layers with valid dimensions, and only then or without layers; the graph conforms and holds exactly the model's operations |
| Llama.BuildModel | crates/dyninfer-architecture/src/registry.rs:141-143 | the whole from scratch: conforming graph, every operation reads only earlier values, caches are written before they are read |
| Llama.Layers | crates/dyninfer-architecture/src/models/llama.rs:88-90 | the layer loop adds the blocks one after the other and feeds each with the sum of the one before |
| Llama.ModelCacheDiscipline | crates/dyninfer-architecture/src/builder.rs:564-591 | in the whole model each cache read has a write of the same layer, component and value before it |
| Llama.WidthsAreExact | crates/dyninfer-architecture/src/builder.rs:507-508 | if the query width fits 32 bits, no width wraps |
| KernelRegistry.Registry.Register | crates/dyninfer-kernel-registry/src/lib.rs:283-299 | a candidate under a new name is added, another is refused |
| KernelRegistry.Registry.Select | crates/dyninfer-kernel-registry/src/lib.rs:305-348 | the best of exactly the candidates of the operation without a reason against them, with the types it offers first; every other candidate of the operation is reported with its reasons |
| KernelRegistry.RejectionReasons | crates/dyninfer-kernel-registry/src/lib.rs:499-584 | lists exactly the reasons that apply, and none exactly for the candidates that fit |
| KernelRegistry.AcceptedUnlessRefused | crates/dyninfer-kernel-registry/src/lib.rs:499-584 | a candidate fits exactly when no reason applies |
| KernelRegistry.FirstIsSelection | crates/dyninfer-kernel-registry/src/lib.rs:338-347 | the front of the sorted list has the highest score and of those the least name |
| KernelRegistry.OrderIndependent | crates/dyninfer-kernel-registry/src/lib.rs:305-348 | any two registration orders of the same uniquely named candidates select the same kernel with the same types and score |
| KernelRegistry.SelectedIfAny | crates/dyninfer-kernel-registry/src/lib.rs:305-348 | a kernel is selected exactly when some candidate fits |
| KernelRegistry.ExactBackendWins | crates/dyninfer-kernel-registry/src/lib.rs:246-259 | for scores below the bonus, a candidate that names the backend is preferred |
| Coverage.DryRunCoverage | crates/dyninfer-quantization/src/lib.rs:313-424 | an entry for each operation and exported mode, in order, with the selection for its request and the problem of its parameter |
| Coverage.LookUps | crates/dyninfer-quantization/src/lib.rs:322-336 | the last binding of a slot, and the parameter behind the last one that has any |
| Coverage.SelectFor | crates/dyninfer-quantization/src/lib.rs:342-415 | request, selection and problem of one operation in one mode |
| Coverage.CompleteMeansServed | crates/dyninfer-quantization/src/lib.rs:225-229 | coverage is complete exactly when every operation has a sound parameter and a fitting kernel in every exported mode |
| Coverage.KernelsComeFromEntries | crates/dyninfer-quantization/src/lib.rs:231-249 | the kernels handed on are those selected, and no others |
| Lowering.BuildBoundModel | crates/dyninfer-compiler/src/lib.rs:125-186 | verified graph, shapes within the cache, and the kernels with those of attention replaced in place when the cache is paged |
| Lowering.ValidateLowerings | crates/dyninfer-compiler/src/lib.rs:266-325 | accepts exactly when the first kernel found for each operation and mode is there, qualified and of a lowering for the operation; an error is one that some operation has |
| Lowering.CoverageImpliesLowering | crates/dyninfer-compiler/src/lib.rs:125-325 | with qualified candidates complete coverage of a verified graph leads to a valid bound model, paged or not, exactly when sensitive operations accumulate in 32-bit floats, or there are none or no modes |
| Lowering.SensitiveTypeMatters | crates/dyninfer-compiler/src/lib.rs:286-307 | a rotation whose policy is half precision has complete coverage and is refused |
| Lowering.LookUpFinds | crates/dyninfer-compiler/src/lib.rs:276-285 | the kernel found for an operation is the one selected for it, rewritten if paged |
| Lowering.SelectedPasses | crates/dyninfer-compiler/src/lib.rs:286-321 | a kernel selected among qualified candidates implements its operation, and has qualified types unless it accumulates in another type |
| Lowering.StandardRegistryIsQualified | crates/dyninfer-kernel-registry/src/lib.rs:410-497 | the builtin candidates are qualified, and those of the encodings if they offer 32-bit floats first and name the generated lowerings where no weight is read |
| Lowering.Prepare | crates/dyninfer-runtime/src/model.rs:303-323 | with qualified candidates and the default policy: coverage, binding and validation succeed together exactly when every operation is served |
| Binding.NamesOf | crates/dyninfer-binding/src/lib.rs:37-48 | canonical names win over aliases, the last of a canonical name and the first of an alias |
| Binding.Bind | crates/dyninfer-binding/src/lib.rs:28-101 | succeeds exactly when every slot fits its parameter or is optional and tied slots agree in shape, and binds what is found in the order of the slots |
| Binding.Tie | crates/dyninfer-binding/src/lib.rs:56-77 | the shape of a tied group is that of all its members seen so far |
| Provider.BuildProviderPlan | crates/dyninfer-checkpoint/src/provider.rs:9-98 | succeeds exactly when there are files, every binding names a parameter by its canonical name, every bound component resolves to one range in its file, and external keys are distinct; the descriptors are sorted by key, and an error names a reason that holds |
| Provider.AddBinding | crates/dyninfer-checkpoint/src/provider.rs:22-96 | the parameter is looked up first, with or without components; then the components of the binding, up to the first that is refused |
| BindToLoad.PlanAcceptsIff | crates/dyninfer-checkpoint/src/provider.rs:9-98 | with distinct canonical names: what was bound is accepted exactly when there are files, every slot that is found was matched by canonical name and has single non-empty ranges in their files, and external keys are distinct |
| BindToLoad.AliasMatchIsRefused | crates/dyninfer-checkpoint/src/provider.rs:22-32 | what was bound to a slot by an alias only is refused by the provider, even if nothing is stored for it |
| BindToLoad.NamedIff | crates/dyninfer-checkpoint/src/provider.rs:22-32 | every binding names a parameter exactly when every slot that is found was matched by canonical name |
| BindExamples.AliasIsBoundThenRefused | crates/dyninfer-checkpoint/src/provider.rs:22-32 | a parameter with a stored component, and one without, each bound by its alias and refused by the provider under every scope |
| BindExamples.NameIsAccepted | crates/dyninfer-checkpoint/src/provider.rs:22-87 | asked for by their canonical name the same parameters are bound and accepted |
| BindToLoad.PlanIsExact | crates/dyninfer-checkpoint/src/provider.rs:88-94 | every descriptor is the range of a component in the catalog, inside its file |
| BindToLoad.PlanIsStrictlySorted | crates/dyninfer-checkpoint/src/provider.rs:98 | the plan lists each key once, in increasing order |
| BindToLoad.KeysDistinctIff | crates/dyninfer-binding/src/lib.rs:242-245 | without colons in component names external keys are distinct exactly when no component of a parameter is bound twice |
| BindToLoad.ResolvesIff | crates/dyninfer-checkpoint/src/provider.rs:22-87 | a component resolves exactly when its slot was matched by canonical name and it lies in its file, and then to its range |
| Manifest.MapsAgreeIff | crates/dyninfer-runtime/src/model.rs:438-460 | for an accepted plan the map in the manifest is the one the loader recomputes exactly when the binder used the loader's scope |
| BindExamples.ScopeDecides | crates/dyninfer-runtime/src/model.rs:438-460 | for this checkpoint the two maps are equal exactly when the binder was given the scope of the plan |
| Manifest.Open | crates/dyninfer-runtime/src/model.rs:437-467 | a bundle opens exactly when the plan is accepted and the two maps are equal |
| Manifest.BindAndOpen | crates/dyninfer-compiler/src/lib.rs:612-629 | binding, writing the manifest and loading succeed together exactly under conditions a caller can check |
| Manifest.CollectSame | crates/dyninfer-runtime/src/model.rs:438-460 | maps collected from the same pairs in different orders are equal |

## Left out

- Generate.GenerateByToken: for prompts whose chunks do not fit the prefill window it is not said which tokens are generated, because the logits of such a prefill are not those of the prompt (Executor.RightIffChunksFit).
- Generate.GenerateByLogits: a penalty of zero is left out, where the code divides by zero and goes on with infinities.
- Generate.ApplyRepetitionPenalty: a penalty of zero is left out for the same reason.
- Tokenizer.Encode: texts on which the loop of the code never ends have no result; Splitter.EndsIff says which they are.
- Tokenizer.Decode: what the lossy conversion puts in place of invalid bytes is not modelled; such a result is told apart from text.
- Session.IreeSession.Prefill: a failed prefill has already replaced the history and the cache while the position stays; no law about the cache is claimed for it.
- CacheProtocol.MutualExclusion: finding a dead holder and removing its lock is one step here. The code tests and then unlinks, and outside Linux it takes every old lock for dead; exclusivity is not claimed for those readings.
- CacheProtocol.CompleteStays: explicit removal of entries is not a publisher and not modelled.
- KernelRegistry.ExactBackendWins: scores are unbounded, so the overflow of a 64-bit score by the bonus is not modelled.
- Builder.ModelBuilder.DeclareParameter: a slot declared on its own, outside the layer helpers, may stay without a consumer and is then refused by the verifier.
- TraceRunner.RunTrajectory: a failure of the device or of a file may come at any step and is not explained; the conversion of the number of forced tokens to 32 bits, backend set-up and the temporary directory are left out.
- SafeTensors.IndexHeader: starts at the tensor descriptions; reading the JSON header and its length is left out.
- Llama.Build: reading the configuration is left out; its values are given.
- The device, the compiler and all native code: the executor is a function of the visible entries of the cache.
- Floating point: weights, scales and logits are real numbers in quantization and inference, how a stored scale becomes 16 bits and back is any pair of functions, and only the trace works on 32-bit patterns. Values that are not numbers, infinities and signed zeros appear only there.
- Sums of message schedule words are taken in the order of the code, which for 32-bit words is the order of the standard up to commutativity; the round constants are those the standard lists.
- Error values keep their kind; messages and diagnostics are dropped.
- SentencePiece encoding and decoding, chat templates and the removal of special tokens when decoding: no round trip holds there.
- Reading from files, path handling, directory listing, JSON text, digests of manifests and keys: values are compared before hashing.
- The depth of the stack in nested metadata arrays.
- Emission of MLIR and the lowerings of encodings: candidates and the lowerings they contribute are parameters.
- Aliases in provider descriptors, notes and debug output.
