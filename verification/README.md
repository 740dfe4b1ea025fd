# A verified model of zlib's deflate and inflate

This project models the compressor and the decompressor of zlib 1.2.8 as they stand in
`deps/libz/`, and proves that they fit together: whatever sequence of `deflate` calls has
compressed some bytes, at any level, strategy, window size, memory level and flush, the stream that
results is decoded to exactly those bytes by any sequence of `inflate` calls, however the input and
the output space are cut into calls (`EndToEnd.ThereAndBack`).

This holds as long as `pending_buf`, which `deflateInit2` sizes by the memory level, does not fail
the compressor. The code does not check that, and it is not always so:

- a block that level 0 stores may not fit; the condition under which all do, which a caller can
  check before the first call, is `PendingBuffer.AlwaysRoom`, and two families of runs break it;
- the tokens of a block lie in the same buffer as the codes written for it, and the codes may
  overtake them, as they do in `OvertakingRun.FarOvertakes`; a block is written correctly exactly
  as long as `BlockSender.KeepsUp` holds. It does for the parameters of
  `PendingBuffer.NeverOvertakes`, and for any parameters when there is a flush after three quarters
  of `lit_bufsize` bytes at the latest (12288 bytes at the default memory level).

`ThereAndBack` promises success under these conditions, and otherwise says in its results which of
the two happened.

The three layers:

- **One specification for both sides.** `Canonical` defines canonical prefix codes from their
  lengths as section 3.2.2 of RFC 1951 does; `BlockFormat`, `Tokens`, `FixedCodes` and
  `CodeLengths` define blocks. `Machine` is the decoder one step at a time over the bits of the
  whole input: the same states, checks and errors as `inflate`, without its buffers.
- **The compressor.** `DeflateState`, `Tree`, `Writer` and `Encoder` (trees.c) are classes over
  arrays as the source's are: the heap, the in-place merge tree, the length repair, the 16-bit bit
  buffer, `pending_buf` with the size it has there. `Lz` (deflate.c) holds the window, `head` and
  `prev`; the five strategies change it in place, and the invariant ties it to the bytes that have
  been read. `Deflater` is a stream over many calls.
- **The decompressor.** `Inflater` is a stream between calls with the window, the length and table
  arrays and the bit buffer; a call is the loop of inflate.c with `inflate_table` and `inflate_fast`
  inside. Its contract says that it does what `Machine` does, and how far it gets.

A ghost result or parameter of a method (tokens, histories, positions in the machine's run) stands
for what the source leaves implicit; it is never read by the code.

## Model

| member | source | states |
|---|---|---|
| EndToEnd.ThereAndBack | deps/libz/deflate.c:630-940 | deflateInit2, any calls of deflate, and any calls of inflate, with all parameters: the output is the input given, and Z_STREAM_END is returned. With enough output space it succeeds if `PendingBuffer.AlwaysRoom` holds and either `PendingBuffer.NeverOvertakes` or a flush at least every three quarters of lit_bufsize bytes; otherwise the pieces that were sent for just these calls spell the input, and one of them has no room, or the block that the encoder chose for one overtakes its tokens |
| EndToEnd.FewGiven | deps/libz/deflate.c:216-219 | No more bytes in all than three quarters of lit_bufsize are flushed often enough |
| RoundTrip.GivesBack | deps/libz/inflate.c:601-1246 | Any run of inflate over a written stream, in whatever pieces, that is not waiting for more ends in DONE with exactly the compressed bytes, and has used all of the stream |
| RoundTrip.WriteStream | deps/libz/deflate.c:630-940 | A finished deflate run, written by an encoder with the buffers of its memory level, as a raw or a zlib stream with header and Adler-32 trailer, is a stream that decodes to all the bytes it was given; from the byte `mark` on, where the last full flush ended, it is a raw stream of its own that decodes to what was read since. Its blocks are those that the encoder chooses for the pieces; it stops exactly at the first piece for which pending_buf has no room or for which the block chosen overtakes its tokens |
| RoundTrip.StreamReads | deps/libz/deflate.c:700-718 | The zlib header, the blocks for the pieces sent and the trailer together are decoded to what the pieces spell |
| RoundTrip.RestartReads | deps/libz/deflate.c:886-902 | After a full flush marker the encoder's bits are byte aligned, and a machine started with no history at that byte decodes all that was sent since |
| RoundTrip.RestartGivesBack | deps/libz/deflate.c:895-901 | Any run of inflate started at the restart byte ends in DONE with the bytes read since the full flush |
| PendingBuffer.NeverOverruns | deps/libz/deflate.c:287-291 | pending_buf has room for every piece if the level is not 0, or the strategy is Z_HUFFMAN_ONLY, or twice the window and six bytes fit into it, or the stored strategy is used without a partial flush |
| PendingOverruns.StoredOverrun | deps/libz/deflate.c:1520-1536 | Whenever pending_buf is smaller than that, level 0 fails: the calls are three partial flushes of nothing and one Z_FINISH with as many zeros as the largest block holds; six bits are held, and the block needs one byte more than there is |
| PendingOverruns.RleOverrun | deps/libz/deflate.c:1811-1876 | Whenever pending_buf is smaller than that, level 0 with Z_RLE fails on the stated runs of bytes and one call with Z_FINISH: the first block has four bytes for each of its tokens, and is stored |
| PendingBuffer.StoredFitsExactly | deps/libz/deflate.c:1522-1530 | The limit of deflate_stored leaves room for every block except one of the largest size after six or seven bits: five bytes of header are then not enough |
| PieceWriter.StoredNeeds | deps/libz/trees.c:1160-1177 | The bits held, the stored block's bits and the padding between them are exactly the bytes that are compared with the size of pending_buf |
| Overlay.Record | deps/libz/deflate.h:323-337 | A token tallied into the overlaid buffers leaves the ones before it, and what is pending, as they are |
| Overlay.SendOverlaid | deps/libz/trees.c:1023-1065 | With the tokens in the last three quarters of pending_buf and the codes written from its start, the bits are those of the tokens if and only if the codes keep up (`KeepsUp`); otherwise it stops before a distance that has been overwritten is read |
| Overlay.TokensKeepUp | deps/libz/deflate.c:216-219 | With fewer than lit_bufsize tokens of at most 24 bits each, the fixed codes never overtake; in general, tokens of at most 16 + c bits keep up while the bits before them and c bits for each fit into the room |
| Overlay.CheapKeepsUp | deps/libz/deflate.c:216-219 | A block that the fixed codes would write in about lit_bufsize bytes keeps up, whichever codes it has |
| KeepingUp.RunsKeepUp | deps/libz/deflate.c:1811-1876 | A dynamic block of a run (all distances 1) keeps up if lit_bufsize is 1024 or more: its tokens take at most 21 bits and its header 2283 |
| PendingBuffer.NoneOvertakes | deps/libz/deflate.c:289-301 | No block overtakes its tokens in deflate_stored and deflate_huff, with Z_FIXED and the smallest window, and in deflate_rle at level 0 or from memory level 4 on |
| PendingBuffer.OvertakingIsLong | deps/libz/trees.c:1058-1060 | With any parameters, a block that overtakes its tokens stands for more bytes than three quarters of lit_bufsize |
| OvertakingRun.FarOvertakes | deps/libz/deflate.c:1682-1803 | With Z_FIXED, a 32K window, memory level 1 and any level from 4 to 9, the stated 57797 bytes, in two calls with a flush between them, fail: deflate_slow finds 127 matches of 258 bytes at distance 24768 one after another, and their codes overtake them |
| PendingBuffer.FarPieceOvertakes | deps/libz/trees.c:1058-1060 | With Z_FIXED, for every memory level, the block that the encoder makes of a full buffer of such matches has the fixed codes and overtakes its tokens: they take 26 bits each |
| PendingBuffer.FarPieceStops | deps/libz/trees.c:1058-1060 | For every memory level there is such a piece within all limits, and the encoder stops in it |
| InflateRuns.SplitIndependence | deps/libz/inflate.c:1217-1246 | Two runs over the same data that have both ended are in the same state: the same output, the same mode, and at the end of the stream the same number of bytes used, however each was cut into calls |
| InflateRuns.OutputsAgree | deps/libz/inflate.c:601-1246 | Of two runs over the same data, stopped anywhere, one has produced a beginning of the other's output |
| InflateRuns.Feed | deps/libz/inflate.c:601-1246 | A loop of calls with arbitrary pieces of input and output space ends, with the machine's output; it returns Z_STREAM_END exactly in DONE and Z_DATA_ERROR exactly in BAD, and otherwise only for want of data or room |
| Inflate.Inflater.Inflate | deps/libz/inflate.c:601-1246 | One call: the machine moves on by the bytes used and appends what the call wrote; it stops only at an end, with no room when a byte is due, or with all input used and no step possible; the return code; `fast` lists the bits held whenever inflate_fast starts: one of eight or more is there exactly if the call begins by entering it with that many, and only as the first; what the window holds at the end of the stream |
| Inflate.EntryBits | deps/libz/inflate.c:1015-1023 | Once a call has moved, inflate_fast is entered with fewer than eight bits |
| FastEntry.HoldByte | deps/libz/inffast.c:40-46 | The stated seven bytes, after which a call returns in LEN with exactly eight bits held |
| FastEntry.EnterWithByte | deps/libz/inffast.c:40-46 | The next call on such a stream, with six bytes of input and 258 of room, enters inflate_fast with the eight bits: the stated entry assumption fails |
| InflateFast.DecodeFast | deps/libz/inffast.c:67-322 | With six bytes of input and 258 of room at the start, any number of bits held: the unchecked loop does what the machine does, never leaves its input or output, gives the unused bytes back, and makes progress |
| FastCopy.FromWindow | deps/libz/inffast.c:184-267 | A match that starts in the window, in one piece, two pieces or running on into the output, is the byte-by-byte copy of the history |
| Window.OutputWindow.Update | deps/libz/inflate.c:378-423 | The circular window holds the last wsize bytes of all output after any update, whatever is copied |
| Window.OutputWindow.GetDictionary | deps/libz/inflate.c:1261-1279 | The dictionary is the last bytes of what the window was given, oldest first |
| StaleDictionary.DictionaryExactly | deps/libz/inflate.c:1168-1190 | The last 32K of what the window was given at the end are those of all output if and only if the stream is raw, or the last call produced nothing, or what it produced repeats the 32K before it |
| StaleDictionary.LastCall | deps/libz/inflate.c:1168-1190 | A call of inflate and then inflateGetDictionary: if the call ends the stream, the dictionary is the last 32K of all output if and only if the stream is raw, or the call produced nothing, or what it produced repeats the 32K before it |
| StaleDictionary.StaleDictionary | deps/libz/inflate.c:1261-1279 | A zlib stream that is decoded in one call to one byte leaves the window and the dictionary empty |
| MachineLaws.StepMore | deps/libz/inflate.c:601-1246 | In every reachable state a step that is possible stays the same when more input is known |
| MachineLaws.RunEnds | deps/libz/inflate.c:601-1246 | Two runs from one state that cannot go on took the same number of steps |
| SymbolReader.ReadSymbol | deps/libz/inflate.c:1025-1050 | Pulling bytes until the entry found needs no more bits than there are finds the symbol of the canonical code, pulls no byte too many, and stops without one only when the input cannot decide it |
| TableDecoding.TableDecodes | deps/libz/inflate.c:1025-1045 | A lookup in the tables on zero-padded bits agrees with the canonical code: an entry that needs no more bits than there are is the symbol, and a symbol that is there is found |
| LengthStates.LenLensCase | deps/libz/inflate.c:909-929 | The code length code is read in its permuted order over any number of calls, and its table decodes it, or the machine errs too |
| CodeLengthStates.CodeLensCase | deps/libz/inflate.c:930-1012 | The run-length coded lengths, resumed anywhere, are those the machine reads; both tables decode them, with the same errors |
| OutputStates.MatchCase | deps/libz/inflate.c:1117-1161 | The state MATCH copies from window or output as the machine does, as far as there is room |
| CheckState.CheckCase | deps/libz/inflate.c:1168-1190 | The trailer is accepted exactly when it is the Adler-32 of all output |
| Inftrees.InflateTable | deps/libz/inftrees.c:32-299 | The return value exactly (over-subscribed, incomplete, too large); on success every symbol's entry is in place for each index that its code matches, in one or two levels; the size used; nothing else is written |
| TableLimits.EnoughLens | deps/libz/inftrees.h:39-54 | No literal/length code of at most 286 symbols needs more than 852 entries |
| TableLimits.EnoughDists | deps/libz/inftrees.h:39-54 | No distance code of at most 30 symbols needs more than 592 entries |
| TightTables.LensReached | deps/libz/inftrees.h:46-52 | Some code of 286 symbols needs exactly 852 |
| TightTables.DistsReached | deps/libz/inftrees.h:46-53 | Some code of 30 symbols needs exactly 592 |
| FixedTables.BuildFixed | deps/libz/inflate.c:261-301 | The fixed tables, built by inflate_table, decode the fixed codes of section 3.2.6 of RFC 1951 |
| Canonical.KraftDecides | deps/libz/inftrees.c:123-132 | The running count `left` decides the Kraft sum: not over-subscribed exactly when it is at most 1, complete exactly when it is 1 |
| Canonical.CodeOrder | deps/libz/trees.c:565-594 | The codes of one length are consecutive in the order of their symbols, and every shorter code comes before, and not at the beginning of, a longer one |
| DeflateCalls.Deflater.Deflate | deps/libz/deflate.c:630-940 | One call, any flush: everything read is in the blocks sent or still waits, in order, nothing is lost, and what was sent is never changed; when the flush is complete; that Z_OK with output space left means all input is taken and the flush done; where the full flush point is and that it stays there until the next; when exactly Z_BUF_ERROR and Z_STREAM_ERROR are returned, and that they change nothing; what the first block is when it is full |
| DeflateCalls.EndFlush | deps/libz/deflate.c:886-902 | The end of a flush appends its marker; a full one forgets the history, so nothing sent later refers past it |
| DeflateCalls.SentSpells | deps/libz/deflate.c:630-940 | Between any calls the pieces sent spell the input up to the current block, those since the last full flush spell it on their own, no match reaches further than the window allows, and the checksum is that of all input read |
| DeflateCalls.FinishedSpells | deps/libz/deflate.c:911-938 | After Z_FINISH is complete, the pieces spell all input and only the last is marked as last |
| DeflateCalls.DeflateInit | deps/libz/deflate.c:209-307 | All levels, strategies, window sizes and memory levels start valid, empty and in newly allocated memory, with the token buffer's size for the memory level |
| PieceWriter.WriteAll | deps/libz/deflate.c:1494-1510 | Each piece becomes the block that the encoder chooses for it (`Encodes`: by the exact costs of codes that build_tree makes of its frequencies), with the same meaning, and the bits written are those blocks, flush markers included, exactly up to the first piece that pending_buf has no room for or that overtakes its tokens |
| LongestMatch.FindLongest | deps/libz/deflate.c:1107-1246 | The length found is a true match within the lookahead and MAX_DIST, although the third byte is never compared; the strings examined (`seen`) are the chain from its head, in order, and none of them matches longer; unless the chain limit or a nice match ends the search, no string in the hash tables within MAX_DIST matches longer |
| HashChains.InsertChained | deps/libz/deflate.c:176-186 | Inserting a string keeps: each head and each live link leads to the latest earlier string of the same hash, or to NIL if there is none in the window |
| HashChains.SlideChained | deps/libz/deflate.c:1375-1400 | Sliding head and prev by a window, entries below it to NIL, keeps that |
| RollingHash.MixForgets | deps/libz/deflate.c:155-163 | After three updates the hash is that of the last three bytes, whatever was before |
| RollingHash.HashThird | deps/libz/deflate.c:1199-1210 | Equal hashes with two equal bytes mean an equal third byte: why longest_match need not compare it |
| WindowFill.FillWindow | deps/libz/deflate.c:1347-1508 | Input is read in order into the window, slid down first when needed; what the window shows, the chains, the hash and the checksum stay right, and enough lookahead is left unless the input is used up |
| FastMatching.DeflateFast | deps/libz/deflate.c:1582-1674 | Tokens and blocks spell the input read; which result means that all is sent, or why the strategy waits |
| LazyMatching.DeflateSlow | deps/libz/deflate.c:1682-1803 | The same for lazy matching, with at most one byte held back, and none at the end; of strings that each repeat one far back, and no other of their hash, it makes a block of the longest matches |
| PlainMatching.DeflateRle | deps/libz/deflate.c:1811-1876 | The same for run-length matches at distance one |
| PlainMatching.DeflateHuff | deps/libz/deflate.c:1882-1913 | The same without matches |
| StoredMatching.DeflateStored | deps/libz/deflate.c:1520-1573 | The same for stored blocks, each within the block size limits and its bytes still in the window |
| BuildTrees.BuildTree | deps/libz/trees.c:604-684 | Lengths of a complete code within the limit, monotone in the frequencies; of least cost among all codes if the tree is not higher than the limit (`overflow` is 0 exactly then), which it cannot be when the frequencies sum to less than Fib(limit + 3); canonical codes, reversed; opt_len and static_len count the bits exactly; frequencies stay below 2^16 and the tree's height at most 22 by the Fibonacci bound |
| PrefixCodes.NoWordsAreCheaper | deps/libz/trees.c:596-603 | A least cost over length assignments is least over all prefix-free sets of code words |
| PrefixCodes.KraftInequality | deps/libz/trees.c:596-603 | Prefix-free words have lengths with a Kraft sum of at most 1 |
| Heap.PqDownHeap | deps/libz/trees.c:448-468 | Sifting down restores the heap from its index on, keeps the elements, and touches nothing else |
| TreeBuilder.DeflateState.ForceTwo | deps/libz/trees.c:633-640 | At least two symbols are made to occur, only when fewer did, with frequency 1 and none above 2, and are taken off the lengths again |
| TreeBuilder.DeflateState.Combine | deps/libz/trees.c:647-675 | The merges are those of Huffman's algorithm, the nodes lie sorted in the upper heap array, and the root's depth field is the tree's height, at most 22, since the total frequency is at least the Fibonacci number for it |
| Huffman.GenBitlen | deps/libz/trees.c:480-555 | The lengths form a complete code within the limit, with right counts per length; overflow is 0 if and only if the tree is not higher than the limit, and then they are of least cost and the longest is the tree's height; the bit totals are exact |
| RepairLengths.RepairCounts | deps/libz/trees.c:521-534 | The repair loop removes exactly the excess of the Kraft sum, and keeps the number of codes |
| RepairLengths.HandOut | deps/libz/trees.c:536-554 | The repaired counts are handed out with shorter lengths to more frequent symbols, and opt_len follows the change of cost |
| Codes.GenCodes | deps/libz/trees.c:565-594 | Every symbol with a length gets the reversed canonical code, the others keep their fields |
| Codes.BiReverse | deps/libz/trees.c:1113-1121 | The loop reverses the low bits |
| CodeLengths.RoundTrip | deps/libz/trees.c:690-774 | The decoder's rules for 16, 17 and 18 expand the items of any lengths to those lengths |
| TreeCoding.ScanTree | deps/libz/trees.c:690-725 | The frequencies counted are those of the items, with the guard set |
| TreeCoding.SendTree | deps/libz/trees.c:732-774 | The bits sent are the same items' codes and extra bits |
| HeaderSender.BuildBlTree | deps/libz/trees.c:780-807 | The code length code can send both trees, the last index sent is enough, and opt_len grows by exactly the header's bits |
| HeaderSender.SendAllTrees | deps/libz/trees.c:814-836 | The bits sent are the header of section 3.2.7 of RFC 1951 |
| BlockSender.CompressBlock | deps/libz/trees.c:1023-1065 | The bits sent are the codes and extra bits of the buffered tokens, then the end of block; it stops if and only if the codes overtake the tokens |
| Encoder.Encoder.FlushBlock | deps/libz/trees.c:877-970 | Whichever block is chosen holds the tokens or the bytes, the choice is the documented comparison of exact lengths, with the codes that build_tree makes of the tokens' frequencies (`Choice`), the bits are that block, padded to a byte after the last, and the tallies start again; room is required only for 31 bits a token, or, where level 0 stores the bytes, for exactly those, and the codes overtake the tokens if and only if `BlockKeepsUp` fails |
| Encoder.Encoder.TallyDist | deps/libz/trees.c:976-1018 | The buffer and both frequency tables stay those of the tokens so far; the flag says when the buffer is full |
| HeaderReader.ReadBlock | deps/libz/inflate.c:820-1167 | The decoding machine reads back every block of the encoder, stored, fixed or dynamic, at any bit position, to the same bytes |
| BitWriter.Writer.SendBits | deps/libz/trees.c:210-222 | The bits are appended to the stream, across the 16-bit buffer's overflow |
| BitWriter.Writer.CopyBlock | deps/libz/trees.c:1160-1177 | Zero bits to the byte boundary, the two length fields if asked for, and the bytes; the room it requires is the bytes it writes |
| Adler32.Adler32 | deps/libz/adler32.c:46-73 | For every buffer length and start value, with the deferred reduction and in 32-bit arithmetic, the result is the definition's |
| Adler32.NoOverflow | deps/libz/adler32.c:12-14 | NMAX bytes never overflow the 32-bit sums |
| Adler32.NmaxIsTight | deps/libz/adler32.c:13-14 | Some buffer of one byte more, after the largest reduced sums, overflows the 32-bit sum |
| Adler32.Concatenation | deps/libz/adler32.c:46-73 | Updating in two calls is updating in one |
| SyncSearch.SyncSearch | deps/libz/inflate.c:1339-1357 | The search stops right after the first marker 00 00 FF FF, or has used all and knows the longest beginning of one at the end |
| SyncSearch.SearchPieces | deps/libz/inflate.c:1328-1357 | The search over several pieces of input, each going on where the last one ended, stops after the first marker in all of it |
| SyncSearch.SameSearch | deps/libz/inflate.c:1328-1357 | Position and match do not depend on the pieces that the input arrives in |

## Findings

- **Level 0 can need more room than pending_buf has** (`deps/libz/trees.c:1160-1177`, `deps/libz/deflate.h:275-278`).
  `copy_block` does not check for room, `deflateInit2` allocates four bytes for each of `1 << (memLevel + 6)` tokens,
  and level 0 stores a block whatever its size. With Z_RLE the strategy is tested before the level, so `deflate_rle`
  may hand over a block whose tokens stand for up to 258 bytes each (`PendingOverruns.RleOverrun`). With the other
  strategies `deflate_stored` allows for a header of five bytes, but after three partial flushes the header takes six
  (`PendingOverruns.StoredOverrun`). Both happen for every window size and memory level with `2 * w_size + 6 >
  pending_buf_size`; in all other cases, at every other level, with Z_HUFFMAN_ONLY, and in `deflate_stored` without a
  partial flush there is room (`PendingBuffer.NeverOverruns`).
- **The codes of a block can overtake its tokens** (`deps/libz/deflate.c:216-219`, `289-301`; the Assert at
  `deps/libz/trees.c:1058-1060` is only there with DEBUG). The comment counts on at most 24 bits for a match on
  average. If each takes no more, the fixed codes keep up (`Overlay.TokensKeepUp`); but with Z_FIXED, the longest
  matches at the largest distances take 26. `OvertakingRun.FarOvertakes` has an input for which deflate_slow makes a
  full block of them at memory level 1, and `PendingBuffer.FarPieceStops` such a block for every memory level. The
  exact condition for a block is `BlockSender.KeepsUp`: when the token with index lx is read, the 16-bit buffer has
  given up at most `lit_bufsize + 2 * lx` bytes. What a caller can rely on is in `EndToEnd.Suffices`.
- **inflate_fast can be entered with eight bits held** (`deps/libz/inffast.c:46` states `state->bits < 8`). A call that
  ends inside a symbol can return with a whole byte or more in the bit buffer, and the next call with six bytes of
  input and 258 of room enters the fast loop with it. It happens exactly when the call starts in LEN with that much
  input and room and eight or more bits held (`HoldsByte(fast)` in `Inflate.Inflater.Inflate`), and
  `FastEntry.HoldByte` and `FastEntry.EnterWithByte` give a stream for which it does. It does no harm:
  `InflateFast.DecodeFast` is proved without the assumption.
- **The dictionary after the end of a zlib stream misses the last call's output**
  (`deps/libz/inflate.c:1168-1190`, `1225-1231`, `1261-1279`). CHECK sets `out = left`, so the `updatewindow` at the
  end of the call copies nothing. The exact condition is `StaleDictionary.LastCall`; the smallest
  case is `StaleDictionary.StaleDictionary`.
- **A forced symbol can be 2.** The comment at `deps/libz/trees.c:639` says 0 or 1; when symbol 1 is the only one
  that occurs, the loop forces symbol 2. Neither has extra bits, so the conclusion of the comment stands.
- **The ENOUGH constants need no search.** They follow from the order of canonical codes
  (`TableLimits`) and are reached (`TightTables`).

## Left out

- gzip headers and trailers (the GUNZIP and GZIP branches), and crc32.
- Decoding past a preset dictionary: the machine stops in DICT, and inflateSetDictionary, deflateSetDictionary and
  the second half of the zlib header are not part of this model.
- Inflate windows other than 32K, so also the distance check against a smaller `dmax`; an error message's text.
- The flush modes of inflate (Z_BLOCK, Z_TREES, Z_FINISH's return code), inflatePrime, inflateMark, inflateUndermine,
  inflateSync's bookkeeping around the search, and inflateBack, which repeats the loop over callbacks.
- deflateParams, deflatePrime, deflateTune, deflateBound, and the copy, reset and end functions; allocation.
- The branches of FASTEST, UNALIGNED_OK, ASMV, DYNAMIC_CRC_TABLE and DEBUG.
- DeflateCalls.Deflater.Deflate: that output space runs out after any block or marker is an arbitrary choice (`outFull`;
  with `ample` it never does), not a count of avail_out, so how many bytes a call delivers is not stated; nor is
  flush_pending's copying modelled.
- The compressor and the block encoder meet in a list: `Lz` records in `sent` what each FLUSH_BLOCK or marker is
  given, and `PieceWriter.WriteAll` drives the encoder with it.
- The encoder keeps d_buf and l_buf in arrays of their own; that this is the same as in pending_buf, as long as the
  codes keep up, is `Overlay.SendOverlaid`. Where the source would go on with overwritten tokens, or beyond the end of
  pending_buf, the model stops.
- PendingBuffer.NeverOvertakes: what it excludes is not all that keeps up; for deflate_fast, deflate_slow and
  deflate_rle with small buffers the condition is on each block (`BlockSender.KeepsUp`) or on its bytes.
- Encoder.Choice: build_tree's codes are given by what is proved of them (complete, monotone, least cost), so which of
  several equally good codes it is, where frequencies are equal, is not stated.
- inflate's registers (mode, hold, bits, next, have, length and so on) are one record that the states pass on, not
  fields; input is a sequence.
- TreeCoding.SendTree: the code fields are passed as sequences, not as the array they are read from.
- high_water zeroing in fill_window and detect_data_type, which change nothing that is sent.
- The subtracting form of MOD in adler32.c (NO_DIVIDE).
- compress, uncompress, the gz file functions and zutil.c.
