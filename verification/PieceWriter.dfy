/** The block encoder driven by what the compressor sent: every piece becomes a
    block that means the same (deps/libz/deflate.c: FLUSH_BLOCK; deps/libz/trees.c:
    _tr_flush_block, _tr_stored_block, _tr_align). */
module PieceWriter {
  import opened Bits
  import opened FixedCodes
  import opened CodeLengths
  import opened BitWriter
  import opened Tokens
  import opened BlockReader
  import opened BlockFormat
  import opened HeaderReader
  import opened Encoder
  import opened Emission
  import opened LzState
  import opened Tally

  // ---- What the block of a piece means ----

  /** The block b is one that the encoder may write for the piece. */
  ghost predicate BlockFor(p: Piece, b: Block) {
    match p
    case Compressed(tokens, buf, _, _) =>
      (match b
       case StoredBlock(data) => buf == Some(data)
       case FixedBlock(ts) => ts == tokens
       case DynamicBlock(ts, _) => ts == tokens)
    case Copied(data, _) => b == StoredBlock(data)
    case Marker => b == StoredBlock([])
    case Align => b == FixedBlock([])
  }

  /** It is the one that the encoder makes of the piece. */
  ghost predicate Encodes(tb: Tables, p: Piece, b: Block, c: Config) {
    match p
    case Compressed(_, _, _, _) => exists codes :: EncodesWith(tb, p, b, c, codes)
    case Copied(data, _) => b == StoredBlock(data)
    case Marker => b == StoredBlock([])
    case Align => b == FixedBlock([])
  }

  ghost predicate EncodesWith(tb: Tables, p: Piece, b: Block, c: Config, codes: BlockCodes) {
    p.Compressed? && Choice(tb, p.tokens, p.buf, p.len, c.level, c.strategy == Z_FIXED, b, codes)
  }

  /** A block for the piece means what the piece stands for. */
  lemma BlockMeans(prev: seq<byte>, p: Piece, out: seq<byte>, b: Block)
    requires PieceOk(prev, p, out) && BlockFor(p, b)
    ensures BlockFits(prev, b) && Decoded(prev, b) == out
  {
    hide Expand, Fit, CopyMatch;
    assert prev + [] == prev;
  }

  /** What the encoder needs of a piece, with room for lit tokens. */
  ghost predicate PieceSized(p: Piece, lit: nat) {
    match p
    case Compressed(tokens, buf, len, _) =>
      |tokens| < lit && TokensOk(tokens) && (buf.Some? ==> |buf.value| == len < 65536)
    case Copied(data, _) => |data| < 65536
    case Marker => true
    case Align => true
  }

  lemma PieceSize(prev: seq<byte>, p: Piece, out: seq<byte>, g: Limits)
    requires PieceOk(prev, p, out) && Within(p, g) && g.wSize <= 32768
    ensures PieceSized(p, g.cfg.litBufsize)
  {
    hide AllFit, ExpandAll;
    if p.Compressed? && p.buf.Some? { assert |prev + p.buf.value| == |prev| + |p.buf.value|; }
  }

  // ---- Room ----

  /** The bytes that pending_buf has to take, when v bits are held, for a stored block: its
      three bits filled up to a byte, two lengths, and the data. */
  function StoredBytes(v: nat, len: nat): nat { (v + 10) / 8 + 4 + len }

  /** pending_buf has room for the piece when v bits are held: it has four bytes for each of
      lit_bufsize tokens.  At level 0 the block stores its bytes however many there are. */
  predicate PieceFits(p: Piece, level: nat, lit: nat, v: nat) {
    match p
    case Compressed(_, buf, len, _) => level == 0 && buf.Some? ==> StoredBytes(v, len) <= 4 * lit
    case Copied(data, _) => StoredBytes(v, |data|) <= 4 * lit
    case Marker => true
    case Align => true
  }

  /** That is the size of the block: without room for a piece its last bytes are written
      beyond the end of pending_buf. */
  lemma StoredNeeds(tb: Tables, data: seq<byte>, last: bool, v: nat)
    requires BlockOk(tb, StoredBlock(data)) && v < 8
    ensures v + |BlockBits(tb, StoredBlock(data), last, v)| == 8 * StoredBytes(v, |data|)
  {
    hide TablesOk, BytesToBits, Zeros, ToBits, Padding;
    BitsOf(data);
    ZerosSize(Padding(v + 3));
    StoredStart(v);
  }

  lemma StoredStart(v: nat)
    requires v < 8
    ensures v + 3 + Padding(v + 3) == 8 * ((v + 10) / 8)
  {
  }

  lemma ZerosSize(n: nat)
    ensures |Zeros(n)| == n
  {
  }

  // ---- Bits ----

  /** The bits of a block; after the last one the stream goes on at a byte boundary. */
  function PieceBits(tb: Tables, b: Block, last: bool, p: nat): seq<bool>
    requires BlockOk(tb, b)
  {
    var x := BlockBits(tb, b, last, p);
    if last then x + Zeros(Padding(p + |x|)) else x
  }

  /** Whole bytes before do not matter. */
  lemma BitsShift(tb: Tables, b: Block, last: bool, p: nat, n: nat)
    requires BlockOk(tb, b)
    ensures PieceBits(tb, b, last, 8 * n + p) == PieceBits(tb, b, last, p)
  {
    hide BlockOk, ToBits, Zeros, BytesToBits, BlockBody, HeaderBits;
    PaddingShift(p + 3, n);
    BlockShift(tb, b, last, p, n);
    hide BlockBits;
    PaddingShift(p + |BlockBits(tb, b, last, p)|, n);
  }

  lemma BlockShift(tb: Tables, b: Block, last: bool, p: nat, n: nat)
    requires BlockOk(tb, b)
    ensures BlockBits(tb, b, last, 8 * n + p) == BlockBits(tb, b, last, p)
  {
    hide BlockOk, ToBits, Zeros, BytesToBits, BlockBody, HeaderBits, Padding;
    PaddingShift(p + 3, n);
  }

  lemma PaddingShift(p: nat, n: nat)
    ensures Padding(8 * n + p) == Padding(p)
  {
  }

  // ---- Writing ----

  /** The encoder between two blocks, with the buffers of deflateInit2: room for lit_bufsize
      tokens, and four bytes for each in pending_buf. */
  ghost predicate Quiet(enc: Encoder)
    reads enc, enc.ltree, enc.dtree, enc.blTree, enc.w, enc.s, enc.dBuf, enc.lBuf, enc.ltree.fc, enc.dtree.fc,
      enc.blTree.fc
  {
    enc.Tallied([]) && 128 <= enc.dBuf.Length && enc.w.pendingBuf.Length == 4 * enc.dBuf.Length && enc.w.Room(0)
  }

  /** Tally the tokens of a block. */
  method TallyAll(enc: Encoder, ts: seq<Token>)
    requires enc.Tallied([]) && |ts| < enc.dBuf.Length && TokensOk(ts)
    modifies enc, enc.dBuf, enc.lBuf, enc.ltree.fc, enc.dtree.fc
    ensures enc.Tallied(ts) && enc.w.Stream() == old(enc.w.Stream())
  {
    hide *;
    TalliedLast(enc, []);
    for i := 0 to |ts|
      invariant enc.Tallied(ts[..i]) && enc.lastLit == i && enc.w.Stream() == old(enc.w.Stream())
    {
      assert ts[..i + 1] == ts[..i] + [ts[i]];
      TokenAtOk(ts, i);
      match ts[i]
      case Literal(c) => var flush := enc.TallyLit(c, ts[..i]);
      case Match(lc, dist) => var flush := enc.TallyDist(dist, lc, ts[..i]);
    }
    assert ts[..|ts|] == ts;
  }

  lemma TalliedLast(enc: Encoder, ts: seq<Token>)
    requires enc.Tallied(ts)
    ensures enc.lastLit == |ts| && enc.lBuf != enc.w.pendingBuf && enc.w.Valid()
  {
    hide TablesOk, FixedLens, FixedDistLens, Separate, Encoder.Counted;
  }

  lemma TokenAtOk(ts: seq<Token>, i: nat)
    requires TokensOk(ts) && i < |ts|
    ensures ts[i].Match? ==> 1 <= ts[i].dist <= 32768
  {
    assert TokenOk(ts[i]);
  }

  /** flush_pending, and what is left in the bit buffer. */
  method TakePending(enc: Encoder) returns (bytes: seq<byte>)
    requires Quiet(enc)
    modifies enc.w, enc.w.pendingBuf
    ensures Quiet(enc) && enc.w.pending == 0 && enc.w.biValid < 8
    ensures BytesToBits(bytes) + enc.w.Stream() == old(enc.w.Stream())
  {
    hide TablesOk, FixedLens, FixedDistLens, Separate, BytesToBits, ToBits, Pow2, TokensOf;
    bytes := enc.w.Take();
  }

  /** The block of a piece, from an empty pending buffer. */
  method EncodePiece(enc: Encoder, p: Piece, c: Config) returns (ok: bool, ghost b: Block)
    requires Quiet(enc) && PieceSized(p, enc.dBuf.Length) && enc.w.pending == 0 && enc.w.biValid < 8
    requires PieceFits(p, c.level, enc.dBuf.Length, enc.w.biValid)
    modifies enc, enc.s, enc.s.heap, enc.s.depth, enc.s.blCount, enc.ltree, enc.dtree, enc.blTree, enc.w,
      enc.w.pendingBuf
    modifies enc.ltree.fc, enc.ltree.dl, enc.dtree.fc, enc.dtree.dl, enc.blTree.fc, enc.blTree.dl, enc.dBuf, enc.lBuf
    ensures BlockOk(enc.tb, b) && BlockFor(p, b) && Cheaper(enc.tb, b) && Encodes(enc.tb, p, b, c)
    ensures ok <==> BlockKeepsUp(enc.tb, b, old(|enc.w.Stream()|), enc.dBuf.Length)
    ensures ok ==> Quiet(enc)
    ensures ok ==> enc.w.Stream() == old(enc.w.Stream()) + PieceBits(enc.tb, b, IsLast(p), old(|enc.w.Stream()|))
  {
    hide BlockOk, PieceBits, Quiet, TablesOk, BlockKeepsUp, Cheaper, Choice, Encodes;
    QuietFacts(enc);
    ok := true;
    match p {
    case Compressed(tokens, buf, len, last) =>
      ok, b := EncodeTokens(enc, tokens, buf, len, last, c.level, c.strategy == Z_FIXED);
    case Copied(data, last) => ok, b := EncodeTokens(enc, [], Some(data), |data|, last, 0, c.strategy == Z_FIXED);
    case Marker =>
      StoredKeepsUp(enc.tb, StoredBlock([]), |enc.w.Stream()|, enc.dBuf.Length);
      b := EncodeMarker(enc);
    case Align =>
      StoredKeepsUp(enc.tb, FixedBlock([]), |enc.w.Stream()|, enc.dBuf.Length);
      b := EncodeAlign(enc);
    }
    EncodesIs(enc.tb, p, b, c);
  }

  lemma EncodesIs(tb: Tables, p: Piece, b: Block, c: Config)
    requires match p
             case Compressed(ts, buf, len, _) =>
               var fixed := c.strategy == Z_FIXED; exists d :: Choice(tb, ts, buf, len, c.level, fixed, b, d)
             case Copied(data, _) => b == StoredBlock(data)
             case Marker => b == StoredBlock([])
             case Align => b == FixedBlock([])
    ensures Encodes(tb, p, b, c)
  {
    hide Choice;
    if p.Compressed? {
      var fixed := c.strategy == Z_FIXED;
      var d :| Choice(tb, p.tokens, p.buf, p.len, c.level, fixed, b, d);
      assert EncodesWith(tb, p, b, c, d);
    }
  }

  /** _tr_stored_block without data */
  method EncodeMarker(enc: Encoder) returns (ghost b: Block)
    requires Quiet(enc) && enc.w.pending == 0 && enc.w.biValid < 8
    modifies enc.w, enc.w.pendingBuf
    ensures Quiet(enc) && BlockOk(enc.tb, b) && b == StoredBlock([]) && Cheaper(enc.tb, b)
    ensures enc.w.Stream() == old(enc.w.Stream()) + PieceBits(enc.tb, b, false, old(|enc.w.Stream()|))
  {
    hide TablesOk, FixedLens, FixedDistLens, Separate, Pow2, TokensOf, BlockOk, BlockBits;
    b := StoredBlock([]);
    SendStored(enc.w, enc.tb, [], false);
  }

  /** _tr_align */
  method EncodeAlign(enc: Encoder) returns (ghost b: Block)
    requires Quiet(enc) && enc.w.pending == 0 && enc.w.biValid < 8
    modifies enc.w, enc.w.pendingBuf
    ensures Quiet(enc) && BlockOk(enc.tb, b) && b == FixedBlock([]) && Cheaper(enc.tb, b)
    ensures enc.w.Stream() == old(enc.w.Stream()) + PieceBits(enc.tb, b, false, old(|enc.w.Stream()|))
  {
    hide TablesOk, FixedLens, FixedDistLens, Separate, Pow2, TokensOf, BlockOk, BlockBits, BlockBody, TreeOf;
    b := FixedBlock([]);
    LostCost(enc.tb, []);
    var ok := SendFixed(enc.w, enc.tb, enc.slFc, enc.slDl, enc.sdFc, enc.sdDl, enc.dBuf, enc.lBuf, 0, [], false);
  }

  /** _tr_tally for every token, then _tr_flush_block. */
  method EncodeTokens(enc: Encoder, ts: seq<Token>, buf: Option<seq<byte>>, len: nat, last: bool, level: nat,
                      fixed: bool)
    returns (ok: bool, ghost b: Block)
    requires Quiet(enc) && |ts| < enc.dBuf.Length && TokensOk(ts) && (buf.Some? ==> |buf.value| == len < 65536)
    requires enc.w.pending == 0 && enc.w.biValid < 8
    requires level == 0 && buf.Some? ==> StoredBytes(enc.w.biValid, len) <= 4 * enc.dBuf.Length
    modifies enc, enc.s, enc.s.heap, enc.s.depth, enc.s.blCount, enc.ltree, enc.dtree, enc.blTree, enc.w,
      enc.w.pendingBuf
    modifies enc.ltree.fc, enc.ltree.dl, enc.dtree.fc, enc.dtree.dl, enc.blTree.fc, enc.blTree.dl, enc.dBuf, enc.lBuf
    ensures BlockOk(enc.tb, b) && BlockFor(Compressed(ts, buf, len, last), b) && Cheaper(enc.tb, b)
    ensures level == 0 && buf.Some? ==> b == StoredBlock(buf.value)
    ensures exists c :: Choice(enc.tb, ts, buf, len, level, fixed, b, c)
    ensures ok <==> BlockKeepsUp(enc.tb, b, old(|enc.w.Stream()|), enc.dBuf.Length)
    ensures ok ==> Quiet(enc)
    ensures ok ==> enc.w.Stream() == old(enc.w.Stream()) + PieceBits(enc.tb, b, last, old(|enc.w.Stream()|))
  {
    hide *;
    QuietFacts(enc);
    TallyAll(enc, ts);
    ghost var c, opt, stat;
    ghost var s0 := enc.w.Stream();
    ghost var p := |s0|;
    RoomEnough(enc, |ts|, len, level, buf.Some?);
    NonePending(enc.w);
    ok, b, c, opt, stat := enc.FlushBlock(buf, len, last, level, fixed, ts);
    HoldingFor(enc.tb, b, buf, len, ts, last, level, fixed, p, opt, stat);
    if !ok { return; }
    QuietAgain(enc);
    QuietFacts(enc);
    StreamPiece(enc.tb, b, last, s0, enc.w.Stream());
  }

  lemma StreamPiece(tb: Tables, b: Block, last: bool, s0: seq<bool>, s1: seq<bool>)
    requires BlockOk(tb, b)
    requires var bits := s0 + BlockBits(tb, b, last, |s0|); s1 == bits + if last then Zeros(Padding(|bits|)) else []
    ensures s1 == s0 + PieceBits(tb, b, last, |s0|)
  {
    hide BlockOk, BlockBits, Zeros, Padding;
  }

  lemma QuietFacts(enc: Encoder)
    requires Quiet(enc)
    ensures enc.Tallied([]) && 128 <= enc.dBuf.Length && enc.w.pendingBuf.Length == 4 * enc.dBuf.Length
    ensures enc.dBuf.Length <= 32768
    ensures enc.w.Valid() && TablesOk(enc.tb) && enc.lBuf != enc.w.pendingBuf && enc.w.Room(0) && enc.lastLit == 0
  {
    hide TablesOk, FixedLens, FixedDistLens, Separate, Encoder.Counted;
  }

  lemma QuietAgain(enc: Encoder)
    requires enc.Tallied([]) && 128 <= enc.dBuf.Length && enc.w.pendingBuf.Length == 4 * enc.dBuf.Length
    requires enc.w.Room(0)
    ensures Quiet(enc)
  {
    hide TablesOk, FixedLens, FixedDistLens, Separate, Encoder.Counted;
  }

  lemma NonePending(w: Writer)
    requires w.pending == 0
    ensures w.InPairs()
  {
  }

  lemma RoomEnough(enc: Encoder, n: nat, len: nat, level: nat, stored: bool)
    requires enc.w.pending == 0 && enc.w.biValid < 8 && enc.w.pendingBuf.Length == 4 * enc.dBuf.Length
    requires n < enc.dBuf.Length && 128 <= enc.dBuf.Length
    requires level == 0 && stored ==> StoredBytes(enc.w.biValid, len) <= 4 * enc.dBuf.Length
    ensures BlockRoom(enc.w, n, len, level, stored)
  {
  }

  /** The encoder's choice is a block for the piece. */
  lemma HoldingFor(tb: Tables, b: Block, buf: Option<seq<byte>>, len: nat, ts: seq<Token>, last: bool, level: nat,
                   fixed: bool, p: nat, opt: int, stat: int)
    requires Holding(tb, b, buf, ts, last, p, opt, stat) && Chosen(b, buf, len, level, fixed, opt, stat)
    requires buf.Some? ==> |buf.value| == len
    ensures BlockOk(tb, b) && BlockFor(Compressed(ts, buf, len, last), b)
    ensures level == 0 && buf.Some? ==> b == StoredBlock(buf.value)
  {
    hide BlockOk, BlockBits;
  }

  // ---- A whole stream ----

  ghost predicate BlocksFor(tb: Tables, ps: seq<Piece>, bs: seq<Block>) {
    |ps| == |bs| && forall i :: 0 <= i < |ps| ==> BlockOk(tb, bs[i]) && BlockFor(ps[i], bs[i])
  }

  /** The bits of all blocks, from position p on. */
  ghost function AllBits(tb: Tables, ps: seq<Piece>, bs: seq<Block>, p: nat): seq<bool>
    requires BlocksFor(tb, ps, bs)
    decreases |ps|
  {
    if ps == [] then []
    else
      var n := |ps| - 1;
      var x := AllBits(tb, ps[..n], bs[..n], p);
      x + PieceBits(tb, bs[n], IsLast(ps[n]), p + |x|)
  }

  lemma AllBitsPush(tb: Tables, ps: seq<Piece>, bs: seq<Block>, p: nat, q: Piece, b: Block)
    requires BlocksFor(tb, ps, bs) && BlockOk(tb, b) && BlockFor(q, b)
    ensures BlocksFor(tb, ps + [q], bs + [b])
    ensures var x := AllBits(tb, ps, bs, p);
      AllBits(tb, ps + [q], bs + [b], p) == x + PieceBits(tb, b, IsLast(q), p + |x|)
  {
    hide BlockOk, BlockFor, PieceBits;
    assert (ps + [q])[..|ps|] == ps && (bs + [b])[..|bs|] == bs;
  }

  /** All bits written: in the output, and still in the encoder. */
  ghost function BitsOut(out: seq<byte>, enc: Encoder): seq<bool>
    reads enc.w, enc.w.pendingBuf
    requires enc.w.Valid()
  {
    BytesToBits(out) + enc.w.Stream()
  }

  method WritePiece(enc: Encoder, p: Piece, c: Config, out0: seq<byte>)
    returns (ok: bool, out: seq<byte>, ghost b: Block)
    requires Quiet(enc) && PieceSized(p, enc.dBuf.Length) && enc.w.Valid() && c.litBufsize == enc.dBuf.Length
    modifies enc, enc.s, enc.s.heap, enc.s.depth, enc.s.blCount, enc.ltree, enc.dtree, enc.blTree, enc.w,
      enc.w.pendingBuf
    modifies enc.ltree.fc, enc.ltree.dl, enc.dtree.fc, enc.dtree.dl, enc.blTree.fc, enc.blTree.dl, enc.dBuf, enc.lBuf
    ensures BlockOk(enc.tb, b)
    ensures ok ==> Quiet(enc) && enc.w.Valid() && BlockFor(p, b) && Encodes(enc.tb, p, b, c)
    ensures ok ==> var v := old(|BitsOut(out0, enc)|) % 8;
      PieceFits(p, c.level, c.litBufsize, v) && BlockKeepsUp(enc.tb, b, v, c.litBufsize)
    ensures !ok && PieceFits(p, c.level, c.litBufsize, old(|BitsOut(out0, enc)|) % 8) ==>
      Overtaking(enc.tb, p, b, old(|BitsOut(out0, enc)|) % 8, c)
    ensures ok ==>
      BitsOut(out, enc) == old(BitsOut(out0, enc)) + PieceBits(enc.tb, b, IsLast(p), old(|BitsOut(out0, enc)|))
  {
    hide *;
    out := TakeOut(enc, out0);
    ghost var before := BitsOut(out, enc);
    QuietFacts(enc);
    WrittenIs(out, enc);
    Mod8(|out|, enc.w.biValid);
    b := StoredBlock([]);
    StoredNothing(enc.tb);
    ok := PieceFits(p, c.level, enc.dBuf.Length, enc.w.biValid);
    if !ok { return; }
    ok, b := EncodePiece(enc, p, c);
    if ok {
      QuietFacts(enc);
      WrittenIs(out, enc);
      BitsShift(enc.tb, b, IsLast(p), |before| - 8 * |out|, |out|);
    } else {
      OvertakingIs(enc.tb, p, b, |before| - 8 * |out|, c);
    }
  }

  /** What is pending joins the bytes out0. */
  method TakeOut(enc: Encoder, out0: seq<byte>) returns (out: seq<byte>)
    requires Quiet(enc) && enc.w.Valid()
    modifies enc.w, enc.w.pendingBuf
    ensures Quiet(enc) && enc.w.Valid() && enc.w.pending == 0 && enc.w.biValid < 8
    ensures BitsOut(out, enc) == old(BitsOut(out0, enc))
  {
    hide *;
    QuietFacts(enc);
    WrittenIs(out0, enc);
    var bytes := TakePending(enc);
    QuietFacts(enc);
    out := out0 + bytes;
    WrittenIs(out, enc);
    BytesConcat(out0, bytes);
  }

  /** The block b for the piece p, after v bits, overwrites tokens that it has not sent yet. */
  ghost predicate Overtaking(tb: Tables, p: Piece, b: Block, v: nat, c: Config) {
    && BlockOk(tb, b) && BlockFor(p, b) && Cheaper(tb, b) && Encodes(tb, p, b, c)
    && !BlockKeepsUp(tb, b, v, c.litBufsize)
  }

  lemma OvertakingIs(tb: Tables, p: Piece, b: Block, v: nat, c: Config)
    requires BlockOk(tb, b) && BlockFor(p, b) && Cheaper(tb, b) && Encodes(tb, p, b, c)
    requires !BlockKeepsUp(tb, b, v, c.litBufsize)
    ensures Overtaking(tb, p, b, v, c)
  {
    hide BlockOk, BlockFor, Cheaper, Encodes, BlockKeepsUp;
  }

  lemma StoredNothing(tb: Tables)
    requires TablesOk(tb)
    ensures BlockOk(tb, StoredBlock([]))
  {
    hide TablesOk;
  }

  lemma WrittenIs(out: seq<byte>, enc: Encoder)
    requires enc.w.Valid()
    ensures BitsOut(out, enc) == BytesToBits(out) + enc.w.Stream() && |BytesToBits(out)| == 8 * |out|
    ensures enc.w.pending == 0 ==> |BitsOut(out, enc)| == 8 * |out| + enc.w.biValid
  {
  }

  /** The encoder makes the blocks bs of the pieces: pending_buf has room for each in turn, with
      the bits that the ones before leave, and no block overtakes its tokens there. */
  ghost predicate EncodedAs(tb: Tables, ps: seq<Piece>, bs: seq<Block>, p: nat, c: Config)
    requires BlocksFor(tb, ps, bs)
    decreases |ps|
  {
    ps == []
    || (var n := |ps| - 1;
        EncodedAs(tb, ps[..n], bs[..n], p, c) && Encodes(tb, ps[n], bs[n], c)
        && PieceFits(ps[n], c.level, c.litBufsize, (p + |AllBits(tb, ps[..n], bs[..n], p)|) % 8)
        && BlockKeepsUp(tb, bs[n], (p + |AllBits(tb, ps[..n], bs[..n], p)|) % 8, c.litBufsize))
  }

  /** What holds of all pieces holds of each of them, after the bits of those before. */
  lemma {:induction false} EncodedAt(tb: Tables, ps: seq<Piece>, bs: seq<Block>, p: nat, c: Config, i: nat)
    requires BlocksFor(tb, ps, bs) && EncodedAs(tb, ps, bs, p, c) && i < |ps|
    ensures BlocksFor(tb, ps[..i], bs[..i]) && |ps| == |bs|
    ensures PieceFits(ps[i], c.level, c.litBufsize, (p + |AllBits(tb, ps[..i], bs[..i], p)|) % 8)
    ensures BlockOk(tb, bs[i]) && Encodes(tb, ps[i], bs[i], c)
    ensures BlockKeepsUp(tb, bs[i], (p + |AllBits(tb, ps[..i], bs[..i], p)|) % 8, c.litBufsize)
    decreases |ps|
  {
    hide BlockOk, BlockFor, PieceBits, PieceFits, AllBits, Encodes, BlockKeepsUp;
    var n := |ps| - 1;
    if i < n {
      EncodedAt(tb, ps[..n], bs[..n], p, c, i);
      assert ps[..n][..i] == ps[..i] && bs[..n][..i] == bs[..i];
    }
  }

  lemma EncodedPush(tb: Tables, ps: seq<Piece>, bs: seq<Block>, p: nat, c: Config, q: Piece, b: Block)
    requires BlocksFor(tb, ps, bs) && BlockOk(tb, b) && BlockFor(q, b) && EncodedAs(tb, ps, bs, p, c)
    requires Encodes(tb, q, b, c) && PieceFits(q, c.level, c.litBufsize, (p + |AllBits(tb, ps, bs, p)|) % 8)
    requires BlockKeepsUp(tb, b, (p + |AllBits(tb, ps, bs, p)|) % 8, c.litBufsize)
    ensures BlocksFor(tb, ps + [q], bs + [b]) && EncodedAs(tb, ps + [q], bs + [b], p, c)
  {
    hide BlockOk, BlockFor, PieceBits, PieceFits, AllBits, Encodes, BlockKeepsUp;
    assert (ps + [q])[..|ps|] == ps && (bs + [b])[..|bs|] == bs;
  }

  /** Every piece in turn, after the bytes out0; ok says that pending_buf had room for all of
      them and that none overtook its tokens there, and else the blocks are those before the
      first one that did, which is next. */
  method WriteAll(enc: Encoder, ps: seq<Piece>, c: Config, out0: seq<byte>)
    returns (ok: bool, out: seq<byte>, ghost bs: seq<Block>, ghost next: Block)
    requires Quiet(enc) && enc.w.Valid() && enc.w.Stream() == [] && c.litBufsize == enc.dBuf.Length
    requires forall i :: 0 <= i < |ps| ==> PieceSized(ps[i], enc.dBuf.Length)
    modifies enc, enc.s, enc.s.heap, enc.s.depth, enc.s.blCount, enc.ltree, enc.dtree, enc.blTree, enc.w,
      enc.w.pendingBuf
    modifies enc.ltree.fc, enc.ltree.dl, enc.dtree.fc, enc.dtree.dl, enc.blTree.fc, enc.blTree.dl, enc.dBuf, enc.lBuf
    ensures (ok ==> Quiet(enc) && enc.w.Valid()) && |bs| <= |ps| && (ok <==> |bs| == |ps|)
    ensures BlocksFor(enc.tb, ps[..|bs|], bs) && EncodedAs(enc.tb, ps[..|bs|], bs, 8 * |out0|, c)
    ensures ok ==>
      BlocksFor(enc.tb, ps, bs) && BitsOut(out, enc) == BytesToBits(out0) + AllBits(enc.tb, ps, bs, 8 * |out0|)
    ensures !ok ==> var v := |AllBits(enc.tb, ps[..|bs|], bs, 8 * |out0|)| % 8;
      PieceFits(ps[|bs|], c.level, c.litBufsize, v) ==> Overtaking(enc.tb, ps[|bs|], next, v, c)
  {
    hide *;
    out, bs, next := out0, [], StoredBlock([]);
    WrittenIs(out0, enc);
    NoneWritten(enc.tb, 8 * |out0|, c);
    for i := 0 to |ps|
      invariant Quiet(enc) && enc.w.Valid() && |bs| == i && BlocksFor(enc.tb, ps[..i], bs)
      invariant EncodedAs(enc.tb, ps[..i], bs, 8 * |out0|, c)
      invariant BitsOut(out, enc) == BytesToBits(out0) + AllBits(enc.tb, ps[..i], bs, 8 * |out0|)
    {
      ghost var b;
      ghost var x := AllBits(enc.tb, ps[..i], bs, 8 * |out0|);
      BitsOf(out0);
      Mod8(|out0|, |x|);
      ok, out, b := WritePiece(enc, ps[i], c, out);
      next := b;
      if !ok { return; }
      AllBitsPush(enc.tb, ps[..i], bs, 8 * |out0|, ps[i], b);
      EncodedPush(enc.tb, ps[..i], bs, 8 * |out0|, c, ps[i], b);
      bs := bs + [b];
      assert ps[..i + 1] == ps[..i] + [ps[i]];
    }
    assert ps[..|ps|] == ps;
    ok := true;
  }

  lemma Mod8(n: nat, k: nat)
    ensures (8 * n + k) % 8 == k % 8
  {
  }

  lemma NoneWritten(tb: Tables, p: nat, c: Config)
    ensures BlocksFor(tb, [], []) && AllBits(tb, [], [], p) == [] && EncodedAs(tb, [], [], p, c)
  {
  }
}
