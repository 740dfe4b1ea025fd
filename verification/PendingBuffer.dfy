/** Whether pending_buf is large enough (deps/libz/deflate.c: deflateInit2_, deflate_stored;
    deps/libz/trees.c: copy_block).  It has four bytes for each of lit_bufsize tokens, which
    is enough for compressed blocks; but level 0 stores the bytes of the block, and copy_block
    does not check. */
module PendingBuffer {
  import opened Bits
  import opened BitWriter
  import opened FixedCodes
  import opened CodeLengths
  import opened Tokens
  import opened BlockReader
  import opened HeaderSender
  import opened BlockFormat
  import opened Encoder
  import opened Overlay
  import opened FarRuns
  import opened KeepingUp
  import opened Emission
  import opened LzState
  import opened Tally
  import opened PieceWriter
  import opened RoundTrip

  /** What a caller of deflateInit2 can check: there is a level, or deflate_huff is in use,
      or the window cannot hold more than pending_buf. */
  predicate Roomy(g: Limits) {
    g.cfg.level > 0 || g.cfg.strategy == Z_HUFFMAN_ONLY || 2 * g.wSize + 6 <= 4 * g.cfg.litBufsize
  }

  /** Then there is room for every piece, whatever bits are held. */
  lemma RoomyFits(p: Piece, g: Limits, v: nat)
    requires Within(p, g) && Roomy(g) && v < 8 && 128 <= g.cfg.litBufsize
    ensures PieceFits(p, g.cfg.level, g.cfg.litBufsize, v)
  {
    hide AllNear;
  }

  lemma RoomyNeverOverruns(tb: Tables, ps: seq<Piece>, bs: seq<Block>, p: nat, g: Limits)
    requires AllWithin(ps, g) && Roomy(g) && 128 <= g.cfg.litBufsize
    ensures !Overruns(tb, ps, bs, p, g.cfg)
  {
    hide *;
    if Overruns(tb, ps, bs, p, g.cfg) {
      var v := OverrunPiece(tb, ps, bs, p, g.cfg);
      WithinAt(ps, |bs|, g);
      RoomyFits(ps[|bs|], g, v);
    }
  }

  lemma OverrunPiece(tb: Tables, ps: seq<Piece>, bs: seq<Block>, p: nat, c: Config) returns (v: nat)
    requires Overruns(tb, ps, bs, p, c)
    ensures |bs| < |ps| && v < 8 && !PieceFits(ps[|bs|], c.level, c.litBufsize, v)
  {
    hide BlocksFor, EncodedAs, AllBits, PieceFits;
    v := (p + |AllBits(tb, ps[..|bs|], bs, p)|) % 8;
  }

  lemma WithinAt(ps: seq<Piece>, i: nat, g: Limits)
    requires AllWithin(ps, g) && i < |ps|
    ensures Within(ps[i], g)
  {
    hide Within;
  }

  /** In deflate_stored there is no room for one thing only: a block of the largest size after
      six or seven bits, for which five bytes of header are not enough. */
  lemma StoredFitsExactly(p: Piece, g: Limits, v: nat)
    requires Within(p, g) && v < 8 && 128 <= g.cfg.litBufsize && !MakesTokens(g.cfg)
    ensures PieceFits(p, 0, g.cfg.litBufsize, v) <==>
      !(p.Copied? && v >= 6 && |p.data| == 4 * g.cfg.litBufsize - 5)
  {
    hide AllNear;
  }

  /** Without a partial flush the blocks of deflate_stored begin at byte boundaries ... */
  lemma {:induction false} StoredAligned(tb: Tables, ps: seq<Piece>, bs: seq<Block>, p: nat, g: Limits)
    requires BlocksFor(tb, ps, bs) && AllWithin(ps, g) && !MakesTokens(g.cfg) && !g.partial && p % 8 == 0
    ensures (p + |AllBits(tb, ps, bs, p)|) % 8 == 0
    decreases |ps|
  {
    hide BlockOk, PieceBits, AllNear;
    if ps != [] {
      var n := |ps| - 1;
      StoredAligned(tb, ps[..n], bs[..n], p, g);
      assert Within(ps[n], g) && BlockFor(ps[n], bs[n]);
      StoredEnd(tb, bs[n], IsLast(ps[n]), p + |AllBits(tb, ps[..n], bs[..n], p)|);
    }
  }

  lemma StoredEnd(tb: Tables, b: Block, last: bool, p: nat)
    requires BlockOk(tb, b) && b.StoredBlock? && p % 8 == 0
    ensures (p + |PieceBits(tb, b, last, p)|) % 8 == 0
  {
    hide TablesOk, BytesToBits, Zeros, ToBits;
    BitsOf(b.data);
    ZerosSize(Padding(p + 3));
    ZerosSize(Padding(p + |BlockBits(tb, b, last, p)|));
  }

  /** ... so there is room for all of them. */
  lemma StoredNeverOverruns(tb: Tables, ps: seq<Piece>, bs: seq<Block>, p: nat, g: Limits)
    requires AllWithin(ps, g) && !MakesTokens(g.cfg) && !g.partial && p % 8 == 0 && 128 <= g.cfg.litBufsize
    ensures !Overruns(tb, ps, bs, p, g.cfg)
  {
    hide *;
    if Overruns(tb, ps, bs, p, g.cfg) {
      OverrunBits(tb, ps, bs, p, g.cfg);
      WithinPrefix(ps, |bs|, g);
      StoredLevel(g.cfg);
      StoredAligned(tb, ps[..|bs|], bs, p, g);
      WithinAt(ps, |bs|, g);
      StoredFitsExactly(ps[|bs|], g, 0);
    }
  }

  lemma StoredLevel(c: Config)
    requires !MakesTokens(c)
    ensures c.level == 0
  {
  }

  lemma OverrunBits(tb: Tables, ps: seq<Piece>, bs: seq<Block>, p: nat, c: Config)
    requires Overruns(tb, ps, bs, p, c)
    ensures |bs| < |ps| && BlocksFor(tb, ps[..|bs|], bs)
    ensures !PieceFits(ps[|bs|], c.level, c.litBufsize, (p + |AllBits(tb, ps[..|bs|], bs, p)|) % 8)
  {
    hide BlocksFor, EncodedAs, AllBits, PieceFits;
  }

  lemma WithinPrefix(ps: seq<Piece>, n: nat, g: Limits)
    requires AllWithin(ps, g) && n <= |ps|
    ensures AllWithin(ps[..n], g)
  {
    hide Within;
  }

  /** pending_buf has room in every run: what a caller of deflateInit2 and deflate can check. */
  ghost predicate AlwaysRoom(g: Limits) { Roomy(g) || (!MakesTokens(g.cfg) && !g.partial) }

  lemma NeverOverruns(tb: Tables, ps: seq<Piece>, bs: seq<Block>, g: Limits)
    requires AllWithin(ps, g) && AlwaysRoom(g) && 128 <= g.cfg.litBufsize
    ensures !Overruns(tb, ps, bs, 0, g.cfg)
  {
    hide AllWithin, Overruns;
    if Roomy(g) {
      RoomyNeverOverruns(tb, ps, bs, 0, g);
    } else {
      StoredNeverOverruns(tb, ps, bs, 0, g);
    }
  }

  // ---- The overlay ----

  /** What a caller of deflateInit2 can check: deflate_stored has no tokens, those of deflate_huff
      are short; the fixed codes are short in the smallest window, and for runs; and a run has
      short codes of its own too, which may need a large buffer for their header. */
  predicate NeverOvertakes(g: Limits) {
    || !MakesTokens(g.cfg) || g.cfg.strategy == Z_HUFFMAN_ONLY
    || (g.cfg.strategy == Z_FIXED && g.wSize <= 512)
    || (g.cfg.strategy == Z_RLE && (g.cfg.level == 0 || 1024 <= g.cfg.litBufsize))
  }

  lemma NoneOvertakes(tb: Tables, ps: seq<Piece>, bs: seq<Block>, next: Block, p: nat, g: Limits)
    requires AllWithin(ps, g) && NeverOvertakes(g) && 128 <= g.cfg.litBufsize
    ensures !Overtakes(tb, ps, bs, next, p, g.cfg)
  {
    hide *;
    if Overtakes(tb, ps, bs, next, p, g.cfg) {
      var v := OvertakingPiece(tb, ps, bs, next, p, g.cfg);
      WithinAt(ps, |bs|, g);
      PieceKeepsUp(tb, ps[|bs|], next, v, g);
    }
  }

  lemma OvertakingPiece(tb: Tables, ps: seq<Piece>, bs: seq<Block>, next: Block, p: nat, c: Config)
    returns (v: nat)
    requires Overtakes(tb, ps, bs, next, p, c)
    ensures |bs| < |ps| && v < 8 && Overtaking(tb, ps[|bs|], next, v, c)
  {
    hide BlocksFor, EncodedAs, AllBits, PieceFits, Overtaking;
    v := (p + |AllBits(tb, ps[..|bs|], bs, p)|) % 8;
  }

  lemma PieceKeepsUp(tb: Tables, p: Piece, b: Block, v: nat, g: Limits)
    requires Within(p, g) && NeverOvertakes(g) && 128 <= g.cfg.litBufsize && v < 8
    ensures !Overtaking(tb, p, b, v, g.cfg)
  {
    hide *;
    if Overtaking(tb, p, b, v, g.cfg) {
      if g.cfg.strategy == Z_HUFFMAN_ONLY || !MakesTokens(g.cfg) {
        LiteralPiece(tb, p, b, v, g);
        LiteralsKeepUp(tb, b, v, g.cfg.litBufsize);
      } else if b.FixedBlock? {
        NearPiece(tb, p, b, v, g);
        FixedKeepsUp(tb, b.tokens, v, g.cfg.litBufsize);
        NearFixedKeepsUp(tb, b.tokens, v, g.cfg.litBufsize);
      } else if b.DynamicBlock? {
        RunPiece(tb, p, b, v, g);
        DynamicKeepsUp(tb, b.tokens, b.codes, v, g.cfg.litBufsize);
        RunsKeepUp(tb, b.tokens, b.codes, v, g.cfg.litBufsize);
      } else {
        StoredPiece(tb, p, b, v, g.cfg);
        StoredKeepsUp(tb, b, v, g.cfg.litBufsize);
      }
    }
  }

  lemma LiteralPiece(tb: Tables, p: Piece, b: Block, v: nat, g: Limits)
    requires Within(p, g) && Overtaking(tb, p, b, v, g.cfg) && 128 <= g.cfg.litBufsize
    requires g.cfg.strategy == Z_HUFFMAN_ONLY || !MakesTokens(g.cfg)
    ensures BlockOk(tb, b) && Cheaper(tb, b) && !BlockKeepsUp(tb, b, v, g.cfg.litBufsize)
    ensures !b.StoredBlock? ==> Literals(b.tokens) && |b.tokens| < g.cfg.litBufsize
  {
    hide AllNear, BlockOk, BlockKeepsUp, Cheaper, Literals, Encodes;
    NoLiterals();
  }

  lemma StoredPiece(tb: Tables, p: Piece, b: Block, v: nat, c: Config)
    requires Overtaking(tb, p, b, v, c)
    ensures BlockOk(tb, b) && !BlockKeepsUp(tb, b, v, c.litBufsize)
  {
    hide BlockOk, BlockKeepsUp, Cheaper, Encodes, BlockFor;
  }

  /** A block with the fixed codes in a small window, or of a run. */
  lemma NearPiece(tb: Tables, p: Piece, b: Block, v: nat, g: Limits)
    requires Within(p, g) && Overtaking(tb, p, b, v, g.cfg) && b.FixedBlock? && NeverOvertakes(g)
    requires MakesTokens(g.cfg) && g.cfg.strategy != Z_HUFFMAN_ONLY && 128 <= g.cfg.litBufsize
    ensures AllCoded(tb, FixedLens(), FixedDistLens(), b.tokens) && AllNear(b.tokens, 256)
    ensures |b.tokens| < g.cfg.litBufsize && BlockOk(tb, b) && !BlockKeepsUp(tb, b, v, g.cfg.litBufsize)
  {
    hide TablesOk, AllCoded, BlockKeepsUp, Cheaper, Encodes;
  }

  /** A block with its own codes is one of a run. */
  lemma RunPiece(tb: Tables, p: Piece, b: Block, v: nat, g: Limits)
    requires Within(p, g) && Overtaking(tb, p, b, v, g.cfg) && b.DynamicBlock? && NeverOvertakes(g)
    requires MakesTokens(g.cfg) && g.cfg.strategy != Z_HUFFMAN_ONLY
    ensures CodesFor(tb, b.tokens, b.codes) && AllNear(b.tokens, 1) && |b.tokens| < g.cfg.litBufsize
    ensures g.cfg.litBufsize >= 1024 && AllCoded(tb, b.codes.ll, b.codes.dl, b.tokens) && CodesOk(b.codes)
    ensures BlockOk(tb, b) && !BlockKeepsUp(tb, b, v, g.cfg.litBufsize)
  {
    hide TablesOk, AllCoded, BlockKeepsUp, Cheaper, CodesOk, ItemsFrom, BlOrder, CodesFor, DynamicBits, FixedBits,
      TokensOk;
  }

  lemma NoLiterals()
    ensures Literals([])
  {
  }

  /** At any parameters it takes a piece of more bytes than three quarters of lit_bufsize. */
  lemma OvertakingIsLong(tb: Tables, ps: seq<Piece>, bs: seq<Block>, next: Block, p: nat, c: Config, data: seq<byte>)
    requires Overtakes(tb, ps, bs, next, p, c) && Pieces([], ps, data) && 128 <= c.litBufsize
    ensures |bs| < |ps| && 4 * LenOf(ps[|bs|]) > 3 * c.litBufsize
  {
    hide *;
    var v := OvertakingPiece(tb, ps, bs, next, p, c);
    var prev, out := PieceAt([], ps, data, |bs|);
    StoredPiece(tb, ps[|bs|], next, v, c);
    if 4 * LenOf(ps[|bs|]) <= 3 * c.litBufsize {
      ShortPiece(tb, prev, ps[|bs|], out, next, v, c);
      FewBytesKeepUp(tb, prev, next, v, c.litBufsize);
    }
  }

  lemma {:induction false} PieceAt(before: seq<byte>, ps: seq<Piece>, data: seq<byte>, i: nat)
    returns (prev: seq<byte>, out: seq<byte>)
    requires Pieces(before, ps, data) && i < |ps|
    ensures PieceOk(prev, ps[i], out)
    decreases |ps|
  {
    hide PieceOk;
    var n := |ps| - 1;
    prev, out := data[..|data| - LenOf(ps[n])], data;
    if i < n { prev, out := PieceAt(before, ps[..n], prev, i); }
  }

  lemma ShortPiece(tb: Tables, prev: seq<byte>, p: Piece, out: seq<byte>, b: Block, v: nat, c: Config)
    requires PieceOk(prev, p, out) && Overtaking(tb, p, b, v, c) && 4 * LenOf(p) <= 3 * c.litBufsize
    ensures Cheaper(tb, b)
    ensures !b.StoredBlock? ==>
      AllFit(prev, b.tokens) && 4 * (|ExpandAll(prev, b.tokens)| - |prev|) <= 3 * c.litBufsize
  {
    hide BlockOk, BlockKeepsUp, Cheaper, Encodes, Expand, Fit;
  }

  /** Elsewhere a piece may overtake itself: with Z_FIXED and a window of 32K, a full block of
      long matches far back.  Whatever the costs, the block has the fixed codes. */
  lemma FarPieceOvertakes(tb: Tables, p: Piece, b: Block, c: Config, v: nat)
    requires 128 <= c.litBufsize <= 32768 && c.level > 0 && c.strategy == Z_FIXED && TablesOk(tb)
    requires var n := c.litBufsize - 1; p.Compressed? && p.tokens == Far(n) && p.len == MAX_MATCH * n
    requires Encodes(tb, p, b, c)
    ensures b == FixedBlock(p.tokens) && BlockOk(tb, b) && !BlockKeepsUp(tb, b, v, c.litBufsize)
  {
    hide *;
    var n := c.litBufsize - 1;
    FarOk(n);
    FixedCoded(tb, p.tokens);
    FarIsFixed(tb, p, b, c, n);
    FixedKeepsUp(tb, p.tokens, v, c.litBufsize);
    FarMatchesOvertake(tb, c.litBufsize, n, v + 3);
  }

  lemma FarOk(n: nat)
    ensures TokensOk(Far(n)) && MAX_MATCH == 258
  {
  }

  /** The bytes are too many to be stored. */
  lemma FarIsFixed(tb: Tables, p: Piece, b: Block, c: Config, n: nat)
    requires n >= 127 && c.level > 0 && c.strategy == Z_FIXED && p.Compressed? && p.tokens == Far(n)
    requires p.len == MAX_MATCH * n && Encodes(tb, p, b, c) && TablesOk(tb)
    requires AllCoded(tb, FixedLens(), FixedDistLens(), p.tokens)
    ensures b == FixedBlock(p.tokens)
  {
    hide TablesOk, AllCoded, CodesFor, FixedLens, FixedDistLens, BlockBody, DynamicBits, Far;
    FixedLength(tb, n);
  }

  lemma FixedLength(tb: Tables, n: nat)
    requires TablesOk(tb) && AllCoded(tb, FixedLens(), FixedDistLens(), Far(n))
    ensures FixedBits(tb, Far(n)) <= 31 * n + 7
  {
    hide TablesOk, AllCoded, Far;
    FixedBound(tb, Far(n));
    FixedEnd();
  }

  /** The encoder does not get to the end of it, for any size of the buffer. */
  method FarPieceStops(enc: Encoder, prev: seq<byte>, last: bool, g: Limits) returns (p: Piece, ghost b: Block)
    requires Quiet(enc) && enc.w.pending == 0 && enc.w.biValid == 0 && g.cfg.litBufsize == enc.dBuf.Length
    requires |prev| >= FAR && g.wSize == 32768 && g.cfg.level > 0 && g.cfg.strategy == Z_FIXED
    modifies enc, enc.s, enc.s.heap, enc.s.depth, enc.s.blCount, enc.ltree, enc.dtree, enc.blTree, enc.w,
      enc.w.pendingBuf
    modifies enc.ltree.fc, enc.ltree.dl, enc.dtree.fc, enc.dtree.dl, enc.blTree.fc, enc.blTree.dl, enc.dBuf, enc.lBuf
    ensures p.Compressed? && AllFit(prev, p.tokens) && PieceOk(prev, p, ExpandAll(prev, p.tokens)) && Within(p, g)
    ensures Overtaking(enc.tb, p, b, 0, g.cfg)
  {
    hide *;
    QuietFacts(enc);
    var n := g.cfg.litBufsize - 1;
    FarFits(prev, n);
    FarOk(n);
    p := Compressed(Far(n), None, MAX_MATCH * n, last);
    FarSized(prev, p, g);
    var ok;
    ok, b := EncodePiece(enc, p, g.cfg);
    FarPieceOvertakes(enc.tb, p, b, g.cfg, 0);
    OvertakingIs(enc.tb, p, b, 0, g.cfg);
  }

  lemma FarSized(prev: seq<byte>, p: Piece, g: Limits)
    requires g.cfg.litBufsize > 0 && p.Compressed? && p.buf == None && p.tokens == Far(g.cfg.litBufsize - 1)
    requires p.len == MAX_MATCH * (g.cfg.litBufsize - 1) && TokensOk(p.tokens) && AllFit(prev, p.tokens)
    requires |ExpandAll(prev, p.tokens)| == |prev| + p.len
    requires g.wSize == 32768 && g.cfg.level > 0 && g.cfg.strategy == Z_FIXED && g.cfg.litBufsize <= 32768
    ensures PieceSized(p, g.cfg.litBufsize) && PieceOk(prev, p, ExpandAll(prev, p.tokens)) && Within(p, g)
    ensures forall v: nat :: PieceFits(p, g.cfg.level, g.cfg.litBufsize, v)
  {
    hide AllFit, ExpandAll, TokensOk;
  }

  lemma {:induction false} FarFits(out: seq<byte>, n: nat)
    requires |out| >= FAR
    ensures AllFit(out, Far(n)) && |ExpandAll(out, Far(n))| == |out| + MAX_MATCH * n && TokensOk(Far(n))
    decreases n
  {
    hide CopyMatch;
    if n > 0 {
      assert Far(n)[1..] == Far(n - 1);
      FarFits(Expand(out, Far(n)[0]), n - 1);
    }
  }
}
