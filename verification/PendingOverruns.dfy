/** Runs in which pending_buf has no room (deps/libz/deflate.c: deflate_rle, deflate_stored;
    deps/libz/trees.c: copy_block): there is one for every configuration of level 0 that the
    condition Roomy leaves out. */
module PendingOverruns {
  import opened Bits
  import opened FixedCodes
  import opened Tokens
  import opened BlockFormat
  import opened Emission
  import opened LzState
  import opened Tally
  import opened RunLengths
  import opened LongRuns
  import opened PlainMatching
  import opened StoredMatching
  import opened DeflateCalls
  import opened Encoder
  import opened PieceWriter
  import opened RoundTrip
  import opened PendingBuffer
  import opened EndToEnd

  // ---- deflate_stored ----

  function Aligns(n: nat): (ps: seq<Piece>)
    ensures |ps| == n && forall i :: 0 <= i < n ==> ps[i] == Align
  {
    seq(n, i => Align)
  }

  /** A partial flush adds ten bits. */
  lemma {:induction false} AlignBits(tb: Tables, ps: seq<Piece>, bs: seq<Block>)
    requires BlocksFor(tb, ps, bs) && forall i :: 0 <= i < |ps| ==> ps[i] == Align
    ensures |AllBits(tb, ps, bs, 0)| == 10 * |ps|
    decreases |ps|
  {
    hide BlockOk, PieceBits;
    if ps != [] {
      var n := |ps| - 1;
      AlignBits(tb, ps[..n], bs[..n]);
      assert ps[n] == Align && BlockFor(ps[n], bs[n]);
      AlignSize(tb, bs[n], |AllBits(tb, ps[..n], bs[..n], 0)|);
    }
  }

  lemma AlignSize(tb: Tables, b: Block, p: nat)
    requires BlockOk(tb, b) && b == FixedBlock([])
    ensures |PieceBits(tb, b, false, p)| == 10
  {
    hide TablesOk, FixedLens, FixedDistLens, ToBits, AllCoded;
    EndSize();
  }

  lemma EndSize()
    ensures |FixedLens()| == 288 && FixedLens()[END_BLOCK] == 7
  {
  }

  /** After three partial flushes six bits are held, and the largest block needs a byte more
      than there is. */
  lemma SixBits(tb: Tables, ps: seq<Piece>, bs: seq<Block>, c: Config)
    requires BlocksFor(tb, ps, bs) && LargestFirst(c, Aligns(3), ps) && 128 <= c.litBufsize <= 16384 && c.level == 0
    ensures !EncodedAs(tb, ps, bs, 0, c)
  {
    hide *;
    LargestIs(c, Aligns(3), ps);
    BlocksSize(tb, ps, bs);
    if EncodedAs(tb, ps, bs, 0, c) {
      EncodedAt(tb, ps, bs, 0, c, 3);
      AlignBits(tb, ps[..3], bs[..3]);
      OneByteOver(ps[3], c.litBufsize);
    }
  }

  lemma BlocksSize(tb: Tables, ps: seq<Piece>, bs: seq<Block>)
    requires BlocksFor(tb, ps, bs)
    ensures |ps| == |bs|
  {
    hide BlockOk, BlockFor;
  }

  lemma LargestIs(c: Config, sent: seq<Piece>, ps: seq<Piece>)
    requires LargestFirst(c, sent, ps) && |sent| == 3 && 128 <= c.litBufsize <= 16384
    ensures 3 < |ps| && ps[..3] == sent && ps[3].Copied? && |ps[3].data| == 4 * c.litBufsize - 5
  {
  }

  lemma OneByteOver(p: Piece, lit: nat)
    requires p.Copied? && |p.data| == 4 * lit - 5
    ensures !PieceFits(p, 0, lit, 30 % 8)
  {
  }

  /** Three partial flushes with nothing to compress.  The calls between them are no progress,
      but they let the next one count as a new flush. */
  method FlushThrice(d: Deflater)
    requires d.Valid() && !d.finished && d.s.total == d.s.input == [] && d.s.sent == [] && d.lastFlush == 0
    requires d.calls == []
    requires d.s.ample && FunctionOf(d.s.cfg) == deflate_stored
    modifies d, d.s, d.s.window, d.s.head, d.s.prev
    ensures d.Valid() && !d.finished && d.s.total == d.s.input == [] && d.s.sent == Aligns(3)
    ensures d.calls == EmptyFlushes(3)
  {
    hide *;
    Ranks();
    for i := 0 to 3
      invariant d.Valid() && !d.finished && d.s.total == d.s.input == [] && d.lastFlush == 0
      invariant d.s.sent == Aligns(i) && d.calls == EmptyFlushes(i)
    {
      assert d.s.total + d.s.input == [] && d.s.input + [] == [];
      var ret, done := d.Deflate([], Z_PARTIAL_FLUSH);
      AlignsMore(i);
      assert d.s.input + [] == [];
      ret, done := d.Deflate([], Z_NO_FLUSH);
    }
  }

  /** Partial flushes of nothing, and a call after each that asks for none. */
  function EmptyFlushes(n: nat): seq<Call> {
    if n == 0 then [] else EmptyFlushes(n - 1) + [Call([], Z_PARTIAL_FLUSH)] + [Call([], Z_NO_FLUSH)]
  }

  lemma AlignsMore(n: nat)
    ensures Aligns(n + 1) == Aligns(n) + [Align]
    ensures EmptyFlushes(n + 1) == EmptyFlushes(n) + [Call([], Z_PARTIAL_FLUSH)] + [Call([], Z_NO_FLUSH)]
  {
  }

  lemma Ranks()
    ensures FlushCode(Z_NO_FLUSH) == 0 && FlushRank(0) == 0 && FlushRank(FlushCode(Z_PARTIAL_FLUSH)) == 2
    ensures Aligns(0) == [] && EmptyFlushes(0) == []
  {
  }

  /** deflate_stored after three partial flushes: the largest block is one byte too large. */
  method StoredOverrun(strategy: Strategy, windowBits: nat, memLevel: nat, wrap: bool)
    returns (d: Deflater, enc: Encoder, ok: bool, ghost bs: seq<Block>)
    requires 8 <= windowBits <= 15 && 1 <= memLevel <= 9 && strategy != Z_RLE
    requires !Roomy(InitLimits(0, strategy, windowBits, memLevel, true))
    ensures d.Valid() && d.finished && d.s.cfg == Configure(0, strategy, Pow2(memLevel + 6))
    ensures d.s.wSize == Pow2(if windowBits == 8 then 9 else windowBits)
    ensures d.s.total == LongRuns.Same(0, 4 * Pow2(memLevel + 6) - 5)
    ensures d.calls == EmptyFlushes(3) + [Call(d.s.total, Z_FINISH)]
    ensures !ok && Overruns(enc.tb, d.s.sent, bs, 0, d.s.cfg)
  {
    hide *;
    d := DeflateInit(0, strategy, windowBits, memLevel, true);
    var lit := d.s.cfg.litBufsize;
    SmallBuffer(strategy, windowBits, memLevel);
    InitSizes(if windowBits == 8 then 9 else windowBits, memLevel);
    FlushThrice(d);
    var data := LongRuns.Same(0, 4 * lit - 5);
    assert [] + data == data;
    ghost var c, wSize, sent := d.s.cfg, d.s.wSize, d.s.sent;
    var ret, done := d.Deflate(data, Z_FINISH);
    assert d.s.total + [] == d.s.total;
    StoredOpens(c, wSize, data, sent, d.s.sent);
    enc := NewEncoder(lit);
    var stream;
    ghost var mark, next;
    ok, stream, mark, bs, next := WriteStream(d, enc, wrap);
    if ok { SixBits(enc.tb, d.s.sent, bs, c); }
    FinishedFacts(d);
    NoTokens(Limits(d.s.cfg, d.s.wSize, d.s.partial));
    NoneOvertakes(enc.tb, d.s.sent, bs, next, 0, Limits(d.s.cfg, d.s.wSize, d.s.partial));
  }

  lemma NoTokens(g: Limits)
    requires FunctionOf(g.cfg) == deflate_stored
    ensures NeverOvertakes(g)
  {
  }

  /** What it means that Roomy does not hold. */
  lemma SmallBuffer(strategy: Strategy, windowBits: nat, memLevel: nat)
    requires 8 <= windowBits <= 15 && 1 <= memLevel <= 9
    requires !Roomy(InitLimits(0, strategy, windowBits, memLevel, true))
    ensures var lit, wSize := Pow2(memLevel + 6), Pow2(if windowBits == 8 then 9 else windowBits);
      && 4 * lit <= 2 * wSize && 128 <= lit <= 16384 && wSize <= 32768
    ensures var c := Configure(0, strategy, Pow2(memLevel + 6));
      FunctionOf(c) == (if strategy == Z_RLE then deflate_rle else deflate_stored) && c.level == 0
        && c.strategy == strategy
  {
    hide Pow2;
    var b := if windowBits == 8 then 9 else windowBits;
    InitSizes(b, memLevel);
    Pow2Four(memLevel + 6);
    if b + 1 < memLevel + 8 {
      Pow2Monotone(b + 2, memLevel + 8);
      Pow2Four(b);
    } else {
      Pow2Monotone(memLevel + 8, b + 1);
      Pow2Four(b);
    }
  }

  lemma Pow2Four(n: nat)
    ensures Pow2(n + 1) == 2 * Pow2(n) && Pow2(n + 2) == 4 * Pow2(n)
  {
  }

  lemma StoredOpens(c: Config, wSize: nat, h: seq<byte>, sent: seq<Piece>, sent': seq<Piece>)
    requires Opens(c, wSize, h, sent, sent') && FunctionOf(c) == deflate_stored && |h| == 4 * c.litBufsize - 5
    requires 4 * c.litBufsize <= 2 * wSize && 128 <= c.litBufsize <= 16384
    ensures LargestFirst(c, sent, sent')
  {
    hide FunctionOf, InWindow, FirstFull;
  }

  // ---- deflate_rle ----

  /** deflate_rle at level 0: the first block has four bytes for each of its tokens. */
  method RleOverrun(windowBits: nat, memLevel: nat, wrap: bool)
    returns (d: Deflater, enc: Encoder, ok: bool, ghost bs: seq<Block>)
    requires 8 <= windowBits <= 15 && 1 <= memLevel <= 9
    requires !Roomy(InitLimits(0, Z_RLE, windowBits, memLevel, true))
    ensures d.Valid() && d.finished && d.s.cfg == Configure(0, Z_RLE, Pow2(memLevel + 6)) && !d.s.partial
    ensures d.s.wSize == Pow2(if windowBits == 8 then 9 else windowBits)
    ensures d.s.total == Runs(Pow2(memLevel + 5) + 1, Pow2(memLevel + 5) - 64) && d.calls == [Call(d.s.total, Z_FINISH)]
    ensures !ok && Overruns(enc.tb, d.s.sent, bs, 0, d.s.cfg)
  {
    hide *;
    d := DeflateInit(0, Z_RLE, windowBits, memLevel, true);
    var lit := d.s.cfg.litBufsize;
    SmallBuffer(Z_RLE, windowBits, memLevel);
    InitSizes(if windowBits == 8 then 9 else windowBits, memLevel);
    var q := lit / 2 - 64;
    HalfSize(memLevel);
    FirstBlock(q);
    var data := Runs(65 + q, q);
    assert [] + data == data;
    ghost var c, wSize := d.s.cfg, d.s.wSize;
    var ret, done := d.Deflate(data, Z_FINISH);
    assert d.s.total + [] == d.s.total;
    RleOpens(c, wSize, data, d.s.sent);
    enc := NewEncoder(lit);
    var stream;
    ghost var mark, next;
    ok, stream, mark, bs, next := WriteStream(d, enc, wrap);
    if ok { FullBlock(enc.tb, d.s.sent, bs, c, data); }
    FullIs(c, data, d.s.sent);
    if !ok { FirstOver(enc.tb, d.s.sent, bs, next, c); }
  }

  /** Without room for the first piece, nothing else can fail. */
  lemma FirstOver(tb: Tables, ps: seq<Piece>, bs: seq<Block>, next: Block, c: Config)
    requires ps != [] && forall v: nat :: !PieceFits(ps[0], c.level, c.litBufsize, v)
    ensures !Overtakes(tb, ps, bs, next, 0, c)
  {
    hide BlocksFor, EncodedAs, AllBits, PieceFits, Overtaking;
    if Overtakes(tb, ps, bs, next, 0, c) && |bs| > 0 {
      BlocksSize(tb, ps[..|bs|], bs);
      EncodedAt(tb, ps[..|bs|], bs, 0, c, 0);
    }
  }

  lemma HalfSize(memLevel: nat)
    requires memLevel >= 1
    ensures Pow2(memLevel + 6) == 2 * (Pow2(memLevel + 6) / 2 - 64) + 128
    ensures Pow2(memLevel + 6) / 2 == Pow2(memLevel + 5) >= 64
  {
    Pow2Monotone(6, memLevel + 5);
    assert Pow2(6) == 64;
  }

  lemma RleOpens(c: Config, wSize: nat, h: seq<byte>, sent: seq<Piece>)
    requires Opens(c, wSize, h, [], sent) && FunctionOf(c) == deflate_rle && |h| == 4 * c.litBufsize <= 2 * wSize
    requires 128 <= c.litBufsize && TokensEnd(h, c.litBufsize - 2) + MAX_MATCH < |h|
    ensures FirstFull(c, h, [], sent)
  {
    hide FunctionOf, LargestFirst, FirstFull, TokensEnd;
  }

  lemma FullBlock(tb: Tables, ps: seq<Piece>, bs: seq<Block>, c: Config, h: seq<byte>)
    requires BlocksFor(tb, ps, bs) && FirstFull(c, h, [], ps)
    requires c.litBufsize >= 2 && TokensEnd(h, c.litBufsize - 1) == 4 * c.litBufsize - 1 && c.level == 0
    ensures !EncodedAs(tb, ps, bs, 0, c)
  {
    hide *;
    FullIs(c, h, ps);
    BlocksSize(tb, ps, bs);
    if EncodedAs(tb, ps, bs, 0, c) {
      EncodedAt(tb, ps, bs, 0, c, 0);
    }
  }

  lemma FullIs(c: Config, h: seq<byte>, ps: seq<Piece>)
    requires FirstFull(c, h, [], ps) && TokensEnd(h, c.litBufsize - 1) == 4 * c.litBufsize - 1
    ensures ps != [] && forall v: nat :: !PieceFits(ps[0], 0, c.litBufsize, v)
  {
    hide TokensEnd;
  }
}
