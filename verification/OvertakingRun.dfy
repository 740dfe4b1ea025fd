/** A run in which the codes of a block overtake its tokens (deps/libz/deflate.c: deflate_slow;
    deps/libz/trees.c: compress_block). */
module OvertakingRun {
  import opened Bits
  import opened RollingHash
  import opened Tokens
  import opened BlockFormat
  import opened Emission
  import opened FarRuns
  import opened FarInput
  import opened LzState
  import opened Tally
  import opened LazyMatching
  import opened DeflateCalls
  import opened Encoder
  import opened PieceWriter
  import opened RoundTrip
  import opened PendingBuffer

  /** Two calls: 96 blocks and a flush, then more blocks than fit into the token buffer. */
  const FIRST: nat := 24769
  const ALL: nat := 57797

  /** With any level of deflate_slow, Z_FIXED, a window of 32K and the smallest buffers. */
  method FarOvertakes(level: nat, wrap: bool)
    returns (d: Deflater, enc: Encoder, ok: bool, ghost bs: seq<Block>, ghost next: Block)
    requires 4 <= level <= 9
    ensures d.Valid() && d.finished && d.s.cfg == Configure(level, Z_FIXED, 128) && d.s.wSize == 32768
    ensures d.s.total == Data(ALL)
    ensures d.calls == [Call(Data(ALL)[..FIRST], Z_SYNC_FLUSH), Call(Data(ALL)[FIRST..], Z_FINISH)]
    ensures !ok && Overtakes(enc.tb, d.s.sent, bs, next, 0, d.s.cfg)
  {
    hide *;
    Sizes(level);
    d := DeflateInit(level, Z_FIXED, 15, 1, true);
    var data := Data(ALL);
    var x, y := data[..FIRST], data[FIRST..];
    assert x + y == data && [] + x == x;
    StandingParts(d.s, []);
    var ret, done := d.Deflate(x, Z_SYNC_FLUSH);
    assert d.s.total + [] == d.s.total;
    Begun(d, x, y);
    ghost var sent := d.s.sent;
    ret, done := d.Deflate(y, Z_FINISH);
    assert d.s.total + [] == d.s.total;
    enc := NewEncoder(128);
    QuietFacts(enc);
    var stream;
    ghost var mark;
    ok, stream, mark, bs, next := WriteStream(d, enc, wrap);
    FinishedFacts(d);
    ghost var c, g := d.s.cfg, Limits(d.s.cfg, d.s.wSize, d.s.partial);
    if ok { NotWritten(enc.tb, d.s.sent, bs, c, sent); }
    RoomWithLevel(g);
    RoomyNeverOverruns(enc.tb, d.s.sent, bs, 0, g);
  }

  lemma Sizes(level: nat)
    requires 4 <= level <= 9
    ensures Pow2(7) == 128 && Pow2(15) == 32768 && FIRST == FAR + 1 && ALL == FIRST + MAX_MATCH * 127 + 262
    ensures FIRST == 24769 && ALL == 57797 && MIN_LOOKAHEAD == 262 && MAX_MATCH == 258
    ensures var c := Configure(level, Z_FIXED, 128);
      FunctionOf(c) == deflate_slow && 2 < c.lazy <= MAX_MATCH && c.level > 0 && c.strategy == Z_FIXED
        && c.litBufsize == 128
  {
    Pow2Values();
    assert level == 4 || level == 5 || level == 6 || level == 7 || level == 8 || level == 9;
  }

  /** After the first call the copies begin. */
  lemma Begun(d: Deflater, x: seq<byte>, y: seq<byte>)
    requires d.Valid() && Standing(d.s, x) && d.s.wSize == 32768 && d.s.cfg.litBufsize == 128
    requires 2 < d.s.cfg.lazy <= MAX_MATCH && |x| == FAR + 1 && |y| == MAX_MATCH * 127 + 262
    requires x + y == Data(|x| + |y|)
    ensures FarCall(d.s, y)
  {
    hide *;
    Fits();
    StandingParts(d.s, x);
    var strstart := Stands(d, x);
    DataCopiesFrom(d.s.k, |x| + |y|, 127);
    FarCallIs(d.s, y);
  }

  lemma Fits()
    ensures FAR == 24768 && MAX_MATCH == 258 && MIN_LOOKAHEAD == 262
  {
  }

  lemma Stands(d: Deflater, x: seq<byte>) returns (strstart: nat)
    requires d.Valid() && Standing(d.s, x)
    ensures strstart == d.s.strstart == |x| && HashingOk(d.s.k) && d.s.Shape()
  {
    hide *;
    StandingParts(d.s, x);
    CallParts(d);
    SlowStands(d.s);
    LookaheadIs(d.s);
    SlowFacts(d.s);
    ShapeHash(d.s);
    strstart := d.s.strstart;
  }

  lemma SlowStands(s: Lz)
    requires DeflateReady(s) && FunctionOf(s.cfg) == deflate_slow
    ensures SlowReady(s)
  {
    hide SlowReady;
  }

  lemma ShapeHash(s: Lz)
    requires s.Shape()
    ensures HashingOk(s.k)
  {
    hide HashingOk;
  }

  lemma FarCallIs(s: Lz, y: seq<byte>)
    requires Standing(s, s.hist) && s.wSize == 32768 && |s.hist| + |y| + MIN_LOOKAHEAD < 65536
    requires 2 < s.cfg.lazy <= MAX_MATCH && s.cfg.litBufsize == 128
    requires CopiesFrom(s.k, s.hist + y, s.strstart, 127, 32506)
    ensures FarCall(s, y)
  {
    hide Standing, CopiesFrom;
  }

  lemma RoomWithLevel(g: Limits)
    requires g.cfg.level > 0
    ensures Roomy(g)
  {
  }

  /** The block of copies cannot be among those that were written. */
  lemma NotWritten(tb: Tables, ps: seq<Piece>, bs: seq<Block>, c: Config, sent: seq<Piece>)
    requires TablesOk(tb) && BlocksFor(tb, ps, bs) && FarBlock(c, sent, ps)
    requires 128 <= c.litBufsize <= 32768 && c.level > 0 && c.strategy == Z_FIXED
    ensures !EncodedAs(tb, ps, bs, 0, c)
  {
    hide *;
    FarBlockIs(c, sent, ps);
    var i := |sent|;
    if EncodedAs(tb, ps, bs, 0, c) {
      EncodedAt(tb, ps, bs, 0, c, i);
      FarPieceOvertakes(tb, ps[i], bs[i], c, (0 + |AllBits(tb, ps[..i], bs[..i], 0)|) % 8);
    }
  }

  lemma FarBlockIs(c: Config, sent: seq<Piece>, ps: seq<Piece>)
    requires FarBlock(c, sent, ps) && c.litBufsize > 0
    ensures |sent| < |ps| && ps[|sent|].Compressed? && ps[|sent|].tokens == Far(c.litBufsize - 1)
    ensures ps[|sent|].len == MAX_MATCH * (c.litBufsize - 1)
  {
  }
}
