/** deflate (deps/libz/deflate.c): the choice of a strategy, and flushing, over
    any sequence of calls. */
module DeflateCalls {
  import opened Bits
  import opened RollingHash
  import opened HashChains
  import opened Tokens
  import opened Emission
  import opened LzState
  import opened WindowFill
  import opened Tally
  import opened FastMatching
  import opened FarRuns
  import opened LazyMatching
  import opened PlainMatching
  import opened StoredMatching
  import A32 = Adler32

  // ---- Levels and strategies ----

  datatype Function = deflate_stored | deflate_fast | deflate_slow | deflate_rle | deflate_huff

  /** good, lazy, nice and chain of configuration_table. */
  const PARAMETERS: seq<(nat, nat, nat, nat)> := [
    (0, 0, 0, 0), (4, 4, 8, 4), (4, 5, 16, 8), (4, 6, 32, 32), (4, 4, 16, 16), (8, 16, 32, 32),
    (8, 16, 128, 128), (8, 32, 128, 256), (32, 128, 258, 1024), (32, 258, 258, 4096)]

  function Configure(level: nat, strategy: Strategy, litBufsize: nat): Config
    requires level <= 9
  {
    var (good, lazy, nice, chain) := PARAMETERS[level];
    Config(level, strategy, good, lazy, nice, chain, litBufsize)
  }

  /** The function for a level and a strategy. */
  function FunctionOf(c: Config): Function {
    if c.strategy == Z_HUFFMAN_ONLY then deflate_huff
    else if c.strategy == Z_RLE then deflate_rle
    else if c.level == 0 then deflate_stored
    else if c.level <= 3 then deflate_fast
    else deflate_slow
  }

  /** Every level that searches the chains allows for four links or more. */
  lemma ConfigureOk(level: nat, strategy: Strategy, litBufsize: nat)
    requires level <= 9 && 128 <= litBufsize <= 32768
    ensures BufferOk(Configure(level, strategy, litBufsize))
    ensures level > 0 && strategy != Z_HUFFMAN_ONLY && strategy != Z_RLE ==>
      ConfigOk(Configure(level, strategy, litBufsize))
  {
    assert level == 1 || level == 2 || level == 3 || level == 4 || level == 5 || level == 6 || level == 7
      || level == 8 || level == 9 || level == 0;
  }

  /** The state that the function in use keeps between two calls. */
  ghost predicate DeflateReady(s: Lz)
    reads s, s.window, s.head, s.prev
  {
    match FunctionOf(s.cfg)
    case deflate_stored => StoredReady(s)
    case deflate_fast => FastReady(s)
    case deflate_slow => SlowReady(s)
    case deflate_rle => PlainReady(s)
    case deflate_huff => HuffReady(s)
  }

  /** Everything is sent, and nothing waits. */
  ghost predicate Resting(s: Lz)
    reads s
  {
    Drained(s) && (FunctionOf(s.cfg) == deflate_slow ==> !s.matchAvailable)
  }

  /** No byte that was read waits to be sent. */
  ghost predicate AllSent(s: Lz)
    reads s
  {
    s.lookahead == 0 && s.tokens == [] && s.blockStart == s.strstart
  }

  /** What the first block is, when it is full: for deflate_stored, a block of the largest size;
      for deflate_rle, as many tokens as there is room for. */
  ghost predicate Opens(c: Config, wSize: nat, h: seq<byte>, sent: seq<Piece>, sent': seq<Piece>) {
    && (FunctionOf(c) == deflate_stored && Fills(c, wSize, h) ==> LargestFirst(c, sent, sent'))
    && (FunctionOf(c) == deflate_rle && InWindow(c, wSize, h) ==> FirstFull(c, h, sent, sent'))
  }

  lemma OpensStays(c: Config, wSize: nat, h: seq<byte>, sent: seq<Piece>, sent1: seq<Piece>, sent2: seq<Piece>)
    requires Opens(c, wSize, h, sent, sent1) && sent1 <= sent2
    ensures Opens(c, wSize, h, sent, sent2)
  {
    hide InWindow, FunctionOf, MaxBlock;
  }

  /** Before anything is read, all positions are zero. */
  lemma NothingRead(s: Lz)
    requires DeflateReady(s) && s.total == []
    ensures FunctionOf(s.cfg) == deflate_stored ==> Begins(s)
    ensures FunctionOf(s.cfg) == deflate_rle ==> FirstTokens(s, s.input, s.sent)
    ensures s.strstart == s.lookahead == 0
  {
    hide Rolling, Chained, Windowed, HashingOk, A32.Adler, Found, Pieces, AllNear, AllWithin;
    assert s.hist + s.input == s.input;
    if FunctionOf(s.cfg) == deflate_rle { ExpandGrows([], s.tokens); }
  }

  /** deflate_slow has read h into one window, and sent it. */
  ghost predicate Standing(s: Lz, h: seq<byte>)
    reads s
  {
    && FunctionOf(s.cfg) == deflate_slow && InOne(s, h) && s.input == [] && s.lookahead == 0 && s.tokens == []
    && s.blockStart == s.strstart && !s.matchAvailable && s.matchLength == 2
    && s.insert == if s.strstart < 2 then s.strstart else 2
  }

  lemma StandingParts(s: Lz, h: seq<byte>)
    requires Standing(s, h)
    ensures FunctionOf(s.cfg) == deflate_slow && s.input == [] && s.lookahead == 0 && s.tokens == []
    ensures s.blockStart == s.strstart && !s.matchAvailable && s.matchLength == 2
    ensures s.insert == (if s.strstart < 2 then s.strstart else 2) && s.base == 0 && s.hist == h
    ensures |h| + MIN_LOOKAHEAD < 2 * s.wSize
    ensures forall p: nat :: p < s.base + s.strstart && p + 2 < |s.hist| ==> p in s.ins
  {
    assert s.hist + [] == s.hist;
  }

  lemma StandingIs(s: Lz, h: seq<byte>)
    requires FunctionOf(s.cfg) == deflate_slow && s.input == [] && s.lookahead == 0 && s.tokens == []
    requires s.blockStart == s.strstart && !s.matchAvailable && s.matchLength == 2
    requires s.insert == (if s.strstart < 2 then s.strstart else 2) && s.base == 0 && s.hist == h
    requires |h| + MIN_LOOKAHEAD < 2 * s.wSize
    requires forall p: nat :: p < s.base + s.strstart && p + 2 < |s.hist| ==> p in s.ins
    ensures Standing(s, h)
  {
    assert s.hist + [] == s.hist;
  }

  lemma StandingFrom(s: Lz, h: seq<byte>)
    requires FunctionOf(s.cfg) == deflate_slow && InOne(s, h) && Drained(s) && !s.matchAvailable && SlowReady(s)
    requires s.insert == if s.strstart < 2 then s.strstart else 2
    ensures Standing(s, h)
  {
    hide Chained, Rolling, Windowed, HashingOk, A32.Adler, Found, Accounts, InOne;
  }

  /** The function for the level and strategy. */
  method Compress(s: Lz, flush: FlushMode) returns (r: BlockState)
    requires DeflateReady(s) && Unfinished(s.sent)
    modifies s, s.window, s.head, s.prev
    ensures DeflateReady(s) && s.total + s.input == old(s.total + s.input)
    ensures (Finishing(r) ==> flush == Z_FINISH) && (r == block_done ==> flush != Z_FINISH)
    ensures (r == need_more ==> Blocked(s, flush)) && (r == finish_started ==> s.outFull)
    ensures Finishing(r) || r == block_done ==> Resting(s) && flush != Z_NO_FLUSH
    ensures if Finishing(r) then Closed(s.sent) else Unfinished(s.sent)
    ensures s.past == old(s.past) && s.before == old(s.before) && s.partial == old(s.partial)
    ensures old(s.total) == [] ==> Opens(s.cfg, s.wSize, old(s.input), old(s.sent), s.sent)
    ensures FunctionOf(s.cfg) == deflate_stored && old(s.total) == [] && old(s.input) == [] && r == block_done ==>
      s.sent == old(s.sent)
    ensures old(s.sent) <= s.sent
    ensures FunctionOf(s.cfg) == deflate_slow && old(InOne(s, s.hist + s.input)) && r == block_done ==>
      Standing(s, old(s.hist + s.input))
    ensures FunctionOf(s.cfg) == deflate_slow && old(FarStart(s, s.hist + s.input)) ==>
      FarBlock(s.cfg, old(s.sent), s.sent)
  {
    hide StoredReady, FastReady, SlowReady, PlainReady, HuffReady, Unfinished, Closed, FirstTokens, FirstFull,
      InWindow, LargestFirst, Begins, MaxBlock, InOne, FarStart, FarBlock, Standing;
    ghost var h, one := s.hist + s.input, InOne(s, s.hist + s.input);
    if s.total == [] { NothingRead(s); }
    match FunctionOf(s.cfg)
    case deflate_stored => r := DeflateStored(s, flush);
    case deflate_fast => r := DeflateFast(s, flush);
    case deflate_slow =>
      r := DeflateSlow(s, flush);
      if one && r == block_done { StandingFrom(s, h); }
    case deflate_rle => r := DeflateRle(s, flush);
    case deflate_huff => r := DeflateHuff(s, flush);
  }

  // ---- Flushing ----

  /** An empty stored block, or an empty fixed block. */
  lemma MarkWritten(total: seq<byte>, past: seq<byte>, hist: seq<byte>, sent: seq<Piece>, before: seq<Piece>,
                    since: seq<Piece>, begin: int, tokens: seq<Token>, end: int, limit: int, g: Limits, p: Piece)
    requires Accounts(total, past, hist, sent, before, since, begin, tokens, end, limit, g)
    requires (p == Marker || p == Align)
    ensures var g' := g.(partial := g.partial || p == Align);
      Accounts(total, past, hist, sent + [p], before, since + [p], begin, tokens, end, limit, g')
  {
    hide Pieces, AllNear, Spells;
    PiecesPush([], since, hist[..begin], p, hist[..begin]);
    assert before + since + [p] == before + (since + [p]);
  }

  /** At a full flush all that was sent becomes the past. */
  lemma PastWritten(total: seq<byte>, past: seq<byte>, hist: seq<byte>, sent: seq<Piece>, before: seq<Piece>,
                    since: seq<Piece>, end: int, limit: int, g: Limits)
    requires Accounts(total, past, hist, sent, before, since, end, [], end, limit, g) && end == |hist|
    requires sent != [] && sent[|sent| - 1] == Marker
    ensures Accounts(total, total, [], sent, sent, [], 0, [], 0, limit, g)
  {
    hide Pieces, AllNear, Spells;
    PiecesJoin(past, before, since, hist[..end]);
    assert hist[..end] == hist;
    assert total + [] == total && sent + [] == sent;
    var none: seq<byte> := [];
    assert none[..0] == [];
    PiecesNone();
    SpellsNone([], 0);
  }

  lemma PiecesNone()
    ensures Pieces([], [], [])
  {
  }

  /** What the functions need when everything is sent. */
  ghost predicate AtRest(s: Lz)
    reads s, s.window, s.head, s.prev
  {
    && Steady(s) && BufferOk(s.cfg) && s.adler as nat == A32.Adler(s.total) && Drained(s)
    && Out(s, s.base + s.strstart, 1)
    && Calm(s.cfg, s.matchLength, s.prevLength, s.matchAvailable, s.top, s.insert)
  }

  ghost predicate Calm(c: Config, matchLength: nat, prevLength: nat, matchAvailable: bool, top: nat, insert: nat) {
    match FunctionOf(c)
    case deflate_stored => top == 0 && insert == 0
    case deflate_fast => ConfigOk(c) && matchLength < MIN_MATCH && prevLength == 2
    case deflate_slow => ConfigOk(c) && matchLength == 2 && !matchAvailable
    case _ => true
  }

  lemma ToRest(s: Lz)
    requires DeflateReady(s) && Resting(s)
    ensures AtRest(s)
  {
    hide Chained, Rolling, Windowed, HashingOk, Accounts, A32.Adler, Settled, Found;
    match FunctionOf(s.cfg)
    case deflate_stored => OutEnd(s, s.base + s.blockStart, 1);
    case deflate_slow => OutLimit(s, s.base + s.strstart, s.cfg.litBufsize - 1, 1);
    case _ => OutLimit(s, s.base + s.strstart, s.cfg.litBufsize - 1, 1);
  }

  lemma FromRest(s: Lz)
    requires AtRest(s)
    ensures DeflateReady(s) && Resting(s)
  {
    hide Chained, Rolling, Windowed, HashingOk, Accounts, A32.Adler, Settled, Found;
    OutLimit(s, s.base + s.strstart, 1, s.cfg.litBufsize - 1);
  }

  /** _tr_stored_block without data, or _tr_align. */
  method Mark(s: Lz, p: Piece)
    requires AtRest(s) && Unfinished(s.sent) && (p == Marker || p == Align)
    modifies s`sent, s`since, s`partial
    ensures AtRest(s) && Unfinished(s.sent) && s.sent == old(s.sent) + [p]
    ensures s.partial == (old(s.partial) || p == Align)
  {
    hide Chained, Rolling, Windowed, HashingOk, Accounts, A32.Adler, Settled, Unfinished;
    MarkWritten(s.total, s.past, s.hist, s.sent, s.before, s.since, s.base + s.blockStart, s.tokens,
      s.base + s.strstart, 1, LimitsOf(s), p);
    SentOne(s.sent, p);
    s.sent, s.since := s.sent + [p], s.since + [p];
    s.partial := s.partial || p == Align;
  }

  /** CLEAR_HASH */
  method ClearHash(head: array<nat>)
    modifies head
    ensures forall i :: 0 <= i < head.Length ==> head[i] == 0
  {
    for i := 0 to head.Length
      invariant forall j :: 0 <= j < i ==> head[j] == 0
    {
      head[i] := 0;
    }
  }

  ghost method NewPast(s: Lz)
    modifies s`past, s`before, s`since, s`hist, s`base, s`ins, s`top
    ensures s.past == s.total && s.before == s.sent && s.since == [] && s.hist == [] && s.base == 0 && s.ins == {}
    ensures s.top == 0
  {
    s.past, s.before, s.since := s.total, s.sent, [];
    s.hist, s.base, s.ins, s.top := [], 0, {}, 0;
  }

  /** Forget history: later matches cannot reach before this point. */
  method Forget(s: Lz)
    requires AtRest(s) && s.sent != [] && s.sent[|s.sent| - 1] == Marker
    modifies s`strstart, s`blockStart, s`insert, s`past, s`before, s`since, s`hist, s`base, s`ins, s`top, s.head
    ensures AtRest(s) && s.past == s.total == old(s.total) && s.before == s.sent == old(s.sent)
    ensures s.hist == [] && s.base == 0 && s.strstart == 0 && s.input == old(s.input)
  {
    hide *;
    RestFacts(s);
    DrainedFacts(s);
    PastWritten(s.total, s.past, s.hist, s.sent, s.before, s.since, s.base + s.strstart, 1,
      Limits(s.cfg, s.wSize, s.partial));
    ClearHash(s.head);
    ClearChained(s.k, s.head[..], s.prev[..], s.wBits);
    WindowEmpty(s.window[..]);
    s.strstart, s.blockStart, s.insert := 0, 0, 0;
    NewPast(s);
    ClearDrained(s);
    Forgotten(s);
  }

  lemma DrainedFacts(s: Lz)
    requires Drained(s)
    ensures s.input == [] && s.lookahead == 0 && s.tokens == []
  {
  }

  lemma ClearDrained(s: Lz)
    requires s.input == [] && s.lookahead == 0 && s.tokens == [] && s.blockStart == s.strstart
    ensures Drained(s)
  {
  }

  lemma RestFacts(s: Lz)
    requires AtRest(s)
    ensures s.Shape() && BufferOk(s.cfg) && s.adler as nat == A32.Adler(s.total) && Drained(s)
    ensures s.ample ==> !s.outFull
    ensures s.head.Length == Pow2(s.k.bits) && s.prev.Length == Pow2(s.wBits)
    ensures Accounts(s.total, s.past, s.hist, s.sent, s.before, s.since, s.base + s.strstart, [],
              s.base + s.strstart, 1, Limits(s.cfg, s.wSize, s.partial))
    ensures s.base + s.strstart == |s.hist|
    ensures Calm(s.cfg, s.matchLength, s.prevLength, s.matchAvailable, s.top, s.insert)
    ensures Calm(s.cfg, s.matchLength, s.prevLength, s.matchAvailable, 0, 0)
  {
    hide Chained, Rolling, Windowed, HashingOk, Accounts, A32.Adler;
  }

  lemma Forgotten(s: Lz)
    requires s.Shape() && BufferOk(s.cfg) && s.adler as nat == A32.Adler(s.total) && Drained(s)
    requires s.strstart == s.insert == s.base == s.top == 0 && s.hist == [] && s.ins == {}
    requires s.ample ==> !s.outFull
    requires Windowed(s.window[..], [], 0) && Chained(s.k, [], 0, {}, s.head[..], s.prev[..], s.wBits, 0)
    requires Accounts(s.total, s.past, [], s.sent, s.before, s.since, 0, [], 0, 1, Limits(s.cfg, s.wSize, s.partial))
    requires Calm(s.cfg, s.matchLength, s.prevLength, s.matchAvailable, 0, 0)
    ensures AtRest(s)
  {
    hide Chained, Rolling, Windowed, HashingOk, Accounts, A32.Adler, BufferOk, Lz.Shape;
  }

  lemma WindowEmpty(w: seq<byte>)
    ensures Windowed(w, [], 0)
  {
    assert w[..0] == [];
  }

  // ---- deflate ----

  datatype Return = Z_OK | Z_STREAM_END | Z_BUF_ERROR | Z_STREAM_ERROR

  function FlushCode(f: FlushMode): int {
    match f
    case Z_NO_FLUSH => 0
    case Z_PARTIAL_FLUSH => 1
    case Z_SYNC_FLUSH => 2
    case Z_FULL_FLUSH => 3
    case Z_FINISH => 4
  }

  /** RANK */
  function FlushRank(code: int): int { 2 * code - if code > 4 then 9 else 0 }

  /** More input from the caller. */
  method AddInput(s: Lz, data: seq<byte>)
    requires DeflateReady(s)
    modifies s`input
    ensures DeflateReady(s) && s.input == old(s.input) + data
  {
    hide Chained, Rolling, Windowed, HashingOk, Accounts, A32.Adler, Settled, Found;
    s.input := s.input + data;
  }

  /** avail_out is or is not zero. */
  method SetFull(s: Lz, full: bool)
    requires DeflateReady(s) && (s.ample ==> !full)
    modifies s`outFull
    ensures DeflateReady(s) && s.outFull == full
  {
    hide Chained, Rolling, Windowed, HashingOk, Accounts, A32.Adler, Settled, Found;
    s.outFull := full;
  }

  /** After the function in use is done: mark the flush. */
  method EndFlush(s: Lz, flush: FlushMode)
    requires DeflateReady(s) && Resting(s) && Unfinished(s.sent)
    modifies s`sent, s`since, s`strstart, s`blockStart, s`insert, s`past, s`before, s`hist, s`base, s`ins, s`top, s.head
    modifies s`partial
    ensures s.partial == (old(s.partial) || flush == Z_PARTIAL_FLUSH)
    ensures s.sent == old(s.sent) + [if flush == Z_PARTIAL_FLUSH then Align else Marker]
    ensures DeflateReady(s) && Resting(s) && Unfinished(s.sent) && s.total == old(s.total) && s.input == old(s.input)
    ensures flush == Z_FULL_FLUSH ==> s.past == s.total && s.before == s.sent && s.hist == []
    ensures flush != Z_FULL_FLUSH ==> s.past == old(s.past) && s.before == old(s.before)
    ensures flush != Z_FULL_FLUSH && old(Standing(s, s.hist)) ==> Standing(s, old(s.hist))
  {
    hide *;
    ghost var h, standing := s.hist, Standing(s, s.hist);
    if standing { StandingParts(s, h); }
    ToRest(s);
    if flush == Z_PARTIAL_FLUSH {
      Mark(s, Align);
    } else {
      Mark(s, Marker);
      if flush == Z_FULL_FLUSH {
        Forget(s);
      }
    }
    FromRest(s);
    if standing && flush != Z_FULL_FLUSH { StandingIs(s, h); }
  }

  lemma StandingHist(s: Lz, h: seq<byte>)
    ensures Standing(s, h) ==> s.hist == h
  {
    if Standing(s, h) { StandingParts(s, h); }
  }

  /** The function in use, and the mark of a flush when it is done. */
  method Advance(s: Lz, flush: FlushMode) returns (r: BlockState)
    requires DeflateReady(s) && Unfinished(s.sent)
    modifies s, s.window, s.head, s.prev
    ensures DeflateReady(s) && s.total + s.input == old(s.total + s.input)
    ensures Finishing(r) ==> flush == Z_FINISH
    ensures if Finishing(r) then Closed(s.sent) && Resting(s) else Unfinished(s.sent)
    ensures r == block_done ==> Resting(s) && (flush == Z_FULL_FLUSH ==> s.past == s.total && s.before == s.sent)
    ensures r != block_done || flush != Z_FULL_FLUSH ==> s.past == old(s.past) && s.before == old(s.before)
    ensures (r == need_more ==> Blocked(s, flush)) && (r == finish_started ==> s.outFull)
    ensures r == block_done ==> flush != Z_NO_FLUSH && flush != Z_FINISH
    ensures flush != Z_PARTIAL_FLUSH ==> s.partial == old(s.partial)
    ensures old(s.total) == [] ==> Opens(s.cfg, s.wSize, old(s.input), old(s.sent), s.sent)
    ensures FunctionOf(s.cfg) == deflate_stored && old(s.total) == [] && old(s.input) == [] && r == block_done ==>
      s.sent == old(s.sent) + [if flush == Z_PARTIAL_FLUSH then Align else Marker]
    ensures old(s.sent) <= s.sent
    ensures FunctionOf(s.cfg) == deflate_slow && old(InOne(s, s.hist + s.input)) && r == block_done ==>
      flush != Z_FULL_FLUSH ==> Standing(s, old(s.hist + s.input))
    ensures FunctionOf(s.cfg) == deflate_slow && old(FarStart(s, s.hist + s.input)) ==>
      FarBlock(s.cfg, old(s.sent), s.sent)
  {
    hide DeflateReady, Closed, Unfinished, Resting, Opens, FunctionOf, InOne, FarStart, FarBlock, Standing;
    ghost var h, far := s.hist + s.input, FarStart(s, s.hist + s.input);
    r := Compress(s, flush);
    ghost var sent := s.sent;
    StandingHist(s, h);
    if r == block_done { EndFlush(s, flush); }
    if far && FunctionOf(s.cfg) == deflate_slow { BlockStays(s.cfg, old(s.sent), sent, s.sent); }
    if old(s.total) == [] { OpensStays(s.cfg, s.wSize, old(s.input), old(s.sent), sent, s.sent); }
  }

  /** A call of deflate. */
  datatype Call = Call(data: seq<byte>, flush: FlushMode)

  /** With copies to come there is something to do. */
  lemma FarInput(s: Lz)
    requires DeflateReady(s)
    ensures FunctionOf(s.cfg) == deflate_slow && FarStart(s, s.hist + s.input) ==> s.input != [] || s.lookahead != 0
  {
    hide Chained, Rolling, Windowed, HashingOk, Accounts, A32.Adler, Settled, Found, AllIn, Copies;
    if FunctionOf(s.cfg) == deflate_slow { LookaheadIs(s); }
  }

  /** The next call brings a block of copies. */
  ghost predicate FarCall(s: Lz, data: seq<byte>)
    reads s
  {
    && Standing(s, s.hist) && s.wSize >= 512 && |s.hist| + |data| + MIN_LOOKAHEAD < 2 * s.wSize
    && 2 < s.cfg.lazy <= MAX_MATCH && s.cfg.litBufsize > 1
    && CopiesFrom(s.k, s.hist + data, s.strstart, s.cfg.litBufsize - 1, s.MaxDist())
  }

  lemma FarCallParts(s: Lz, data: seq<byte>)
    requires FarCall(s, data)
    ensures Standing(s, s.hist) && s.wSize >= 512 && |s.hist| + |data| + MIN_LOOKAHEAD < 2 * s.wSize
    ensures 2 < s.cfg.lazy <= MAX_MATCH && s.cfg.litBufsize > 1
    ensures CopiesFrom(s.k, s.hist + data, s.strstart, s.cfg.litBufsize - 1, s.MaxDist())
  {
    hide Standing, Copies;
  }

  lemma StandingIsSlow(s: Lz, data: seq<byte>)
    ensures Standing(s, s.hist) || FarCall(s, data) ==> FunctionOf(s.cfg) == deflate_slow
  {
    hide InOne;
  }

  /** New input for what stands. */
  lemma StandingInput(s: Lz, hist: seq<byte>, data: seq<byte>)
    requires s.hist == hist && s.input == data && |hist| + |data| + MIN_LOOKAHEAD < 2 * s.wSize
    requires s.lookahead == 0 && s.base == 0 && s.insert == if s.strstart < 2 then s.strstart else 2
    requires forall p: nat :: p < s.base + s.strstart && p + 2 < |s.hist| ==> p in s.ins
    ensures InOne(s, hist + data)
  {
  }

  lemma FarIs(s: Lz, hist: seq<byte>, data: seq<byte>)
    requires InOne(s, hist + data) && s.hist == hist && s.input == data && s.wSize >= 512 && s.tokens == []
    requires s.blockStart == s.strstart && !s.matchAvailable && s.matchLength == 2 < s.cfg.lazy <= MAX_MATCH
    requires s.cfg.litBufsize > 1 && CopiesFrom(s.k, hist + data, s.strstart, s.cfg.litBufsize - 1, s.MaxDist())
    ensures FarStart(s, s.hist + s.input)
  {
    hide Copies, AllIn;
    FarNext(0);
  }

  class Deflater {
    const s: Lz
    var finished: bool
    var lastFlush: int
    ghost var calls: seq<Call>

    constructor (s: Lz)
      ensures this.s == s && !finished && lastFlush == 0 && calls == []
    {
      this.s := s;
      finished, lastFlush := false, 0;
      calls := [];
    }

    /** Between two calls. */
    ghost predicate Valid()
      reads this, s, s.window, s.head, s.prev
    {
      DeflateReady(s) && if finished then Closed(s.sent) && AllSent(s) else Unfinished(s.sent)
    }

    /** deflate, with more input: what is read is in the blocks or still waits, in order.
        done says that the flush of this call is complete. */
    method Deflate(data: seq<byte>, flush: FlushMode) returns (ret: Return, ghost done: bool)
      requires Valid()
      modifies this, s, s.window, s.head, s.prev
      ensures Valid() && s.total + s.input == old(s.total + s.input) + (if ret == Z_STREAM_ERROR then [] else data)
      ensures calls == old(calls) + [Call(data, flush)]
      ensures done ==> flush != Z_NO_FLUSH && AllSent(s) && s.input == [] && (finished <==> flush == Z_FINISH)
      ensures finished <==> old(finished) || (done && flush == Z_FINISH)
      ensures ret == Z_STREAM_END ==> done && finished
      ensures ret == Z_STREAM_ERROR <==> old(finished) && flush != Z_FINISH
      ensures ret == Z_OK && !s.outFull ==>
        s.input == [] && if flush == Z_NO_FLUSH then s.lookahead < MIN_LOOKAHEAD else done
      ensures s.ample ==> !s.outFull
      ensures s.ample && flush == Z_FINISH && (!old(finished) || old(s.input) + data == []) ==> ret == Z_STREAM_END
      ensures ret == Z_BUF_ERROR || ret == Z_STREAM_ERROR ==> s.total == old(s.total) && s.sent == old(s.sent) && !done
      ensures done && flush == Z_FULL_FLUSH ==> s.past == s.total && s.before == s.sent
      ensures !done || flush != Z_FULL_FLUSH ==> s.past == old(s.past) && s.before == old(s.before)
      ensures old(finished) ==> finished && s.sent == old(s.sent) && s.total == old(s.total)
      ensures flush != Z_PARTIAL_FLUSH ==> s.partial == old(s.partial)
      ensures s.ample && ret != Z_STREAM_ERROR ==> lastFlush == FlushCode(flush)
      ensures s.ample && !old(finished) ==> (ret == Z_BUF_ERROR <==>
        old(s.input) + data == [] && FlushRank(FlushCode(flush)) <= FlushRank(old(lastFlush)) && flush != Z_FINISH)
      ensures old(s.total) == [] && s.total != [] ==>
        Opens(s.cfg, s.wSize, old(s.input) + data, old(s.sent), s.sent)
      ensures done && !finished && FunctionOf(s.cfg) == deflate_stored && old(s.total + s.input) + data == [] ==>
        s.sent == old(s.sent) + [if flush == Z_PARTIAL_FLUSH then Align else Marker]
      ensures old(s.sent) <= s.sent
      ensures old(Standing(s, s.hist)) && |old(s.hist)| + |data| + MIN_LOOKAHEAD < 2 * s.wSize && done && !finished ==>
        flush != Z_FULL_FLUSH ==> Standing(s, old(s.hist) + data)
      ensures s.ample && !old(finished) && flush == Z_FINISH && old(FarCall(s, data)) ==>
        FarBlock(s.cfg, old(s.sent), s.sent)
    {
      hide *;
      done := false;
      StandingIsSlow(s, data);
      CallParts(this);
      calls := calls + [Call(data, flush)];
      var early;
      early, ret := Begin(data, flush);
      assert old(s.total) + (old(s.input) + data) == old(s.total + s.input) + data;
      assert old(s.total + s.input) + [] == old(s.total + s.input);
      if early { return; }
      var stop;
      stop, done := Proceed(flush);
      SentParts(s);
      if stop || flush != Z_FINISH { return Z_OK, done; }
      done := true;
      ret := Trailer();
      SentParts(s);
    }

    /** The trailer, which may not fit. */
    method Trailer() returns (ret: Return)
      requires Valid() && finished
      modifies s`outFull
      ensures Valid() && ret == (if s.outFull then Z_OK else Z_STREAM_END) && (s.ample ==> !s.outFull)
    {
      hide *;
      var pending: bool := *;
      if s.ample { pending := false; }
      CallParts(this);
      SetFull(s, pending);
      CallIs(this);
      ret := if pending then Z_OK else Z_STREAM_END;
    }

    /** The checks, with what they mean for input that stands in one window. */
    method Begin(data: seq<byte>, flush: FlushMode) returns (early: bool, ret: Return)
      requires DeflateReady(s) && (s.ample ==> !s.outFull)
      requires finished ==> s.lookahead == 0 && s.tokens == [] && s.blockStart == s.strstart
      requires if finished then Closed(s.sent) else Unfinished(s.sent)
      modifies this`lastFlush, s`input, s`outFull
      ensures Valid() && s.input == old(s.input) + if ret == Z_STREAM_ERROR then [] else data
      ensures ret == Z_STREAM_ERROR <==> finished && flush != Z_FINISH
      ensures if early then ret != Z_STREAM_END && (ret == Z_OK ==> s.outFull) else ret == Z_OK && !s.outFull
      ensures !early ==> if finished then flush == Z_FINISH && s.input == [] else true
      ensures early && finished ==> flush != Z_FINISH || s.input != [] || s.outFull
      ensures early && !finished && flush == Z_FINISH ==> s.outFull
      ensures s.ample ==> !s.outFull && (ret != Z_STREAM_ERROR ==> lastFlush == FlushCode(flush))
      ensures s.ample && !finished ==>
        (early <==> s.input == [] && FlushRank(FlushCode(flush)) <= FlushRank(old(lastFlush)) && flush != Z_FINISH)
      ensures !early && old(Standing(s, s.hist)) && |s.hist| + |data| + MIN_LOOKAHEAD < 2 * s.wSize ==>
        InOne(s, s.hist + s.input) && s.input == data
      ensures !early && old(FarCall(s, data)) ==> FarStart(s, s.hist + s.input)
    {
      hide *;
      ghost var hist, stands, far := s.hist, Standing(s, s.hist), FarCall(s, data);
      if far { FarCallParts(s, data); }
      if stands { StandingParts(s, hist); }
      CallIs(this);
      early, ret := Accept(data, flush);
      assert [] + data == data;
      if !early && stands && |hist| + |data| + MIN_LOOKAHEAD < 2 * s.wSize { StandingInput(s, hist, data); }
      if !early && far { FarIs(s, hist, data); }
    }

    /** The checks of deflate, and flush_pending: early says that the call ends here. */
    method Accept(data: seq<byte>, flush: FlushMode) returns (early: bool, ret: Return)
      requires Valid()
      modifies this`lastFlush, s`input, s`outFull
      ensures Valid() && s.input == old(s.input) + if ret == Z_STREAM_ERROR then [] else data
      ensures ret == Z_STREAM_ERROR <==> finished && flush != Z_FINISH
      ensures if early then ret != Z_STREAM_END && (ret == Z_OK ==> s.outFull) else ret == Z_OK && !s.outFull
      ensures !early ==> if finished then flush == Z_FINISH && s.input == [] else true
      ensures early && finished ==> flush != Z_FINISH || s.input != [] || s.outFull
      ensures early && !finished && flush == Z_FINISH ==> s.outFull
      ensures s.ample ==> !s.outFull && (ret != Z_STREAM_ERROR ==> lastFlush == FlushCode(flush))
      ensures s.ample && !finished ==>
        (early <==> s.input == [] && FlushRank(FlushCode(flush)) <= FlushRank(old(lastFlush)) && flush != Z_FINISH)
    {
      hide *;
      CallParts(this);
      early, ret := true, Z_STREAM_ERROR;
      if finished && flush != Z_FINISH {
        assert old(s.input) + [] == old(s.input);
        return;
      }
      AddInput(s, data);
      var full: bool, pending: bool := *, *;
      if s.ample { full, pending := false, false; }
      SetFull(s, full);
      CallIs(this);
      if full { return true, Z_BUF_ERROR; }
      var oldFlush := lastFlush;
      lastFlush := FlushCode(flush);
      CallIs(this);
      if pending {                                        // flush_pending
        full := *;
        if full {
          SetFull(s, true);
          lastFlush := -1;
          CallIs(this);
          return true, Z_OK;
        }
      } else if s.input == [] && FlushRank(FlushCode(flush)) <= FlushRank(oldFlush) && flush != Z_FINISH {
        return true, Z_BUF_ERROR;
      }
      if finished && s.input != [] { return true, Z_BUF_ERROR; }
      early, ret := false, Z_OK;
    }

    /** The function in use, if there is anything to do: stop says that the call ends here. */
    method Proceed(flush: FlushMode) returns (stop: bool, ghost done: bool)
      requires Valid() && !s.outFull && (finished ==> flush == Z_FINISH && s.input == [])
      modifies this`finished, this`lastFlush, s, s.window, s.head, s.prev
      ensures Valid() && s.total + s.input == old(s.total + s.input) && (s.ample ==> !s.outFull)
      ensures done ==> flush != Z_NO_FLUSH && AllSent(s) && s.input == [] && (finished <==> flush == Z_FINISH)
      ensures finished <==> flush == Z_FINISH && (old(finished) || done)
      ensures !s.outFull ==>
        s.input == [] && if flush == Z_NO_FLUSH then s.lookahead < MIN_LOOKAHEAD else done || finished
      ensures stop && flush == Z_FINISH ==> s.outFull
      ensures !stop && flush == Z_FINISH ==> finished && AllSent(s) && s.input == []
      ensures done && flush == Z_FULL_FLUSH ==> s.past == s.total && s.before == s.sent
      ensures !done || flush != Z_FULL_FLUSH ==> s.past == old(s.past) && s.before == old(s.before)
      ensures old(finished) ==> s.sent == old(s.sent) && s.total == old(s.total)
      ensures flush != Z_PARTIAL_FLUSH ==> s.partial == old(s.partial)
      ensures s.ample ==> lastFlush == old(lastFlush)
      ensures old(s.total) == [] && old(s.input) != [] ==> Opens(s.cfg, s.wSize, old(s.input), old(s.sent), s.sent)
      ensures FunctionOf(s.cfg) == deflate_stored && old(s.total) == [] && old(s.input) == [] && done && !finished ==>
        s.sent == old(s.sent) + [if flush == Z_PARTIAL_FLUSH then Align else Marker]
      ensures old(s.sent) <= s.sent
      ensures FunctionOf(s.cfg) == deflate_slow && old(InOne(s, s.hist + s.input)) && done && !finished ==>
        flush != Z_FULL_FLUSH ==> Standing(s, old(s.hist + s.input))
      ensures FunctionOf(s.cfg) == deflate_slow && old(FarStart(s, s.hist + s.input)) ==>
        FarBlock(s.cfg, old(s.sent), s.sent)
    {
      hide *;
      CallParts(this);
      SentParts(s);
      FarInput(s);
      stop, done := false, false;
      ghost var h, stands := s.hist + s.input,
        FunctionOf(s.cfg) == deflate_slow && InOne(s, s.hist + s.input) && flush != Z_FULL_FLUSH;
      if s.input != [] || s.lookahead != 0 || (flush != Z_NO_FLUSH && !finished) {
        var bstate := Advance(s, flush);
        if Finishing(bstate) { finished := true; }
        done := Finishing(bstate) || bstate == block_done;
        AdvanceFacts(this, flush, bstate);
        SentParts(s);
        CallParts(this);
        if bstate == need_more || bstate == finish_started {
          if s.outFull { lastFlush := -1; }
          CallIs(this);
          return true, done;
        }
        if bstate == block_done {
          var full: bool := *;                            // flush_pending
          if s.ample { full := false; }
          if full {
            if stands { StandingParts(s, h); }
            SetFull(s, true);
            if stands { StandingIs(s, h); }
            lastFlush := -1;
            CallIs(this);
            SentParts(s);
            return true, done;
          }
        }
      }
    }
  }

  lemma CallParts(d: Deflater)
    requires d.Valid()
    ensures DeflateReady(d.s) && (d.s.ample ==> !d.s.outFull) && MIN_LOOKAHEAD == 262
    ensures d.finished ==> d.s.lookahead == 0 && d.s.tokens == [] && d.s.blockStart == d.s.strstart
    ensures if d.finished then Closed(d.s.sent) else Unfinished(d.s.sent)
  {
    hide Chained, Rolling, Windowed, HashingOk, Accounts, A32.Adler, Settled, Found, Closed, Unfinished;
  }

  lemma CallIs(d: Deflater)
    requires DeflateReady(d.s)
    requires d.finished ==> d.s.lookahead == 0 && d.s.tokens == [] && d.s.blockStart == d.s.strstart
    requires if d.finished then Closed(d.s.sent) else Unfinished(d.s.sent)
    ensures d.Valid() && (d.finished ==> AllSent(d.s))
  {
    hide DeflateReady, Closed, Unfinished;
  }

  lemma SentParts(s: Lz)
    ensures AllSent(s) <==> s.lookahead == 0 && s.tokens == [] && s.blockStart == s.strstart
  {
  }

  /** After the function in use has returned. */
  lemma AdvanceFacts(d: Deflater, flush: FlushMode, r: BlockState)
    requires DeflateReady(d.s) && (Finishing(r) ==> flush == Z_FINISH)
    requires d.finished == Finishing(r)
    requires if Finishing(r) then Closed(d.s.sent) && Resting(d.s) else Unfinished(d.s.sent)
    requires r == block_done ==> Resting(d.s) && flush != Z_NO_FLUSH && flush != Z_FINISH
    requires (r == need_more ==> Blocked(d.s, flush)) && (r == finish_started ==> d.s.outFull)
    ensures d.Valid() && (d.s.ample ==> !d.s.outFull)
    ensures Finishing(r) || r == block_done ==> AllSent(d.s) && d.s.input == []
    ensures r == need_more ==> d.s.outFull || (flush == Z_NO_FLUSH && d.s.input == [] && d.s.lookahead < MIN_LOOKAHEAD)
    ensures Finishing(r) <==> r == finish_started || r == finish_done
  {
    hide Chained, Rolling, Windowed, HashingOk, Accounts, A32.Adler, Settled, Found, Closed, Unfinished;
  }

  // ---- Init ----

  lemma InitReady(s: Lz)
    requires s.Shape() && s.strstart == s.lookahead == s.insert == 0 && s.matchLength == s.prevLength == 2
    requires !s.matchAvailable
    requires s.tokens == [] && s.sent == s.before == s.since == [] && s.past == [] && s.blockStart == 0 && s.adler == 1
    requires s.total == []
    requires s.hist == [] && s.base == 0 && s.ins == {} && s.top == 0
    requires (forall i :: 0 <= i < s.head.Length ==> s.head[i] == 0) && !s.outFull
    requires s.cfg.level <= 9 && 128 <= s.cfg.litBufsize <= 32768
    requires s.input == [] && s.cfg == Configure(s.cfg.level, s.cfg.strategy, s.cfg.litBufsize)
    ensures DeflateReady(s)
  {
    hide Chained, Windowed, HashingOk, Accounts, Configure, PARAMETERS;
    AdlerNone();
    WindowEmpty(s.window[..]);
    ClearChained(s.k, s.head[..], s.prev[..], s.wBits);
    WrittenNone(LimitsOf(s));
    ConfigureOk(s.cfg.level, s.cfg.strategy, s.cfg.litBufsize);
    FromRest(s);
  }

  lemma AdlerNone()
    ensures A32.Adler([]) == 1
  {
  }

  lemma WrittenNone(g: Limits)
    ensures Accounts([], [], [], [], [], [], 0, [], 0, 1, g)
  {
    PiecesNone();
    SpellsNone([], 0);
    var none: seq<byte> := [];
    assert none[..0] == [];
  }

  /** deflateInit2: a hash of memLevel + 7 bits, and lit_bufsize of 2 to the memLevel + 6. */
  method DeflateInit(level: nat, strategy: Strategy, windowBits: nat, memLevel: nat, ample: bool)
    returns (d: Deflater)
    requires level <= 9 && 8 <= windowBits <= 15 && 1 <= memLevel <= 9
    ensures fresh(d) && d.Valid() && !d.finished && d.s.total == d.s.input == [] && !d.s.partial && d.lastFlush == 0
    ensures d.s.sent == [] && d.calls == []
    ensures fresh(d.s) && fresh(d.s.window) && fresh(d.s.head) && fresh(d.s.prev)
    ensures d.s.cfg == Configure(level, strategy, Pow2(memLevel + 6)) && d.s.ample == ample
    ensures d.s.cfg.litBufsize == Pow2(memLevel + 6)
    ensures d.s.wSize == Pow2(if windowBits == 8 then 9 else windowBits)
    ensures FunctionOf(d.s.cfg) == deflate_slow ==> Standing(d.s, [])
  {
    hide Chained, Windowed, DeflateReady, Standing;
    var wBits := if windowBits == 8 then 9 else windowBits;
    var k := Hashing(memLevel + 7, (memLevel + 9) / 3);
    InitSizes(wBits, memLevel);
    var s := new Lz(k, wBits, Configure(level, strategy, Pow2(memLevel + 6)), ample);
    InitReady(s);
    if FunctionOf(s.cfg) == deflate_slow { StandingIs(s, []); }
    d := new Deflater(s);
  }

  lemma InitSizes(wBits: nat, memLevel: nat)
    requires 9 <= wBits <= 15 && 1 <= memLevel <= 9
    ensures 512 <= Pow2(wBits) <= 32768 && 128 <= Pow2(memLevel + 6) <= 32768
    ensures HashingOk(Hashing(memLevel + 7, (memLevel + 9) / 3))
  {
    Pow2Values();
    assert Pow2(9) == 2 * Pow2(8);
    Pow2Monotone(9, wBits);
    Pow2Monotone(wBits, 15);
    Pow2Monotone(7, memLevel + 6);
    Pow2Monotone(memLevel + 6, 15);
  }

  // ---- What has been sent ----

  /** At any time, the blocks sent so far spell the input that was read, up to
      the current block, and so do the blocks since the last full flush alone. */
  lemma SentSpells(d: Deflater)
    requires d.Valid()
    ensures var s := d.s; var begin := s.base + s.blockStart;
      0 <= begin <= |s.hist| && s.total == s.past + s.hist && s.sent == s.before + s.since
      && Pieces([], s.sent, s.past + s.hist[..begin]) && Pieces([], s.since, s.hist[..begin])
      && Pieces([], s.before, s.past) && (s.before == [] || s.before[|s.before| - 1] == Marker)
      && AllWithin(s.sent, LimitsOf(s)) && s.adler as nat == A32.Adler(s.total)
  {
    hide Chained, Rolling, Windowed, HashingOk, A32.Adler, Settled, Found, Pieces, Spells, AllWithin, AllNear, Closed,
      Unfinished;
    var s := d.s;
    PiecesJoin(s.past, s.before, s.since, s.hist[..s.base + s.blockStart]);
  }

  /** When the stream is finished, the blocks spell all of the input that was read. */
  lemma FinishedSpells(d: Deflater)
    requires d.Valid() && d.finished
    ensures Pieces([], d.s.sent, d.s.total) && Closed(d.s.sent)
  {
    hide DeflateReady, Closed, Pieces, AllWithin, A32.Adler;
    SentSpells(d);
    FinishedEnd(d);
    assert d.s.hist[..|d.s.hist|] == d.s.hist;
  }

  lemma FinishedEnd(d: Deflater)
    requires d.Valid() && d.finished
    ensures d.s.base + d.s.blockStart == |d.s.hist|
  {
    hide Chained, Rolling, Windowed, HashingOk, A32.Adler, Found, Accounts, Closed, Unfinished;
  }
}
