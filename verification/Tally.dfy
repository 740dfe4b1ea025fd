/** Tallying tokens and flushing blocks (deps/libz/deflate.c: FLUSH_BLOCK_ONLY,
    FLUSH_BLOCK; deps/libz/deflate.h: _tr_tally_lit, _tr_tally_dist). */
module Tally {
  import opened Bits
  import opened CodeLengths
  import opened Tokens
  import opened BlockReader
  import opened Emission
  import opened HashChains
  import opened LzState
  import opened WindowFill

  /** No match reaches further back than far bytes. */
  ghost predicate AllNear(ts: seq<Token>, far: int) {
    forall i :: 0 <= i < |ts| && ts[i].Match? ==> 1 <= ts[i].dist <= far
  }

  /** max_block_size: 0xffff, but not more than pending_buf can take after a header of five bytes. */
  function MaxBlock(litBufsize: nat): int {
    if 0xffff > 4 * litBufsize - 5 then 4 * litBufsize - 5 else 0xffff
  }

  /** A strategy that makes tokens: any but deflate_stored. */
  predicate MakesTokens(c: Config) { c.level > 0 || c.strategy == Z_HUFFMAN_ONLY || c.strategy == Z_RLE }

  /** What is handed to the block encoder at a time: fewer tokens than lit_bufsize, and bytes
      from the window; deflate_stored copies, and deflate_huff counts every byte. */
  ghost predicate Within(p: Piece, g: Limits) {
    match p
    case Compressed(tokens, buf, len, _) =>
      && AllNear(tokens, g.Far()) && |tokens| < g.cfg.litBufsize && MakesTokens(g.cfg)
      && (g.cfg.strategy == Z_HUFFMAN_ONLY ==> len == |tokens| && Literals(tokens))
      && (buf.Some? ==> len <= 2 * g.wSize)
    case Copied(data, _) => !MakesTokens(g.cfg) && |data| <= MaxBlock(g.cfg.litBufsize) && |data| <= 2 * g.wSize
    case Marker => true
    case Align => g.partial
  }

  ghost predicate AllWithin(ps: seq<Piece>, g: Limits) { forall i :: 0 <= i < |ps| ==> Within(ps[i], g) }

  /** What was sent spells the input up to begin, and the tokens spell it up to end.
      The past ends with the marker of a full flush. */
  ghost predicate Accounts(total: seq<byte>, past: seq<byte>, hist: seq<byte>, sent: seq<Piece>, before: seq<Piece>,
                           since: seq<Piece>, begin: int, tokens: seq<Token>, end: int, limit: int, g: Limits) {
    && total == past + hist && sent == before + since && Pieces([], before, past)
    && (before == [] || before[|before| - 1] == Marker)
    && 0 <= begin <= |hist| && Pieces([], since, hist[..begin]) && Spells(hist, begin, tokens, end) && |tokens| < limit
    && AllNear(tokens, g.Far()) && AllWithin(sent, g)
  }

  ghost function LimitsOf(s: Lz): Limits
    reads s
  {
    Limits(s.cfg, s.wSize, s.partial)
  }

  /** The tokens reach the position end of hist, and are fewer than limit. */
  ghost predicate Out(s: Lz, end: int, limit: int)
    reads s
  {
    Accounts(s.total, s.past, s.hist, s.sent, s.before, s.since, s.base + s.blockStart, s.tokens, end, limit,
      LimitsOf(s))
    && (s.ample ==> !s.outFull)
  }

  lemma OutMore(total: seq<byte>, past: seq<byte>, hist: seq<byte>, sent: seq<Piece>, before: seq<Piece>,
                since: seq<Piece>, begin: int, tokens: seq<Token>, end: int, limit: int, g: Limits, data: seq<byte>)
    requires Accounts(total, past, hist, sent, before, since, begin, tokens, end, limit, g)
    ensures Accounts(total + data, past, hist + data, sent, before, since, begin, tokens, end, limit, g)
  {
    hide Pieces, Spells;
    SpellsMore(hist, begin, tokens, end, data);
    assert (hist + data)[..begin] == hist[..begin];
    assert past + hist + data == past + (hist + data);
  }

  lemma NearPush(ts: seq<Token>, t: Token, far: int)
    requires AllNear(ts, far) && (t.Match? ==> 1 <= t.dist <= far)
    ensures AllNear(ts + [t], far)
  {
  }

  lemma NearNone(far: int)
    ensures AllNear([], far)
  {
  }

  /** Begin and end in the input. */
  lemma OutEnd(s: Lz, end: int, limit: int)
    requires Out(s, end, limit)
    ensures 0 <= s.base + s.blockStart <= end <= |s.hist| && |s.tokens| < limit
  {
    hide AllFit, ExpandAll, Pieces;
  }

  /** _tr_tally_lit */
  method TallyLit(s: Lz, c: byte, ghost end: int) returns (bflush: bool)
    requires Out(s, end, s.cfg.litBufsize - 1) && 0 <= end < |s.hist| && c == s.hist[end]
    modifies s`tokens
    ensures Out(s, end + 1, s.cfg.litBufsize) && |s.tokens| == |old(s.tokens)| + 1
    ensures bflush <==> |s.tokens| == s.cfg.litBufsize - 1
  {
    hide Pieces, Spells, AllNear, AllWithin;
    NearPush(s.tokens, Literal(c), LimitsOf(s).Far());
    SpellsLiteral(s.hist, s.base + s.blockStart, s.tokens, end);
    s.tokens := s.tokens + [Literal(c)];
    bflush := |s.tokens| == s.cfg.litBufsize - 1;
  }

  /** _tr_tally_dist */
  method TallyDist(s: Lz, dist: nat, lc: byte, ghost end: int) returns (bflush: bool)
    requires Out(s, end, s.cfg.litBufsize - 1) && 0 <= end && 1 <= dist <= end && dist <= LimitsOf(s).Far()
    requires IsMatch(s.hist, end - dist, end, lc + MIN_MATCH)
    modifies s`tokens
    ensures Out(s, end + lc + MIN_MATCH, s.cfg.litBufsize) && s.tokens == old(s.tokens) + [Match(lc, dist)]
    ensures bflush <==> |s.tokens| == s.cfg.litBufsize - 1
  {
    hide Pieces, Spells, IsMatch, AllNear, AllWithin;
    NearPush(s.tokens, Match(lc, dist), LimitsOf(s).Far());
    SpellsMatch(s.hist, s.base + s.blockStart, s.tokens, end, end - dist, lc + MIN_MATCH);
    s.tokens := s.tokens + [Match(lc, dist)];
    bflush := |s.tokens| == s.cfg.litBufsize - 1;
  }

  /** This is the last block of the stream. */
  predicate IsLast(p: Piece) { (p.Compressed? || p.Copied?) && p.last }

  ghost predicate Unfinished(ps: seq<Piece>) { forall i :: 0 <= i < |ps| ==> !IsLast(ps[i]) }

  /** The last block, and no other, is marked as the last. */
  ghost predicate Closed(ps: seq<Piece>) { ps != [] && IsLast(ps[|ps| - 1]) && Unfinished(ps[..|ps| - 1]) }

  lemma SentOne(ps: seq<Piece>, p: Piece)
    requires Unfinished(ps)
    ensures if IsLast(p) then Closed(ps + [p]) else Unfinished(ps + [p])
  {
    assert (ps + [p])[..|ps|] == ps;
  }

  /** The bytes of the block, if they are all in the window, fit into a stored block. */
  ghost predicate Short(s: Lz)
    reads s
  {
    s.blockStart >= 0 ==> s.strstart - s.blockStart < 65536
  }

  /** In deflate_huff every token is one byte. */
  ghost predicate Tallying(s: Lz)
    reads s
  {
    MakesTokens(s.cfg) && (s.cfg.strategy == Z_HUFFMAN_ONLY ==> s.strstart - s.blockStart == |s.tokens|)
  }


  /** flush_pending: is avail_out zero now? */
  method FlushPending(s: Lz) returns (full: bool)
    modifies s`outFull
    ensures s.outFull == full && (s.ample ==> !full)
  {
    full := *;
    if s.ample { full := false; }
    s.outFull := full;
  }

  /** What FLUSH_BLOCK hands to the block encoder: the tokens from blockStart on, and the bytes
      if they are still in the window. */
  ghost function Flushed(s: Lz, tokens: seq<Token>, blockStart: int, last: bool): Piece
    reads s, s.window
    requires blockStart <= s.strstart <= s.window.Length
  {
    Compressed(tokens, if blockStart >= 0 then Some(s.window[blockStart..s.strstart]) else None,
      s.strstart - blockStart, last)
  }

  /** FLUSH_BLOCK_ONLY.  Whether the output space is then used up is up to the caller of deflate. */
  method FlushBlock(s: Lz, last: bool) returns (full: bool)
    requires s.Valid() && Out(s, s.base + s.strstart, s.cfg.litBufsize) && Short(s) && s.cfg.litBufsize <= 32768
    requires Tallying(s)
    modifies s`tokens, s`sent, s`since, s`blockStart, s`outFull
    ensures Out(s, s.base + s.strstart, 1) && s.tokens == [] && s.blockStart == s.strstart && full == s.outFull
    ensures s.sent == old(s.sent) + [Flushed(s, old(s.tokens), old(s.blockStart), last)]
    ensures Unfinished(old(s.sent)) ==> if last then Closed(s.sent) else Unfinished(s.sent)
  {
    hide *;
    FlushFacts(s);
    WindowPart(s.window[..], s.hist, s.base, if s.blockStart >= 0 then s.blockStart else 0,
      s.strstart - if s.blockStart >= 0 then s.blockStart else 0);
    var buf := if s.blockStart >= 0 then Some(s.window[s.blockStart..s.strstart]) else None;
    var p := Compressed(s.tokens, buf, s.strstart - s.blockStart, last);
    FlushWritten(s.total, s.past, s.hist, s.sent, s.before, s.since, s.base + s.blockStart, s.tokens,
      s.base + s.strstart, s.cfg.litBufsize, Limits(s.cfg, s.wSize, s.partial), buf, last);
    if Unfinished(s.sent) { SentBlock(s.sent, p); }
    full := SendPiece(s, p);
    FlushDone(s, old(s.tokens), old(s.blockStart), last, p);
  }

  /** _tr_flush_block, and flush_pending. */
  method SendPiece(s: Lz, p: Piece) returns (full: bool)
    modifies s`tokens, s`sent, s`since, s`blockStart, s`outFull
    ensures s.sent == old(s.sent) + [p] && s.since == old(s.since) + [p] && s.tokens == [] && s.blockStart == s.strstart
    ensures s.outFull == full && (s.ample ==> !full)
  {
    s.sent, s.since := s.sent + [p], s.since + [p];
    s.tokens, s.blockStart := [], s.strstart;
    full := FlushPending(s);
  }

  lemma SentBlock(ps: seq<Piece>, p: Piece)
    requires Unfinished(ps) && p.Compressed?
    ensures if p.last then Closed(ps + [p]) else Unfinished(ps + [p])
  {
    SentOne(ps, p);
  }

  /** What is known when a block is flushed. */
  lemma FlushFacts(s: Lz)
    requires s.Valid() && Out(s, s.base + s.strstart, s.cfg.litBufsize) && Short(s) && Tallying(s)
    ensures 0 <= s.base + s.blockStart <= s.base + s.strstart <= |s.hist| && Windowed(s.window[..], s.hist, s.base)
    ensures s.window.Length == 2 * s.wSize && (s.blockStart >= 0 ==> s.strstart - s.blockStart < 65536)
    ensures Accounts(s.total, s.past, s.hist, s.sent, s.before, s.since, s.base + s.blockStart, s.tokens,
              s.base + s.strstart, s.cfg.litBufsize, Limits(s.cfg, s.wSize, s.partial))
    ensures MakesTokens(s.cfg) && (s.cfg.strategy == Z_HUFFMAN_ONLY ==> s.strstart - s.blockStart == |s.tokens|)
    ensures s.strstart <= s.window.Length
  {
    hide Chained, Windowed, Accounts;
    OutEnd(s, s.base + s.strstart, s.cfg.litBufsize);
    WindowEnd(s.window[..], s.hist, s.base);
  }

  lemma FlushDone(s: Lz, tokens: seq<Token>, blockStart: int, last: bool, p: Piece)
    requires blockStart <= s.strstart <= s.window.Length && s.tokens == [] && s.blockStart == s.strstart
    requires p == Compressed(tokens, if blockStart >= 0 then Some(s.window[blockStart..s.strstart]) else None,
                             s.strstart - blockStart, last)
    requires Accounts(s.total, s.past, s.hist, s.sent, s.before, s.since, s.base + s.strstart, [],
               s.base + s.strstart, 1, Limits(s.cfg, s.wSize, s.partial))
    requires s.ample ==> !s.outFull
    ensures Out(s, s.base + s.strstart, 1) && p == Flushed(s, tokens, blockStart, last)
  {
    hide Accounts;
  }

  lemma FlushWritten(total: seq<byte>, past: seq<byte>, hist: seq<byte>, sent: seq<Piece>, before: seq<Piece>,
                     since: seq<Piece>, begin: int, tokens: seq<Token>, end: int, limit: int, g: Limits,
                     buf: Option<seq<byte>>, last: bool)
    requires Accounts(total, past, hist, sent, before, since, begin, tokens, end, limit, g)
    requires limit == g.cfg.litBufsize <= 32768
    requires buf.Some? ==> end - begin < 65536 && end - begin <= 2 * g.wSize && buf.value == hist[begin..end]
    requires MakesTokens(g.cfg) && (g.cfg.strategy == Z_HUFFMAN_ONLY ==> end - begin == |tokens|)
    ensures begin <= end
    ensures var p := Compressed(tokens, buf, end - begin, last);
      Accounts(total, past, hist, sent + [p], before, since + [p], end, [], end, 1, g)
  {
    hide Pieces, AllNear;
    NearNone(g.Far());
    if end - begin == |tokens| { ExpandLiterals(hist[..begin], tokens); }
    BlockDone(hist, begin, tokens, end, since, buf, last);
    SpellsNone(hist, end);
    assert before + since + [Compressed(tokens, buf, end - begin, last)]
      == before + (since + [Compressed(tokens, buf, end - begin, last)]);
  }

  lemma OutLimit(s: Lz, end: int, limit: int, limit': int)
    requires Out(s, end, limit) && |s.tokens| < limit'
    ensures Out(s, end, limit')
  {
    hide Pieces, Spells;
  }

  /** Without tokens, everything is sent. */
  lemma OutAll(s: Lz, end: int, limit: int)
    requires Out(s, end, limit) && s.tokens == []
    ensures s.base + s.blockStart == end
  {
    hide Pieces;
    assert |s.hist[..end]| == end;
  }

  datatype FlushMode = Z_NO_FLUSH | Z_PARTIAL_FLUSH | Z_SYNC_FLUSH | Z_FULL_FLUSH | Z_FINISH

  /** What the strategies return. */
  datatype BlockState = need_more | block_done | finish_started | finish_done

  /** All input is in the blocks. */
  ghost predicate Drained(s: Lz)
    reads s
  {
    s.input == [] && s.lookahead == 0 && s.tokens == [] && s.blockStart == s.strstart
  }

  /** How a turn of a strategy's loop ends. */
  datatype Turn = again | need_input | input_done

  /** Why a strategy wants to be called again: there is no output space, or without a
      flush there is no more input and too little lookahead. */
  ghost predicate Blocked(s: Lz, flush: FlushMode)
    reads s
  {
    s.outFull || (flush == Z_NO_FLUSH && s.input == [] && s.lookahead < MIN_LOOKAHEAD)
  }

  predicate Finishing(r: BlockState) { r == finish_started || r == finish_done }

  /** The end of every strategy but deflate_stored. */
  method EndBlocks(s: Lz, flush: FlushMode, insert: nat) returns (r: BlockState)
    requires Steady(s) && Out(s, s.base + s.strstart, s.cfg.litBufsize) && Unfinished(s.sent)
    requires s.cfg.litBufsize <= 32768 && Tallying(s)
    requires s.lookahead == 0 && s.input == [] && flush != Z_NO_FLUSH && Short(s) && insert <= 2 && insert <= s.strstart
    modifies s`tokens, s`sent, s`since, s`blockStart, s`outFull, s`insert
    ensures Steady(s) && (old(Ready(s)) ==> Ready(s)) && Out(s, s.base + s.strstart, 1) && Drained(s)
    ensures old(s.sent) <= s.sent
    ensures (Finishing(r) <==> flush == Z_FINISH) && (r == need_more || r == finish_started ==> s.outFull)
    ensures s.insert == insert
    ensures if flush == Z_FINISH then Closed(s.sent) else Unfinished(s.sent)
  {
    hide Accounts, Unfinished, Closed, Windowed, Chained, Rolling;
    s.insert := insert;
    if flush == Z_FINISH {
      var full := FlushBlock(s, true);
      return if full then finish_started else finish_done;
    }
    if s.tokens != [] {
      var full := FlushBlock(s, false);
      if full { return need_more; }
    } else {
      OutAll(s, s.base + s.strstart, s.cfg.litBufsize);
      OutLimit(s, s.base + s.strstart, s.cfg.litBufsize, 1);
    }
    r := block_done;
  }

  /** lit_bufsize is 128 or more, for memLevel 1 or more. */
  ghost predicate BufferOk(c: Config) { 128 <= c.litBufsize <= 32768 }

  /** What the search of the hash chains needs. */
  ghost predicate ConfigOk(c: Config) {
    BufferOk(c) && c.chain >= 4 && c.level > 0 && c.strategy != Z_HUFFMAN_ONLY && c.strategy != Z_RLE
  }

  /** if (bflush) FLUSH_BLOCK(s, 0) */
  method FlushTurn(s: Lz, bflush: bool) returns (turn: Turn)
    requires Steady(s) && Out(s, s.base + s.strstart, s.cfg.litBufsize) && Short(s) && BufferOk(s.cfg)
    requires Unfinished(s.sent) && Tallying(s)
    requires bflush <==> |s.tokens| == s.cfg.litBufsize - 1
    modifies s`tokens, s`sent, s`since, s`blockStart, s`outFull
    ensures Steady(s) && (old(Ready(s)) ==> Ready(s)) && Out(s, s.base + s.strstart, s.cfg.litBufsize - 1)
    ensures Unfinished(s.sent) && turn != input_done && (turn == need_input ==> s.outFull)
    ensures s.blockStart <= s.strstart <= s.window.Length && old(s.blockStart) <= s.strstart
    ensures s.sent == old(s.sent) + if bflush then [Flushed(s, old(s.tokens), old(s.blockStart), false)] else []
    ensures !bflush ==> s.tokens == old(s.tokens) && s.blockStart == old(s.blockStart) && turn == again
    ensures (s.strstart - s.blockStart == old(s.strstart - s.blockStart) && s.tokens == old(s.tokens))
      || (s.tokens == [] && s.blockStart == s.strstart)
  {
    hide Chained, Windowed, Rolling, Accounts, Unfinished, Closed;
    turn := again;
    OutEnd(s, s.base + s.strstart, s.cfg.litBufsize);
    WindowEnd(s.window[..], s.hist, s.base);
    if bflush {
      var full := FlushBlock(s, false);
      if full { turn := need_input; }
      OutLimit(s, s.base + s.strstart, 1, s.cfg.litBufsize - 1);
    } else {
      OutLimit(s, s.base + s.strstart, s.cfg.litBufsize, s.cfg.litBufsize - 1);
    }
  }
}
