/** deflate_stored (deps/libz/deflate.c): level 0. */
module StoredMatching {
  import opened Bits
  import opened RollingHash
  import opened HashChains
  import opened Tokens
  import opened BlockReader
  import opened Emission
  import opened LzState
  import opened WindowFill
  import opened Tally
  import A32 = Adler32

  /** Between two calls and two steps: no tokens, no strings in the chains, and the
      bytes that are not sent yet are in the window and fit into a block. */
  ghost predicate StoredReady(s: Lz)
    reads s, s.window, s.head, s.prev
  {
    && Steady(s) && BufferOk(s.cfg) && s.adler as nat == A32.Adler(s.total) && s.top == 0 && s.insert == 0
    && !MakesTokens(s.cfg)
    && Out(s, s.base + s.blockStart, 1)
    && 0 <= s.blockStart <= s.strstart && s.strstart - s.blockStart < s.MaxDist()
    && s.strstart - s.blockStart < MaxBlock(s.cfg.litBufsize)
  }

  /** FLUSH_BLOCK_ONLY at level 0 */
  method FlushStored(s: Lz, last: bool) returns (full: bool)
    requires s.Valid() && Out(s, s.base + s.blockStart, 1) && 0 <= s.blockStart <= s.strstart
    requires s.strstart - s.blockStart <= MaxBlock(s.cfg.litBufsize) && !MakesTokens(s.cfg)
    requires s.base + s.strstart <= |s.hist|
    modifies s`tokens, s`sent, s`since, s`blockStart, s`outFull
    ensures Out(s, s.base + s.strstart, 1) && s.blockStart == s.strstart && s.tokens == [] && full == s.outFull
    ensures s.strstart <= s.window.Length
    ensures s.sent == old(s.sent) + [Copied(s.window[old(s.blockStart)..s.strstart], last)]
    ensures Unfinished(old(s.sent)) ==> if last then Closed(s.sent) else Unfinished(s.sent)
  {
    hide Pieces, Spells, AllFit, ExpandAll, Windowed, Accounts, Unfinished, Closed;
    WindowPart(s.window[..], s.hist, s.base, s.blockStart, s.strstart - s.blockStart);
    var p := Copied(s.window[s.blockStart..s.strstart], last);
    StoredWritten(s.total, s.past, s.hist, s.sent, s.before, s.since, s.base + s.blockStart, s.tokens,
      s.base + s.strstart, LimitsOf(s), last);
    if Unfinished(s.sent) { SentOne(s.sent, p); }
    full := SendPiece(s, p);
  }

  lemma StoredWritten(total: seq<byte>, past: seq<byte>, hist: seq<byte>, sent: seq<Piece>, before: seq<Piece>,
                      since: seq<Piece>, begin: int, tokens: seq<Token>, end: int, g: Limits, last: bool)
    requires Accounts(total, past, hist, sent, before, since, begin, tokens, begin, 1, g)
    requires 0 <= begin <= end <= |hist| && end - begin <= MaxBlock(g.cfg.litBufsize) && end - begin <= 2 * g.wSize
    requires !MakesTokens(g.cfg)
    ensures var p := Copied(hist[begin..end], last);
      Accounts(total, past, hist, sent + [p], before, since + [p], end, [], end, 1, g)
  {
    hide Pieces, AllNear;
    NearNone(g.Far());
    CopyDone(hist, begin, end, since, last);
    SpellsNone(hist, end);
    assert before + since + [Copied(hist[begin..end], last)] == before + (since + [Copied(hist[begin..end], last)]);
  }

  /** Take all of the lookahead, and emit stored blocks. */
  method StoredStep(s: Lz) returns (turn: Turn)
    requires StoredReady(s) && Unfinished(s.sent) && s.lookahead > 0
    modifies s`tokens, s`sent, s`since, s`blockStart, s`outFull, s`strstart, s`lookahead
    ensures StoredReady(s) && Unfinished(s.sent) && s.lookahead < old(s.lookahead) && turn != input_done
    ensures (turn == need_input ==> s.outFull) && old(s.sent) <= s.sent
    ensures old(s.strstart + s.lookahead) >= old(s.blockStart) + MaxBlock(s.cfg.litBufsize) ==>
      LargestFirst(s.cfg, old(s.sent), s.sent)
  {
    hide Chained, Windowed, HashingOk, Accounts, Unfinished, Closed, A32.Adler, Settled;
    WindowEnd(s.window[..], s.hist, s.base);
    var full := FillBlock(s);
    turn := if full then need_input else again;
    if !full && s.strstart - s.blockStart >= s.MaxDist() {
      full := FlushStored(s, false);
      if full { turn := need_input; }
    }
    SettledStored(s);
  }

  lemma SettledStored(s: Lz)
    requires s.base + s.strstart + s.lookahead == |s.hist| && s.top == 0 && s.insert == 0
    requires (s.base > 0 ==> s.strstart >= 2)
    ensures Settled(s.hist, s.base, s.strstart, s.lookahead, s.insert, s.top)
  {
  }

  /** The first piece after sent is a stored block of the largest size. */
  ghost predicate LargestFirst(c: Config, sent: seq<Piece>, sent': seq<Piece>) {
    && |sent| < |sent'| && sent == sent'[..|sent|] && sent'[|sent|].Copied?
    && |sent'[|sent|].data| == MaxBlock(c.litBufsize)
  }

  lemma LargestStays(c: Config, sent: seq<Piece>, sent1: seq<Piece>, sent2: seq<Piece>)
    requires sent1 <= sent2
    ensures LargestFirst(c, sent, sent1) ==> LargestFirst(c, sent, sent2)
  {
  }

  /** Take all of the lookahead; a block that is full is emitted. */
  method FillBlock(s: Lz) returns (full: bool)
    requires StoredReady(s) && Unfinished(s.sent) && s.lookahead > 0
    modifies s`tokens, s`sent, s`since, s`blockStart, s`outFull, s`strstart, s`lookahead
    ensures s.Valid() && Out(s, s.base + s.blockStart, 1) && Unfinished(s.sent) && s.lookahead < old(s.lookahead)
    ensures s.base + s.strstart + s.lookahead == |s.hist| && (s.base > 0 ==> s.strstart >= 2)
    ensures 0 <= s.blockStart <= s.strstart && s.strstart - s.blockStart < MaxBlock(s.cfg.litBufsize)
    ensures full ==> s.strstart == s.blockStart && s.outFull
    ensures old(s.strstart + s.lookahead) < old(s.blockStart) + MaxBlock(s.cfg.litBufsize) ==> s.sent == old(s.sent)
    ensures old(s.strstart + s.lookahead) >= old(s.blockStart) + MaxBlock(s.cfg.litBufsize) ==>
      LargestFirst(s.cfg, old(s.sent), s.sent)
  {
    hide Chained, Windowed, HashingOk, Accounts, Unfinished, Closed, A32.Adler;
    s.strstart := s.strstart + s.lookahead;
    s.lookahead := 0;
    full := false;
    var maxStart := s.blockStart + MaxBlock(s.cfg.litBufsize);
    if s.strstart == 0 || s.strstart >= maxStart {
      s.lookahead := s.strstart - maxStart;
      s.strstart := maxStart;
      full := FlushStored(s, false);
    }
  }

  /** fill_window: it does not slide away bytes that are not sent yet. */
  method StoredFill(s: Lz)
    requires StoredReady(s) && s.lookahead < MIN_LOOKAHEAD
    modifies s`matchStart, s`strstart, s`blockStart, s`base, s`input, s`adler, s`lookahead, s`hist, s`total
    modifies s`insH, s`insert, s`ins, s`top, s.window, s.head, s.prev
    ensures StoredReady(s) && s.total + s.input == old(s.total + s.input)
    ensures |s.input| + s.lookahead == old(|s.input| + s.lookahead)
    ensures s.lookahead >= MIN_LOOKAHEAD || s.input == []
    ensures FilledUp(s) && s.strstart - s.blockStart == old(s.strstart - s.blockStart)
    ensures old(s.strstart) < s.wSize ==> s.strstart == old(s.strstart)
  {
    hide Rolling, Chained, Windowed, HashingOk, Accounts, A32.Adler, Wrap, Settled;
    ghost var total, hist, begin := s.total, s.hist, s.base + s.blockStart;
    ghost var data := FillWindow(s);
    OutMore(total, s.past, hist, s.sent, s.before, s.since, begin, s.tokens, begin, 1, LimitsOf(s), data);
    assert total + data + s.input == total + (data + s.input);
  }

  /** The input fills a block of the largest size, which the window can hold. */
  ghost predicate Fills(c: Config, wSize: nat, h: seq<byte>) {
    MaxBlock(c.litBufsize) <= |h| && MaxBlock(c.litBufsize) <= 2 * wSize
  }

  /** Nothing has been read yet. */
  ghost predicate Begins(s: Lz)
    reads s
  {
    s.strstart == s.lookahead == 0 && s.blockStart == 0
  }

  lemma BeginParts(s: Lz)
    requires Begins(s)
    ensures s.strstart == s.lookahead == 0 && s.blockStart == 0
  {
  }

  lemma StoredSizes(s: Lz)
    requires StoredReady(s)
    ensures s.window.Length == 2 * s.wSize && 512 <= s.wSize
    ensures 128 <= s.cfg.litBufsize
  {
    hide Chained, Windowed, HashingOk, Accounts, A32.Adler, Settled;
  }

  /** One turn of the loop. */
  method StoredTurn(s: Lz, flush: FlushMode) returns (turn: Turn)
    requires StoredReady(s) && Unfinished(s.sent)
    modifies s, s.window, s.head, s.prev
    ensures StoredReady(s) && Unfinished(s.sent) && s.total + s.input == old(s.total + s.input)
    ensures s.past == old(s.past) && s.before == old(s.before) && s.partial == old(s.partial)
    ensures turn == again ==> |s.input| + s.lookahead < old(|s.input| + s.lookahead)
    ensures turn == need_input ==> Blocked(s, flush)
    ensures turn == input_done ==> flush != Z_NO_FLUSH && s.lookahead == 0 && s.input == []
    ensures old(s.sent) <= s.sent
    ensures old(Begins(s)) && Fills(s.cfg, s.wSize, old(s.input)) ==>
      turn != input_done && LargestFirst(s.cfg, old(s.sent), s.sent)
    ensures old(Begins(s) && s.input == []) ==> Begins(s) && s.input == [] && s.sent == old(s.sent) && turn != again
  {
    hide StoredReady, Unfinished, LargestFirst;
    StoredSizes(s);
    if s.lookahead <= 1 {
      StoredFill(s);
      if s.lookahead == 0 {
        return if flush == Z_NO_FLUSH then need_input else input_done;
      }
    }
    turn := StoredStep(s);
  }

  /** deflate_stored: when it is done, the blocks hold all of the input. */
  method DeflateStored(s: Lz, flush: FlushMode) returns (r: BlockState)
    requires StoredReady(s) && Unfinished(s.sent)
    modifies s, s.window, s.head, s.prev
    ensures StoredReady(s) && s.total + s.input == old(s.total + s.input)
    ensures (Finishing(r) ==> flush == Z_FINISH) && (r == block_done ==> flush != Z_FINISH)
    ensures (r == need_more ==> Blocked(s, flush)) && (r == finish_started ==> s.outFull)
    ensures Finishing(r) || r == block_done ==> Drained(s) && flush != Z_NO_FLUSH
    ensures if Finishing(r) then Closed(s.sent) else Unfinished(s.sent)
    ensures s.past == old(s.past) && s.before == old(s.before) && s.partial == old(s.partial)
    ensures old(s.sent) <= s.sent
    ensures old(Begins(s)) && Fills(s.cfg, s.wSize, old(s.input)) ==>
      LargestFirst(s.cfg, old(s.sent), s.sent)
    ensures old(Begins(s) && s.input == []) && r == block_done ==> s.sent == old(s.sent)
  {
    hide StoredReady, Closed, Unfinished, LargestFirst, Begins;
    var turn := again;
    ghost var begun, fits := false, Fills(s.cfg, s.wSize, s.input);
    while turn == again
      invariant StoredReady(s) && Unfinished(s.sent) && s.total + s.input == old(s.total + s.input)
      invariant s.past == old(s.past) && s.before == old(s.before) && s.partial == old(s.partial)
      invariant turn == input_done ==> flush != Z_NO_FLUSH && s.lookahead == 0 && s.input == []
      invariant turn == need_input ==> Blocked(s, flush)
      invariant old(s.sent) <= s.sent && (turn != again ==> begun)
      invariant !begun ==> s.input == old(s.input) && s.sent == old(s.sent) && (old(Begins(s)) ==> Begins(s))
      invariant begun && old(Begins(s)) && fits ==> LargestFirst(s.cfg, old(s.sent), s.sent)
      invariant old(Begins(s) && s.input == []) ==> Begins(s) && s.input == [] && s.sent == old(s.sent)
      decreases turn == again, |s.input| + s.lookahead
    {
      ghost var sent := s.sent;
      turn := StoredTurn(s, flush);
      LargestStays(s.cfg, old(s.sent), sent, s.sent);
      begun := true;
    }
    if turn == need_input { return need_more; }
    ghost var sent := s.sent;
    if Begins(s) { BeginParts(s); }
    r := StoredEnd(s, flush);
    LargestStays(s.cfg, old(s.sent), sent, s.sent);
  }

  method StoredEnd(s: Lz, flush: FlushMode) returns (r: BlockState)
    requires StoredReady(s) && Unfinished(s.sent) && flush != Z_NO_FLUSH && s.lookahead == 0 && s.input == []
    modifies s`tokens, s`sent, s`since, s`blockStart, s`outFull, s`insert
    ensures StoredReady(s) && Drained(s) && (Finishing(r) <==> flush == Z_FINISH)
    ensures r == need_more || r == finish_started ==> s.outFull
    ensures old(s.sent) <= s.sent && (old(s.strstart == s.blockStart) && r == block_done ==> s.sent == old(s.sent))
    ensures if Finishing(r) then Closed(s.sent) else Unfinished(s.sent)
  {
    hide Chained, Windowed, HashingOk, Accounts, Unfinished, Closed, A32.Adler;
    OutEnd(s, s.base + s.blockStart, 1);
    s.insert := 0;
    if flush == Z_FINISH {
      var full := FlushStored(s, true);
      return if full then finish_started else finish_done;
    }
    if s.strstart > s.blockStart {
      var full := FlushStored(s, false);
      if full { return need_more; }
    }
    r := block_done;
  }
}
