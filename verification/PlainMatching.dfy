/** deflate_rle and deflate_huff (deps/libz/deflate.c): matches at distance one, and
    no matches.  Neither keeps the hash chains. */
module PlainMatching {
  import opened Bits
  import opened RollingHash
  import opened HashChains
  import opened Emission
  import opened LzState
  import opened WindowFill
  import opened Tally
  import opened RunLengths
  import A32 = Adler32

  /** Between two calls and two steps. */
  ghost predicate PlainReady(s: Lz)
    reads s, s.window, s.head, s.prev
  {
    Steady(s) && BufferOk(s.cfg) && s.adler as nat == A32.Adler(s.total)
      && Out(s, s.base + s.strstart, s.cfg.litBufsize - 1)
  }

  // ---- Runs of one byte ----

  /** Bytes from..to of the window are all equal to b. */
  ghost predicate AllAre(w: seq<byte>, from: nat, to: nat, b: byte) {
    from <= to <= |w| && forall i :: from <= i < to ==> w[i] == b
  }

  /** The run that begins with the byte before strstart. */
  method RunLength(window: array<byte>, strstart: nat) returns (len: nat)
    requires 0 < strstart && strstart + MAX_MATCH < window.Length
    ensures len == 0 || MIN_MATCH <= len <= MAX_MATCH
    ensures AllAre(window[..], strstart - 1, strstart + len, window[strstart - 1])
    ensures 0 < len < MAX_MATCH ==> window[strstart + len] != window[strstart - 1]
    ensures len == 0 ==> !AllAre(window[..], strstart - 1, strstart + MIN_MATCH, window[strstart - 1])
  {
    var scan := strstart - 1;
    var prev := window[scan];
    if window[scan + 1] != prev || window[scan + 2] != prev || window[scan + 3] != prev { return 0; }
    scan := scan + 3;
    var strend := strstart + MAX_MATCH;
    ghost var rounds := 0;
    while true
      invariant scan == strstart + 2 + 8 * rounds && rounds < 32 && AllAre(window[..], strstart - 1, scan + 1, prev)
      decreases 32 - rounds
    {
      var i := 0;
      while i < 8
        invariant 0 <= i <= 8 && scan == strstart + 2 + 8 * rounds + i
        invariant AllAre(window[..], strstart - 1, scan + 1, prev)
      {
        scan := scan + 1;
        if window[scan] != prev { return MAX_MATCH - (strend - scan); }
        i := i + 1;
      }
      rounds := rounds + 1;
      if scan >= strend { break; }
    }
    len := MAX_MATCH - (strend - scan);
  }

  /** A run is a match at distance one. */
  lemma RunMatch(window: seq<byte>, hist: seq<byte>, base: nat, strstart: nat, l: nat, len: nat)
    requires Windowed(window, hist, base) && 0 < strstart && len <= l && base + strstart + len <= |hist|
    requires strstart <= |window| && AllAre(window, strstart - 1, strstart + l, window[strstart - 1])
    ensures IsMatch(hist, base + strstart - 1, base + strstart, len)
  {
    WindowPart(window, hist, base, strstart - 1, len);
    WindowPart(window, hist, base, strstart, len);
    assert window[strstart - 1..strstart - 1 + len] == window[strstart..strstart + len];
  }

  lemma NoRun(h: seq<byte>, p: nat)
    requires p < |h| && (p == 0 || |h| - p < MIN_MATCH)
    ensures RunAt(h, p) == 1
  {
  }

  /** What the scan of the window says of the input: it may run on behind its end. */
  lemma RunIs(window: seq<byte>, hist: seq<byte>, base: nat, strstart: nat, lookahead: nat, run: nat, len: nat)
    requires Windowed(window, hist, base) && 0 < strstart && base + strstart + lookahead == |hist|
    requires MIN_MATCH <= lookahead && strstart + MAX_MATCH < |window|
    requires run == 0 || MIN_MATCH <= run <= MAX_MATCH
    requires AllAre(window, strstart - 1, strstart + run, window[strstart - 1])
    requires 0 < run < MAX_MATCH ==> window[strstart + run] != window[strstart - 1]
    requires run == 0 ==> !AllAre(window, strstart - 1, strstart + MIN_MATCH, window[strstart - 1])
    requires len == if run > lookahead then lookahead else run
    ensures RunAt(hist, base + strstart) == if len == 0 then 1 else len
  {
    var p, b := base + strstart, window[strstart - 1];
    forall i | strstart - 1 <= i < strstart + lookahead && i < |window| ensures window[i] == hist[base + i] {
      WindowOne(window, hist, base, i);
    }
    if run == 0 {
      var i :| strstart - 1 <= i < strstart + MIN_MATCH && window[i] != b;
      RepeatsEnd(hist, p, b, MAX_MATCH, i - strstart);
    } else {
      RepeatsIs(hist, p, b, MAX_MATCH, len);
    }
  }

  lemma WindowOne(window: seq<byte>, hist: seq<byte>, base: nat, i: nat)
    requires Windowed(window, hist, base) && base + i < |hist|
    ensures i < |window| && window[i] == hist[base + i]
  {
    assert window[..|hist| - base][i] == hist[base..][i];
  }

  /** See how many times the previous byte repeats. */
  method FindRun(s: Lz) returns (len: nat)
    requires Steady(s) && s.strstart + MAX_MATCH < 2 * s.wSize
    ensures s.base + s.strstart + s.lookahead == |s.hist| && (s.base > 0 ==> s.strstart > 0)
    ensures len == 0 || (MIN_MATCH <= len <= MAX_MATCH && len <= s.lookahead)
    ensures len > 0 ==> s.strstart > 0 && IsMatch(s.hist, s.base + s.strstart - 1, s.base + s.strstart, len)
    ensures s.lookahead > 0 ==> RunAt(s.hist, s.base + s.strstart) == if len == 0 then 1 else len
  {
    hide Chained, Windowed, HashingOk, IsMatch, AllAre, Pow2, RunAt;
    if s.lookahead < MIN_MATCH || s.strstart == 0 {
      if s.lookahead > 0 { NoRun(s.hist, s.base + s.strstart); }
      return 0;
    }
    ghost var w: seq<byte> := s.window[..];
    var run := RunLength(s.window, s.strstart);
    len := if run > s.lookahead then s.lookahead else run;
    RunMatch(w, s.hist, s.base, s.strstart, run, len);
    RunIs(w, s.hist, s.base, s.strstart, s.lookahead, run, len);
  }

  /** A literal byte. */
  method PlainLiteral(s: Lz) returns (bflush: bool)
    requires Steady(s) && s.lookahead > 0 && Out(s, s.base + s.strstart, s.cfg.litBufsize - 1)
    modifies s`tokens, s`strstart, s`lookahead
    ensures Steady(s) && Out(s, s.base + s.strstart, s.cfg.litBufsize) && s.strstart == old(s.strstart) + 1
    ensures s.lookahead == old(s.lookahead) - 1 && (bflush <==> |s.tokens| == s.cfg.litBufsize - 1)
    ensures |s.tokens| == |old(s.tokens)| + 1
  {
    hide Chained, Windowed, HashingOk, Accounts;
    WindowByte(s.window[..], s.hist, s.base, s.strstart);
    bflush := TallyLit(s, s.window[s.strstart], s.base + s.strstart);
    s.lookahead, s.strstart := s.lookahead - 1, s.strstart + 1;
  }

  /** A run of three bytes or more, else a literal byte. */
  method RleStep(s: Lz) returns (bflush: bool)
    requires PlainReady(s) && s.lookahead > 0 && s.strstart + MAX_MATCH < 2 * s.wSize
    modifies s`tokens, s`strstart, s`lookahead, s`matchLength
    ensures Steady(s) && Out(s, s.base + s.strstart, s.cfg.litBufsize) && s.strstart < 65536
    ensures s.lookahead < old(s.lookahead) && (bflush <==> |s.tokens| == s.cfg.litBufsize - 1)
    ensures s.base + old(s.strstart) < |s.hist|
    ensures s.strstart == old(s.strstart) + RunAt(s.hist, s.base + old(s.strstart))
    ensures |s.tokens| == |old(s.tokens)| + 1
  {
    hide Chained, Windowed, HashingOk, Accounts, IsMatch, A32.Adler, RunAt;
    s.matchLength := FindRun(s);
    if s.matchLength >= MIN_MATCH {
      bflush := TallyDist(s, 1, s.matchLength - MIN_MATCH, s.base + s.strstart);
      s.lookahead, s.strstart := s.lookahead - s.matchLength, s.strstart + s.matchLength;
      s.matchLength := 0;
    } else {
      bflush := PlainLiteral(s);
    }
  }

  // ---- The two loops ----

  /** fill_window, as both strategies call it. */
  method PlainFill(s: Lz)
    requires PlainReady(s) && s.lookahead < MIN_LOOKAHEAD
    modifies s`matchStart, s`strstart, s`blockStart, s`base, s`input, s`adler, s`lookahead, s`hist, s`total
    modifies s`insH, s`insert, s`ins, s`top, s.window, s.head, s.prev
    ensures PlainReady(s) && s.total + s.input == old(s.total + s.input)
    ensures |s.input| + s.lookahead == old(|s.input| + s.lookahead)
    ensures s.strstart + MIN_LOOKAHEAD <= 2 * s.wSize && (s.lookahead >= MIN_LOOKAHEAD || s.input == [])
    ensures s.strstart - s.blockStart == old(s.strstart - s.blockStart)
    ensures FilledUp(s) && s.hist + s.input == old(s.hist + s.input) && s.base + s.strstart == old(s.base + s.strstart)
    ensures old(s.strstart) < s.wSize ==> s.base == old(s.base)
  {
    hide Rolling, Chained, Windowed, HashingOk, Accounts, A32.Adler, Wrap, Settled, FilledUp;
    ghost var total, hist, begin, end := s.total, s.hist, s.base + s.blockStart, s.base + s.strstart;
    ghost var data := FillWindow(s);
    OutMore(total, s.past, hist, s.sent, s.before, s.since, begin, s.tokens, end, s.cfg.litBufsize - 1,
      LimitsOf(s), data);
    assert total + data + s.input == total + (data + s.input);
    assert hist + data + s.input == hist + (data + s.input);
  }

  lemma PlainFacts(s: Lz)
    requires PlainReady(s)
    ensures s.Shape() && s.strstart + s.lookahead <= 2 * s.wSize && BufferOk(s.cfg) && Steady(s)
    ensures s.base + s.strstart + s.lookahead == |s.hist|
    ensures s.adler as nat == A32.Adler(s.total)
  {
    hide Rolling, Chained, Windowed, HashingOk, A32.Adler, Accounts;
    WindowEnd(s.window[..], s.hist, s.base);
  }

  // ---- The first block ----

  /** Nothing is sent after sent, and the tokens are the first ones of the input h. */
  ghost predicate FirstTokens(s: Lz, h: seq<byte>, sent: seq<Piece>)
    reads s
  {
    && s.sent == sent && s.base == 0 && s.blockStart == 0 && |s.tokens| + 1 < s.cfg.litBufsize
    && s.strstart == TokensEnd(h, |s.tokens|) && s.hist + s.input == h && s.strstart + s.lookahead == |s.hist|
    && (s.input == [] || s.hist == [])
  }

  /** The first piece after sent ends a block that is full, with its bytes. */
  ghost predicate FirstFull(c: Config, h: seq<byte>, sent: seq<Piece>, sent': seq<Piece>) {
    && |sent| < |sent'| && sent == sent'[..|sent|] && sent'[|sent|].Compressed? && sent'[|sent|].buf.Some?
    && c.litBufsize >= 1 && sent'[|sent|].len == TokensEnd(h, c.litBufsize - 1)
  }

  /** The window holds all of the input, and is not filled again before the block is full. */
  ghost predicate InWindow(c: Config, wSize: nat, h: seq<byte>) {
    128 <= c.litBufsize && |h| <= 2 * wSize && TokensEnd(h, c.litBufsize - 2) + MAX_MATCH < |h|
  }

  /** When all of the input is read: what happens to the next token. */
  lemma NextToken(c: Config, h: seq<byte>, n: nat, wSize: nat)
    requires InWindow(c, wSize, h) && n + 1 < c.litBufsize
    ensures TokensEnd(h, n) + MAX_MATCH < |h|
    ensures TokensEnd(h, n + 1) == TokensEnd(h, n) + RunAt(h, TokensEnd(h, n))
  {
    hide RunAt;
    EndsGrow(h, n, c.litBufsize - 2);
  }

  /** Read input when the lookahead is short: again says that there is something to do. */
  method RleInput(s: Lz, flush: FlushMode, ghost h: seq<byte>, ghost sent: seq<Piece>) returns (turn: Turn)
    requires PlainReady(s)
    modifies s`matchStart, s`strstart, s`blockStart, s`base, s`input, s`adler, s`lookahead, s`hist, s`total
    modifies s`insH, s`insert, s`ins, s`top, s.window, s.head, s.prev
    ensures PlainReady(s) && s.total + s.input == old(s.total + s.input)
    ensures |s.input| + s.lookahead == old(|s.input| + s.lookahead)
    ensures turn == again ==> s.lookahead > 0 && s.strstart + MAX_MATCH < 2 * s.wSize
    ensures turn == need_input ==> Blocked(s, flush)
    ensures turn == input_done ==> flush != Z_NO_FLUSH && s.lookahead == 0 && s.input == [] && s.strstart < 65536
    ensures InWindow(s.cfg, s.wSize, h) && old(FirstTokens(s, h, sent)) ==>
      turn == again && FirstTokens(s, h, sent) && s.input == []
  {
    hide PlainReady, A32.Adler, FilledUp, InWindow, TokensEnd;
    PlainFacts(s);
    turn := again;
    if s.lookahead <= MAX_MATCH {
      ghost var first := InWindow(s.cfg, s.wSize, h) && FirstTokens(s, h, sent);
      if first { FirstShort(s, h, sent); }
      PlainFill(s);
      PlainFacts(s);
      if first { FirstFill(s, h, sent); }
      if s.lookahead <= MAX_MATCH && flush == Z_NO_FLUSH {
        turn := need_input;
      } else if s.lookahead == 0 {
        turn := input_done;
      }
    } else {
      FirstRead(s, h, sent);
    }
  }

  /** The window has room for the whole input, which is read at once. */
  lemma FirstFill(s: Lz, h: seq<byte>, sent: seq<Piece>)
    requires InWindow(s.cfg, s.wSize, h) && s.window.Length == 2 * s.wSize && FilledUp(s)
    requires s.hist + s.input == h && s.strstart + s.lookahead == |s.hist| && |s.tokens| + 1 < s.cfg.litBufsize
    requires s.strstart == TokensEnd(h, |s.tokens|)
    ensures s.input == [] && s.lookahead > MAX_MATCH
  {
    hide RunAt, TokensEnd;
    NextToken(s.cfg, h, |s.tokens|, s.wSize);
  }

  /** Before that, nothing is read. */
  lemma FirstShort(s: Lz, h: seq<byte>, sent: seq<Piece>)
    requires InWindow(s.cfg, s.wSize, h) && FirstTokens(s, h, sent) && s.lookahead <= MAX_MATCH
    ensures s.strstart == 0
  {
    hide RunAt, TokensEnd;
    NextToken(s.cfg, h, |s.tokens|, s.wSize);
    assert s.hist + [] == s.hist;
  }

  lemma FirstRead(s: Lz, h: seq<byte>, sent: seq<Piece>)
    requires s.lookahead > 0
    ensures FirstTokens(s, h, sent) ==> s.input == []
  {
    hide TokensEnd;
  }

  /** A run or a literal, and the block when it is full. */
  method RleEmit(s: Lz, ghost h: seq<byte>, ghost sent: seq<Piece>) returns (turn: Turn)
    requires PlainReady(s) && Unfinished(s.sent) && s.cfg.strategy == Z_RLE
    requires s.lookahead > 0 && s.strstart + MAX_MATCH < 2 * s.wSize
    modifies s`tokens, s`strstart, s`lookahead, s`matchLength, s`sent, s`since, s`blockStart, s`outFull
    ensures PlainReady(s) && Unfinished(s.sent) && s.lookahead < old(s.lookahead)
    ensures turn != input_done && (turn == need_input ==> s.outFull) && old(s.sent) <= s.sent
    ensures InWindow(s.cfg, s.wSize, h) && old(FirstTokens(s, h, sent)) && s.input == [] ==>
      (turn == again && FirstTokens(s, h, sent)) || FirstFull(s.cfg, h, sent, s.sent)
  {
    hide PlainReady, Steady, Unfinished, Accounts, A32.Adler, RunAt, InWindow, TokensEnd;
    PlainFacts(s);
    PlainTokens(s);
    ghost var n, first := |s.tokens|, InWindow(s.cfg, s.wSize, h) && FirstTokens(s, h, sent) && s.input == [];
    if first {
      NextToken(s.cfg, h, n, s.wSize);
      assert s.hist + [] == s.hist;
    }
    var bflush := RleStep(s);
    turn := FlushTurn(s, bflush);
    PlainAgain(s);
    PlainFacts(s);
  }

  lemma PlainTokens(s: Lz)
    requires PlainReady(s)
    ensures |s.tokens| + 1 < s.cfg.litBufsize
  {
    hide Steady, A32.Adler;
    OutEnd(s, s.base + s.strstart, s.cfg.litBufsize - 1);
  }

  lemma FullStays(c: Config, h: seq<byte>, sent: seq<Piece>, sent1: seq<Piece>, sent2: seq<Piece>)
    requires sent1 <= sent2
    ensures FirstFull(c, h, sent, sent1) ==> FirstFull(c, h, sent, sent2)
  {
  }

  /** One turn of the loop of deflate_rle. */
  method RleTurn(s: Lz, flush: FlushMode, ghost h: seq<byte>, ghost sent: seq<Piece>) returns (turn: Turn)
    requires PlainReady(s) && Unfinished(s.sent) && s.cfg.strategy == Z_RLE
    modifies s, s.window, s.head, s.prev
    ensures PlainReady(s) && Unfinished(s.sent) && s.total + s.input == old(s.total + s.input)
    ensures s.past == old(s.past) && s.before == old(s.before) && s.partial == old(s.partial)
    ensures turn == again ==> |s.input| + s.lookahead < old(|s.input| + s.lookahead)
    ensures turn == need_input ==> Blocked(s, flush)
    ensures turn == input_done ==> flush != Z_NO_FLUSH && s.lookahead == 0 && s.input == [] && s.strstart < 65536
    ensures old(s.sent) <= s.sent
    ensures InWindow(s.cfg, s.wSize, h) && old(FirstTokens(s, h, sent)) ==>
      (turn == again && FirstTokens(s, h, sent)) || FirstFull(s.cfg, h, sent, s.sent)
  {
    hide PlainReady, Unfinished, FirstTokens, FirstFull, InWindow;
    turn := RleInput(s, flush, h, sent);
    if turn == again { turn := RleEmit(s, h, sent); }
  }

  lemma PlainAgain(s: Lz)
    requires Steady(s) && BufferOk(s.cfg) && s.adler as nat == A32.Adler(s.total)
    requires Out(s, s.base + s.strstart, s.cfg.litBufsize - 1)
    ensures PlainReady(s)
  {
    hide Steady, Accounts, A32.Adler;
  }

  // ---- deflate_huff ----

  /** In deflate_huff every token is a byte, so blocks stay short although the
      window may be used up to its end. */
  ghost predicate HuffReady(s: Lz)
    reads s, s.window, s.head, s.prev
  {
    PlainReady(s) && s.strstart - s.blockStart == |s.tokens|
  }

  method HuffStep(s: Lz) returns (turn: Turn)
    requires HuffReady(s) && s.cfg.strategy == Z_HUFFMAN_ONLY && s.lookahead > 0 && Unfinished(s.sent)
    modifies s`tokens, s`sent, s`since, s`blockStart, s`outFull, s`strstart, s`lookahead, s`matchLength
    ensures HuffReady(s) && Unfinished(s.sent) && s.lookahead < old(s.lookahead) && turn != input_done
    ensures (turn == need_input ==> s.outFull)
    ensures old(s.sent) <= s.sent
  {
    hide Chained, Windowed, HashingOk, Accounts, A32.Adler, Settled, Unfinished;
    s.matchLength := 0;
    var bflush := PlainLiteral(s);
    OutEnd(s, s.base + s.strstart, s.cfg.litBufsize);
    turn := FlushTurn(s, bflush);
  }

  /** One turn of the loop of deflate_huff. */
  method HuffTurn(s: Lz, flush: FlushMode) returns (turn: Turn)
    requires HuffReady(s) && s.cfg.strategy == Z_HUFFMAN_ONLY && Unfinished(s.sent)
    modifies s, s.window, s.head, s.prev
    ensures HuffReady(s) && Unfinished(s.sent) && s.total + s.input == old(s.total + s.input)
    ensures s.past == old(s.past) && s.before == old(s.before) && s.partial == old(s.partial)
    ensures turn == again ==> |s.input| + s.lookahead < old(|s.input| + s.lookahead)
    ensures turn == need_input ==> Blocked(s, flush)
    ensures turn == input_done ==> flush != Z_NO_FLUSH && s.lookahead == 0 && s.input == []
    ensures old(s.sent) <= s.sent
  {
    hide PlainReady, Unfinished;
    if s.lookahead == 0 {
      PlainFill(s);
      if s.lookahead == 0 {
        return if flush == Z_NO_FLUSH then need_input else input_done;
      }
    }
    turn := HuffStep(s);
  }

  /** deflate_rle: when it is done, the blocks spell all of the input. */
  method DeflateRle(s: Lz, flush: FlushMode) returns (r: BlockState)
    requires PlainReady(s) && Unfinished(s.sent) && s.cfg.strategy == Z_RLE
    modifies s, s.window, s.head, s.prev
    ensures PlainReady(s) && s.total + s.input == old(s.total + s.input)
    ensures (Finishing(r) ==> flush == Z_FINISH) && (r == block_done ==> flush != Z_FINISH)
    ensures (r == need_more ==> Blocked(s, flush)) && (r == finish_started ==> s.outFull)
    ensures Finishing(r) || r == block_done ==> Drained(s) && flush != Z_NO_FLUSH
    ensures if Finishing(r) then Closed(s.sent) else Unfinished(s.sent)
    ensures s.past == old(s.past) && s.before == old(s.before) && s.partial == old(s.partial)
    ensures old(s.sent) <= s.sent
    ensures old(FirstTokens(s, s.input, s.sent)) && InWindow(s.cfg, s.wSize, old(s.input)) ==>
      FirstFull(s.cfg, old(s.input), old(s.sent), s.sent)
  {
    hide PlainReady, Closed, Unfinished, FirstTokens, FirstFull, InWindow;
    ghost var h, sent, first := s.input, s.sent, FirstTokens(s, s.input, s.sent) && InWindow(s.cfg, s.wSize, s.input);
    var turn := again;
    while turn == again
      invariant PlainReady(s) && Unfinished(s.sent) && s.total + s.input == old(s.total + s.input)
      invariant s.past == old(s.past) && s.before == old(s.before) && s.partial == old(s.partial)
      invariant turn == input_done ==> flush != Z_NO_FLUSH && s.lookahead == 0 && s.input == [] && s.strstart < 65536
      invariant turn == need_input ==> Blocked(s, flush)
      invariant old(s.sent) <= s.sent
      invariant first ==> (turn == again && FirstTokens(s, h, sent)) || FirstFull(s.cfg, h, sent, s.sent)
      decreases turn == again, |s.input| + s.lookahead
    {
      ghost var sent1 := s.sent;
      turn := RleTurn(s, flush, h, sent);
      FullStays(s.cfg, h, sent, sent1, s.sent);
    }
    if turn == need_input { return need_more; }
    ghost var sent1 := s.sent;
    r := PlainEnd(s, flush);
    FullStays(s.cfg, h, sent, sent1, s.sent);
  }

  /** deflate_huff: when it is done, the blocks spell all of the input. */
  method DeflateHuff(s: Lz, flush: FlushMode) returns (r: BlockState)
    requires HuffReady(s) && s.cfg.strategy == Z_HUFFMAN_ONLY && Unfinished(s.sent)
    modifies s, s.window, s.head, s.prev
    ensures HuffReady(s) && s.total + s.input == old(s.total + s.input)
    ensures (Finishing(r) ==> flush == Z_FINISH) && (r == block_done ==> flush != Z_FINISH)
    ensures (r == need_more ==> Blocked(s, flush)) && (r == finish_started ==> s.outFull)
    ensures Finishing(r) || r == block_done ==> Drained(s) && flush != Z_NO_FLUSH
    ensures if Finishing(r) then Closed(s.sent) else Unfinished(s.sent)
    ensures s.past == old(s.past) && s.before == old(s.before) && s.partial == old(s.partial)
    ensures old(s.sent) <= s.sent
  {
    hide HuffReady, Closed, Unfinished;
    var turn := again;
    while turn == again
      invariant HuffReady(s) && Unfinished(s.sent) && s.total + s.input == old(s.total + s.input)
      invariant old(s.sent) <= s.sent
      invariant s.past == old(s.past) && s.before == old(s.before) && s.partial == old(s.partial)
      invariant turn == input_done ==> flush != Z_NO_FLUSH && s.lookahead == 0 && s.input == []
      invariant turn == need_input ==> Blocked(s, flush)
      decreases turn == again, |s.input| + s.lookahead
    {
      turn := HuffTurn(s, flush);
    }
    if turn == need_input { return need_more; }
    HuffShort(s);
    r := PlainEnd(s, flush);
    HuffAgain(s);
  }

  lemma HuffShort(s: Lz)
    requires HuffReady(s) && s.cfg.strategy == Z_HUFFMAN_ONLY
    ensures Short(s) && PlainReady(s) && Tallying(s)
  {
    hide Steady, Accounts, A32.Adler;
    OutEnd(s, s.base + s.strstart, s.cfg.litBufsize - 1);
  }

  lemma HuffAgain(s: Lz)
    requires PlainReady(s) && s.tokens == [] && s.blockStart == s.strstart
    ensures HuffReady(s)
  {
    hide PlainReady;
  }

  /** The last block. */
  method PlainEnd(s: Lz, flush: FlushMode) returns (r: BlockState)
    requires PlainReady(s) && Unfinished(s.sent) && flush != Z_NO_FLUSH && s.lookahead == 0 && s.input == [] && Short(s)
    requires Tallying(s)
    modifies s`tokens, s`sent, s`since, s`blockStart, s`outFull, s`insert
    ensures PlainReady(s) && Drained(s) && (Finishing(r) <==> flush == Z_FINISH)
    ensures r == need_more || r == finish_started ==> s.outFull
    ensures old(s.sent) <= s.sent
    ensures if Finishing(r) then Closed(s.sent) else Unfinished(s.sent)
  {
    hide Chained, Windowed, HashingOk, Accounts, Unfinished, Closed, A32.Adler;
    OutEnd(s, s.base + s.strstart, s.cfg.litBufsize - 1);
    OutLimit(s, s.base + s.strstart, s.cfg.litBufsize - 1, s.cfg.litBufsize);
    r := EndBlocks(s, flush, 0);
    OutLimit(s, s.base + s.strstart, 1, s.cfg.litBufsize - 1);
  }
}
