/** deflate_fast (deps/libz/deflate.c). */
module FastMatching {
  import opened RollingHash
  import opened HashChains
  import opened Emission
  import opened LzState
  import opened LongestMatch
  import opened WindowFill
  import opened Tally
  import A32 = Adler32

  /** Between two calls and two steps of deflate_fast. */
  ghost predicate FastReady(s: Lz)
    reads s, s.window, s.head, s.prev
  {
    && Ready(s) && ConfigOk(s.cfg) && s.adler as nat == A32.Adler(s.total)
    && Out(s, s.base + s.strstart, s.cfg.litBufsize - 1) && s.matchLength < MIN_MATCH && s.prevLength == 2
  }

  /** INSERT_STRING at strstart when there are three bytes. */
  method InsertHere(s: Lz) returns (hashHead: nat)
    requires Ready(s)
    modifies s`insH, s`ins, s`top, s.head, s.prev
    ensures s.Valid() && s.base + s.strstart + s.lookahead == |s.hist| && (s.base > 0 ==> s.strstart >= 2)
    ensures s.lookahead < MIN_MATCH ==> hashHead == 0 && Ready(s)
    ensures s.lookahead >= MIN_MATCH ==>
      s.insert == 0 && s.top == s.base + s.strstart + 1 && Rolling(s.k, s.hist, s.base + s.strstart + 1, s.insH)
    ensures hashHead > 0 ==> s.lookahead >= MIN_MATCH && HeadAt(s.k, s.hist, s.base, s.ins, hashHead, s.strstart)
    ensures s.ins == old(s.ins) + if s.lookahead >= MIN_MATCH then {s.base + s.strstart} else {}
    ensures s.lookahead >= MIN_MATCH ==>
      LinksTo(s.k, s.hist, s.base, old(s.ins), hashHead, HashAt(s.k, s.hist, s.base + s.strstart), s.base + s.strstart)
  {
    hide Rolling, Chained, Windowed, HashAt, HashingOk, LinksTo, HeadAt;
    hashHead := 0;
    if s.lookahead >= MIN_MATCH {
      hashHead := InsertString(s, s.strstart);
      if hashHead > 0 { HeadFrom(s.k, s.hist, s.base, old(s.ins), hashHead, s.strstart); }
    }
  }

  /** Insert every string of the match. */
  method InsertRun(s: Lz)
    requires s.Valid() && s.matchLength >= MIN_MATCH && s.base + s.strstart + s.matchLength + s.lookahead == |s.hist|
    requires s.lookahead >= MIN_MATCH && s.insert == 0 && (s.base > 0 ==> s.strstart >= 2)
    requires s.top == s.base + s.strstart + 1 && Rolling(s.k, s.hist, s.base + s.strstart + 1, s.insH)
    modifies s`insH, s`ins, s`top, s`strstart, s`matchLength, s.head, s.prev
    ensures Ready(s) && s.matchLength == 0 && s.strstart == old(s.strstart + s.matchLength)
  {
    hide Rolling, Chained, Windowed, HashAt, HashingOk;
    s.matchLength := s.matchLength - 1;        // the string at strstart is already inserted
    while s.matchLength != 0
      invariant s.Valid() && s.base + s.strstart + 1 + s.matchLength + s.lookahead == |s.hist|
      invariant s.top == s.base + s.strstart + 1 && Rolling(s.k, s.hist, s.base + s.strstart + 1, s.insH)
      invariant s.strstart >= old(s.strstart) && s.strstart + 1 + s.matchLength == old(s.strstart + s.matchLength)
      decreases s.matchLength
    {
      s.strstart := s.strstart + 1;
      var hashHead := InsertString(s, s.strstart);
      s.matchLength := s.matchLength - 1;
    }
    s.strstart := s.strstart + 1;
  }

  /** Insert no other string of the match, and start the hash value again. */
  method SkipRun(s: Lz)
    requires s.Valid() && s.base + s.strstart + s.matchLength + s.lookahead == |s.hist| && s.insert == 0
    requires (s.base > 0 ==> s.strstart >= 2) && s.top == s.base + s.strstart + 1 && s.top + 2 <= |s.hist|
    requires s.matchLength > 0
    requires s.strstart + s.matchLength + 1 < s.window.Length
    modifies s`insH, s`strstart, s`matchLength
    ensures Ready(s) && s.matchLength == 0 && s.strstart == old(s.strstart + s.matchLength)
  {
    hide Rolling, Chained, Mix, Windowed, HashAt, HashingOk;
    s.strstart := s.strstart + s.matchLength;
    s.matchLength := 0;
    s.insH := s.window[s.strstart];
    s.insH := Mix(s.k, s.insH, s.window[s.strstart + 1]);
    if s.lookahead >= MIN_MATCH {
      WindowByte(s.window[..], s.hist, s.base, s.strstart);
      WindowByte(s.window[..], s.hist, s.base, s.strstart + 1);
      RollingStart(s.k, s.hist, s.base + s.strstart);
    }
  }

  /** The match that was found. */
  method TakeMatch(s: Lz) returns (bflush: bool)
    requires s.Valid() && s.base + s.strstart + s.lookahead == |s.hist| && s.insert == 0
    requires (s.base > 0 ==> s.strstart >= 2)
    requires s.lookahead >= MIN_MATCH && s.top == s.base + s.strstart + 1
    requires Rolling(s.k, s.hist, s.base + s.strstart + 1, s.insH)
    requires MIN_MATCH <= s.matchLength <= MAX_MATCH && s.matchLength <= s.lookahead
    requires s.matchStart < s.strstart <= s.matchStart + s.MaxDist()
    requires IsMatch(s.hist, s.base + s.matchStart, s.base + s.strstart, s.matchLength) && s.cfg.strategy != Z_RLE
    requires Out(s, s.base + s.strstart, s.cfg.litBufsize - 1) && s.strstart + MIN_LOOKAHEAD <= 2 * s.wSize
    modifies s`tokens, s`insH, s`ins, s`top, s`strstart, s`matchLength, s`lookahead, s.head, s.prev
    ensures Ready(s) && s.matchLength == 0 && Out(s, s.base + s.strstart, s.cfg.litBufsize)
    ensures s.strstart <= old(s.strstart) + MAX_MATCH
    ensures bflush <==> |s.tokens| == s.cfg.litBufsize - 1
    ensures s.lookahead < old(s.lookahead) && s.tokens != []
  {
    hide Rolling, Chained, Windowed, HashAt, HashingOk, IsMatch, Accounts, Ready;
    bflush := TallyDist(s, s.strstart - s.matchStart, s.matchLength - MIN_MATCH, s.base + s.strstart);
    s.lookahead := s.lookahead - s.matchLength;
    PassMatch(s);
  }

  /** Behind the match: its strings are inserted when it is short enough. */
  method PassMatch(s: Lz)
    requires s.Valid() && s.matchLength >= MIN_MATCH && s.base + s.strstart + s.matchLength + s.lookahead == |s.hist|
    requires s.insert == 0 && (s.base > 0 ==> s.strstart >= 2)
    requires s.top == s.base + s.strstart + 1 && Rolling(s.k, s.hist, s.base + s.strstart + 1, s.insH)
    requires s.strstart + s.matchLength + 1 < s.window.Length
    modifies s`insH, s`ins, s`top, s`strstart, s`matchLength, s.head, s.prev
    ensures Ready(s) && s.matchLength == 0 && s.strstart == old(s.strstart + s.matchLength)
  {
    hide Rolling, Chained, Windowed, HashAt, HashingOk;
    if s.matchLength <= s.cfg.lazy && s.lookahead >= MIN_MATCH {
      InsertRun(s);
    } else {
      SkipRun(s);
    }
  }

  /** No match: a literal byte. */
  method TakeLiteral(s: Lz) returns (bflush: bool)
    requires s.Valid() && s.base + s.strstart + s.lookahead == |s.hist| && s.lookahead > 0
    requires (s.base > 0 ==> s.strstart >= 2)
    requires s.lookahead < MIN_MATCH ==> Ready(s)
    requires s.lookahead >= MIN_MATCH ==>
      s.insert == 0 && s.top == s.base + s.strstart + 1 && Rolling(s.k, s.hist, s.base + s.strstart + 1, s.insH)
    requires Out(s, s.base + s.strstart, s.cfg.litBufsize - 1)
    modifies s`tokens, s`strstart, s`lookahead
    ensures Ready(s) && Out(s, s.base + s.strstart, s.cfg.litBufsize) && s.strstart == old(s.strstart) + 1
    ensures bflush <==> |s.tokens| == s.cfg.litBufsize - 1
    ensures s.lookahead < old(s.lookahead) && s.tokens != []
  {
    hide Rolling, Chained, Windowed, HashAt, HashingOk, Accounts;
    WindowByte(s.window[..], s.hist, s.base, s.strstart);
    bflush := TallyLit(s, s.window[s.strstart], s.base + s.strstart);
    s.lookahead := s.lookahead - 1;
    s.strstart := s.strstart + 1;
  }

  /** Find the longest match, from the head of the chain, if there is one near enough. */
  method FastSearch(s: Lz, hashHead: nat)
    requires s.Valid() && s.base + s.strstart + s.lookahead == |s.hist| && s.strstart + MIN_LOOKAHEAD <= 2 * s.wSize
    requires hashHead > 0 ==> s.lookahead >= MIN_MATCH && s.top == s.base + s.strstart + 1
    requires hashHead > 0 ==> HeadAt(s.k, s.hist, s.base, s.ins, hashHead, s.strstart)
    requires ConfigOk(s.cfg) && s.matchLength < MIN_MATCH && s.prevLength == 2
    modifies s`matchStart, s`matchLength
    ensures s.matchLength >= MIN_MATCH ==>
      && s.lookahead >= MIN_MATCH && s.matchLength <= MAX_MATCH && s.matchLength <= s.lookahead
      && s.matchStart < s.strstart <= s.matchStart + s.MaxDist()
      && IsMatch(s.hist, s.base + s.matchStart, s.base + s.strstart, s.matchLength)
  {
    hide Chained, Windowed, HashAt, HashingOk, IsMatch, HeadAt, Walk, Stopped, NoneSeen, Longest;
    if hashHead != 0 && s.strstart - hashHead <= s.MaxDist() {
      var len, seen := FindLongest(s, hashHead);
      s.matchLength := len;
    }
  }

  /** One step: a match or a literal. */
  method FastStep(s: Lz) returns (bflush: bool)
    requires FastReady(s) && s.lookahead > 0 && s.strstart + MIN_LOOKAHEAD <= 2 * s.wSize
    modifies s`tokens, s`insH, s`ins, s`top, s`strstart, s`matchLength, s`matchStart, s`lookahead, s.head, s.prev
    ensures Ready(s) && Out(s, s.base + s.strstart, s.cfg.litBufsize) && s.strstart <= old(s.strstart) + MAX_MATCH
    ensures bflush <==> |s.tokens| == s.cfg.litBufsize - 1
    ensures s.lookahead < old(s.lookahead) && s.matchLength < MIN_MATCH
  {
    hide Rolling, Chained, Windowed, HashAt, HashingOk, IsMatch, Accounts, HeadAt, A32.Adler, Settled, FastReady,
      ConfigOk;
    FastParts(s);
    var hashHead := InsertHere(s);
    FastSearch(s, hashHead);
    if s.matchLength >= MIN_MATCH {
      bflush := TakeMatch(s);
    } else {
      bflush := TakeLiteral(s);
    }
  }

  lemma FastParts(s: Lz)
    requires FastReady(s)
    ensures Ready(s) && ConfigOk(s.cfg) && Out(s, s.base + s.strstart, s.cfg.litBufsize - 1)
    ensures s.matchLength < MIN_MATCH && s.prevLength == 2
    ensures s.Shape() && s.cfg.strategy != Z_RLE
  {
    hide Rolling, Chained, Windowed, HashingOk, Accounts, A32.Adler;
  }

  /** Read input when the lookahead is short: again says that there is something to do. */
  method FastInput(s: Lz, flush: FlushMode) returns (turn: Turn)
    requires FastReady(s)
    modifies s`matchStart, s`strstart, s`blockStart, s`base, s`input, s`adler, s`lookahead, s`hist, s`total
    modifies s`insH, s`insert, s`ins, s`top, s.window, s.head, s.prev
    ensures FastReady(s) && s.total + s.input == old(s.total + s.input)
    ensures |s.input| + s.lookahead == old(|s.input| + s.lookahead)
    ensures turn == again ==> s.lookahead > 0 && s.strstart + MIN_LOOKAHEAD <= 2 * s.wSize
    ensures turn == need_input ==> Blocked(s, flush)
    ensures turn == input_done ==> flush != Z_NO_FLUSH && s.lookahead == 0 && s.input == [] && s.strstart < 65536
  {
    hide FastReady, A32.Adler, ConfigOk;
    FastFacts(s);
    turn := again;
    if s.lookahead < MIN_LOOKAHEAD {
      FastFill(s);
      FastFacts(s);
      if s.lookahead < MIN_LOOKAHEAD && flush == Z_NO_FLUSH {
        turn := need_input;
      } else if s.lookahead == 0 {
        turn := input_done;
      }
    }
  }

  /** A step, and the block when it is full. */
  method FastEmit(s: Lz) returns (turn: Turn)
    requires FastReady(s) && Unfinished(s.sent) && s.lookahead > 0 && s.strstart + MIN_LOOKAHEAD <= 2 * s.wSize
    modifies s`tokens, s`insH, s`ins, s`top, s`strstart, s`matchLength, s`matchStart, s`lookahead, s.head, s.prev
    modifies s`sent, s`since, s`blockStart, s`outFull
    ensures FastReady(s) && Unfinished(s.sent) && s.lookahead < old(s.lookahead)
    ensures turn != input_done && (turn == need_input ==> s.outFull)
    ensures old(s.sent) <= s.sent
  {
    hide FastReady, Steady, Rolling, Unfinished, Accounts, A32.Adler;
    FastFacts(s);
    var bflush := FastStep(s);
    turn := FlushTurn(s, bflush);
    FastAgain(s);
  }

  /** One turn of the loop. */
  method FastTurn(s: Lz, flush: FlushMode) returns (turn: Turn)
    requires FastReady(s) && Unfinished(s.sent)
    modifies s, s.window, s.head, s.prev
    ensures FastReady(s) && Unfinished(s.sent) && s.total + s.input == old(s.total + s.input)
    ensures s.past == old(s.past) && s.before == old(s.before) && s.partial == old(s.partial)
    ensures turn == again ==> |s.input| + s.lookahead < old(|s.input| + s.lookahead)
    ensures turn == need_input ==> Blocked(s, flush)
    ensures turn == input_done ==> flush != Z_NO_FLUSH && s.lookahead == 0 && s.input == [] && s.strstart < 65536
    ensures old(s.sent) <= s.sent
  {
    hide FastReady, Unfinished;
    turn := FastInput(s, flush);
    if turn == again { turn := FastEmit(s); }
  }

  lemma FastFacts(s: Lz)
    requires FastReady(s)
    ensures s.Shape() && s.strstart + s.lookahead <= 2 * s.wSize && ConfigOk(s.cfg) && s.prevLength == 2
    ensures s.adler as nat == A32.Adler(s.total)
  {
    hide Rolling, Chained, Windowed, HashingOk, A32.Adler, Accounts;
    WindowEnd(s.window[..], s.hist, s.base);
  }

  lemma FastAgain(s: Lz)
    requires Ready(s) && ConfigOk(s.cfg) && s.adler as nat == A32.Adler(s.total) && s.matchLength < MIN_MATCH
    requires s.prevLength == 2
    requires Out(s, s.base + s.strstart, s.cfg.litBufsize - 1)
    ensures FastReady(s)
  {
    hide Ready, Accounts, A32.Adler;
  }

  /** deflate_fast: when it is done, the blocks spell all of the input. */
  method DeflateFast(s: Lz, flush: FlushMode) returns (r: BlockState)
    requires FastReady(s) && Unfinished(s.sent)
    modifies s, s.window, s.head, s.prev
    ensures FastReady(s) && s.total + s.input == old(s.total + s.input)
    ensures (Finishing(r) ==> flush == Z_FINISH) && (r == block_done ==> flush != Z_FINISH)
    ensures (r == need_more ==> Blocked(s, flush)) && (r == finish_started ==> s.outFull)
    ensures Finishing(r) || r == block_done ==> Drained(s) && flush != Z_NO_FLUSH
    ensures if Finishing(r) then Closed(s.sent) else Unfinished(s.sent)
    ensures s.past == old(s.past) && s.before == old(s.before) && s.partial == old(s.partial)
    ensures old(s.sent) <= s.sent
  {
    hide FastReady, Closed, Unfinished;
    var turn := again;
    while turn == again
      invariant FastReady(s) && Unfinished(s.sent) && s.total + s.input == old(s.total + s.input)
      invariant old(s.sent) <= s.sent
      invariant s.past == old(s.past) && s.before == old(s.before) && s.partial == old(s.partial)
      invariant turn == input_done ==> flush != Z_NO_FLUSH && s.lookahead == 0 && s.input == [] && s.strstart < 65536
      invariant turn == need_input ==> Blocked(s, flush)
      decreases turn == again, |s.input| + s.lookahead
    {
      turn := FastTurn(s, flush);
    }
    if turn == need_input { return need_more; }
    r := FastEnd(s, flush);
  }

  method FastEnd(s: Lz, flush: FlushMode) returns (r: BlockState)
    requires FastReady(s) && Unfinished(s.sent)
    requires flush != Z_NO_FLUSH && s.lookahead == 0 && s.input == [] && s.strstart < 65536
    modifies s`tokens, s`sent, s`since, s`blockStart, s`outFull, s`insert
    ensures FastReady(s) && Drained(s) && (Finishing(r) <==> flush == Z_FINISH)
    ensures r == need_more || r == finish_started ==> s.outFull
    ensures if Finishing(r) then Closed(s.sent) else Unfinished(s.sent)
    ensures old(s.sent) <= s.sent
  {
    hide Chained, Windowed, HashingOk, Accounts, Unfinished, Closed, A32.Adler;
    OutEnd(s, s.base + s.strstart, s.cfg.litBufsize - 1);
    OutLimit(s, s.base + s.strstart, s.cfg.litBufsize - 1, s.cfg.litBufsize);
    r := EndBlocks(s, flush, if s.strstart < 2 then s.strstart else 2);
    OutLimit(s, s.base + s.strstart, 1, s.cfg.litBufsize - 1);
  }

  /** fill_window, as deflate_fast calls it. */
  method FastFill(s: Lz)
    requires FastReady(s) && s.lookahead < MIN_LOOKAHEAD
    modifies s`matchStart, s`strstart, s`blockStart, s`base, s`input, s`adler, s`lookahead, s`hist, s`total
    modifies s`insH, s`insert, s`ins, s`top, s.window, s.head, s.prev
    ensures FastReady(s) && s.total + s.input == old(s.total + s.input)
    ensures |s.input| + s.lookahead == old(|s.input| + s.lookahead)
    ensures s.strstart + MIN_LOOKAHEAD <= 2 * s.wSize && (s.lookahead >= MIN_LOOKAHEAD || s.input == [])
  {
    hide Chained, Rolling, Windowed, HashingOk, Accounts, A32.Adler, Wrap, Settled;
    ghost var total, hist, begin, end := s.total, s.hist, s.base + s.blockStart, s.base + s.strstart;
    ghost var data := FillWindow(s);
    OutMore(total, s.past, hist, s.sent, s.before, s.since, begin, s.tokens, end, s.cfg.litBufsize - 1,
      LimitsOf(s), data);
    assert total + data + s.input == total + (data + s.input);
  }
}
