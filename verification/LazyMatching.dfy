/** deflate_slow (deps/libz/deflate.c): a match is emitted one position late, when
    the next position has no better one. */
module LazyMatching {
  import opened Bits
  import opened RollingHash
  import opened HashChains
  import opened Tokens
  import opened Emission
  import opened LzState
  import opened LongestMatch
  import opened WindowFill
  import opened Tally
  import opened FastMatching
  import opened FarRuns
  import A32 = Adler32

  const TOO_FAR: nat := 4096

  /** x is the window index, on 32 bits, of the position m: it may have slid out of the window. */
  ghost predicate Refers(x: nat, base: nat, m: nat) {
    x < 0x1_0000_0000 && (base + x == m || base + x == m + 0x1_0000_0000)
  }

  /** There is a match of the string at position at, with matchStart. */
  ghost predicate Found(hist: seq<byte>, base: nat, at: int, matchStart: nat, len: nat, far: int) {
    && 0 <= at && len <= MAX_MATCH
    && exists m: nat :: Refers(matchStart, base, m) && IsMatch(hist, m, at, len) && at - m <= far
  }

  lemma FoundHere(hist: seq<byte>, base: nat, strstart: nat, matchStart: nat, len: nat, far: int)
    requires IsMatch(hist, base + matchStart, base + strstart, len) && len <= MAX_MATCH && strstart - matchStart <= far
    requires strstart < 65536
    ensures Found(hist, base, base + strstart, matchStart, len, far)
  {
    hide IsMatch;
    MatchBefore(hist, base + matchStart, base + strstart, len);
    assert Refers(matchStart, base, base + matchStart);
  }

  lemma MatchBefore(hist: seq<byte>, m: nat, s: nat, len: nat)
    requires IsMatch(hist, m, s, len)
    ensures m < s && s + len <= |hist|
  {
  }

  lemma FoundMore(hist: seq<byte>, base: nat, at: int, matchStart: nat, len: nat, far: int, data: seq<byte>)
    requires Found(hist, base, at, matchStart, len, far)
    ensures Found(hist + data, base, at, matchStart, len, far)
  {
    var m: nat :| Refers(matchStart, base, m) && IsMatch(hist, m, at, len) && at - m <= far;
    assert (hist + data)[m..m + len] == hist[m..m + len];
    assert (hist + data)[at..at + len] == hist[at..at + len];
  }

  lemma FoundSlid(hist: seq<byte>, base: nat, at: int, matchStart: nat, len: nat, far: int, w: nat)
    requires Found(hist, base, at, matchStart, len, far) && w <= 32768 && base <= at && far <= 32768
    ensures Found(hist, base + w, at, Wrap(matchStart, w), len, far)
  {
    hide IsMatch;
    var m: nat :| Refers(matchStart, base, m) && IsMatch(hist, m, at, len) && at - m <= far;
    assert Refers(Wrap(matchStart, w), base + w, m);
  }

  /** The distance, computed on 32 bits. */
  lemma FoundDistance(hist: seq<byte>, base: nat, strstart: nat, prevMatch: nat, len: nat, far: int)
    requires Found(hist, base, base + strstart - 1, prevMatch, len, far) && 0 < strstart < 65536 && far <= 32768
    ensures var d := Wrap(strstart - 1, prevMatch);
      1 <= d <= far && d <= base + strstart - 1 && IsMatch(hist, base + strstart - 1 - d, base + strstart - 1, len)
  {
    var m: nat :| Refers(prevMatch, base, m) && IsMatch(hist, m, base + strstart - 1, len)
      && base + strstart - 1 - m <= far;
    MatchBefore(hist, m, base + strstart - 1, len);
    hide IsMatch;
    assert Wrap(strstart - 1, prevMatch) == base + strstart - 1 - m;
  }

  /** With match_available, the last byte is not emitted yet, and a match may wait for it. */
  ghost predicate Waiting(s: Lz)
    reads s
  {
    && 2 <= s.matchLength <= MAX_MATCH
    && (s.matchAvailable ==> s.strstart > 0 && Out(s, s.base + s.strstart - 1, s.cfg.litBufsize - 1))
    && (!s.matchAvailable ==> s.matchLength == 2 && Out(s, s.base + s.strstart, s.cfg.litBufsize - 1))
    && (s.matchLength >= MIN_MATCH ==>
        Found(s.hist, s.base, s.base + s.strstart - 1, s.matchStart, s.matchLength, s.wSize - MIN_LOOKAHEAD))
  }

  /** Between two calls and two steps of deflate_slow. */
  ghost predicate SlowReady(s: Lz)
    reads s, s.window, s.head, s.prev
  {
    Ready(s) && ConfigOk(s.cfg) && s.adler as nat == A32.Adler(s.total) && Waiting(s)
  }

  // ---- The search ----

  /** After INSERT_STRING at strstart, when there were three bytes. */
  ghost predicate Inserted(s: Lz)
    reads s, s.window, s.head, s.prev
  {
    && s.Valid() && s.base + s.strstart + s.lookahead == |s.hist| && (s.base > 0 ==> s.strstart >= 2)
    && (s.lookahead < MIN_MATCH ==> Ready(s))
    && (s.lookahead >= MIN_MATCH ==>
      s.insert == 0 && s.top == s.base + s.strstart + 1 && Rolling(s.k, s.hist, s.base + s.strstart + 1, s.insH))
  }

  /** There is a match of the string at strstart, at the index m and not too far. */
  ghost predicate MatchedAt(hist: seq<byte>, base: nat, strstart: nat, m: nat, len: nat, maxDist: nat) {
    m < strstart <= m + maxDist && IsMatch(hist, base + m, base + strstart, len)
  }

  /** When the chain is searched at all. */
  predicate Searches(s: Lz, hashHead: nat)
    reads s
    requires s.wSize >= 512
  {
    hashHead != 0 && s.prevLength < s.cfg.lazy && s.strstart - hashHead <= s.MaxDist()
  }

  /** The head of the chain has been seen. */
  lemma HeadSeen(s: Lz, seen: seq<nat>, first: nat, len: nat)
    requires s.Valid() && s.base + s.strstart + s.lookahead == |s.hist| && first < s.strstart && len <= MAX_MATCH
    requires Walk(s.prev[..], s.wBits, Limit(s.strstart, s.MaxDist()), first, seen)
    requires NoneSeen(s.window[..], seen, s.strstart, len, s.lookahead)
    ensures IsMatch(s.hist, s.base + first, s.base + s.strstart, MAX_MATCH) ==> len == MAX_MATCH
  {
    hide Windowed, Chained, HashingOk, IsMatch, Linked, Same;
    if IsMatch(s.hist, s.base + first, s.base + s.strstart, MAX_MATCH) {
      assert first in seen;
      MatchInWindow(s.window[..], s.hist, s.base, first, s.strstart, MAX_MATCH, s.lookahead);
    }
  }

  /** Look for a match at strstart, better than the previous one. */
  method Search(s: Lz, hashHead: nat)
    requires Inserted(s) && ConfigOk(s.cfg) && 2 <= s.matchLength <= MAX_MATCH
    requires s.strstart + MIN_LOOKAHEAD <= 2 * s.wSize
    requires hashHead > 0 ==> s.lookahead >= MIN_MATCH && HeadAt(s.k, s.hist, s.base, s.ins, hashHead, s.strstart)
    modifies s`prevLength, s`prevMatch, s`matchLength, s`matchStart
    ensures Inserted(s) && s.prevLength == old(s.matchLength) && s.prevMatch == old(s.matchStart)
    ensures 2 <= s.matchLength <= MAX_MATCH
    ensures s.matchLength > s.prevLength ==>
      Found(s.hist, s.base, s.base + s.strstart, s.matchStart, s.matchLength, s.wSize - MIN_LOOKAHEAD)
    ensures s.matchLength > s.prevLength ==>
      MatchedAt(s.hist, s.base, s.strstart, s.matchStart, s.matchLength, s.MaxDist())
    ensures if Searches(s, hashHead) then
        IsMatch(s.hist, s.base + hashHead, s.base + s.strstart, MAX_MATCH) ==> s.matchLength == MAX_MATCH
      else s.matchLength == 2 && s.matchStart == old(s.matchStart)
  {
    hide Rolling, Chained, Windowed, HashAt, HashingOk, IsMatch, HeadAt, Same, Settled, Found, MatchedAt;
    s.prevLength, s.prevMatch := s.matchLength, s.matchStart;
    s.matchLength := 2;
    if hashHead != 0 && s.prevLength < s.cfg.lazy && s.strstart - hashHead <= s.MaxDist() {
      var len := SearchFrom(s, hashHead);
      s.matchLength := len;
      if s.matchLength <= 5 && (s.cfg.strategy == Z_FILTERED
        || (s.matchLength == MIN_MATCH && Wrap(s.strstart, s.matchStart) > TOO_FAR)) {
        s.matchLength := 2;
      }
    }
  }

  method SearchFrom(s: Lz, hashHead: nat) returns (len: nat)
    requires Inserted(s) && s.cfg.chain >= 4 && 2 <= s.prevLength <= MAX_MATCH
    requires s.strstart + MIN_LOOKAHEAD <= 2 * s.wSize && s.strstart - hashHead <= s.MaxDist()
    requires s.lookahead >= MIN_MATCH && HeadAt(s.k, s.hist, s.base, s.ins, hashHead, s.strstart)
    modifies s`matchStart
    ensures Inserted(s) && 2 <= len <= MAX_MATCH
    ensures len > s.prevLength ==>
      Found(s.hist, s.base, s.base + s.strstart, s.matchStart, len, s.wSize - MIN_LOOKAHEAD)
    ensures len > s.prevLength ==> MatchedAt(s.hist, s.base, s.strstart, s.matchStart, len, s.MaxDist())
    ensures IsMatch(s.hist, s.base + hashHead, s.base + s.strstart, MAX_MATCH) ==> len == MAX_MATCH
  {
    hide Rolling, Chained, Windowed, HashAt, HashingOk, IsMatch, HeadAt, Same, Settled, Found, Walk, Stopped,
      NoneSeen, Limit, ChainLength, NiceLength, Longest;
    ghost var seen;
    len, seen := FindLongest(s, hashHead);
    HeadFacts(s.k, s.hist, s.base, s.ins, hashHead, s.strstart);
    HeadSeen(s, seen, hashHead, len);
    if len > s.prevLength {
      FoundHere(s.hist, s.base, s.strstart, s.matchStart, len, s.wSize - MIN_LOOKAHEAD);
    }
  }

  // ---- The three ways to go on ----

  /** All strings from begin to end are inserted, as far as there are three bytes. */
  ghost predicate Entered(ins: set<nat>, ins': set<nat>, hist: seq<byte>, begin: nat, end: nat) {
    ins <= ins' && forall p: nat :: begin <= p < end && p + 2 < |hist| ==> p in ins'
  }

  /** Insert the strings of the previous match, as far as there are three bytes. */
  method LazyRun(s: Lz, maxInsert: nat)
    requires s.Valid() && s.base + s.strstart + s.prevLength + 1 + s.lookahead == |s.hist| && s.prevLength > 0
    requires s.base + maxInsert + MIN_MATCH == |s.hist| && (s.base > 0 ==> s.strstart >= 2)
    requires s.top <= s.base + s.strstart + 1 && (s.top + 2 <= |s.hist| || s.top == 0) && s.insert == 0
    requires s.strstart <= maxInsert ==> Rolling(s.k, s.hist, s.base + s.strstart + 1, s.insH)
    modifies s`insH, s`ins, s`top, s`strstart, s`prevLength, s.head, s.prev
    ensures Ready(s) && s.strstart == old(s.strstart + s.prevLength) + 1
    ensures Entered(old(s.ins), s.ins, s.hist, s.base + old(s.strstart) + 1, s.base + s.strstart)
  {
    hide Rolling, Chained, Windowed, HashAt, HashingOk;
    while s.prevLength != 0
      invariant s.Valid() && s.base + s.strstart + s.prevLength + 1 + s.lookahead == |s.hist|
      invariant s.top <= s.base + s.strstart + 1 && (s.top + 2 <= |s.hist| || s.top == 0)
      invariant s.strstart <= maxInsert ==> Rolling(s.k, s.hist, s.base + s.strstart + 1, s.insH)
      invariant s.strstart >= old(s.strstart) && s.strstart + s.prevLength == old(s.strstart + s.prevLength)
      invariant Entered(old(s.ins), s.ins, s.hist, s.base + old(s.strstart) + 1, s.base + s.strstart + 1)
      decreases s.prevLength
    {
      s.strstart := s.strstart + 1;
      if s.strstart <= maxInsert {
        var hashHead := InsertString(s, s.strstart);
      }
      s.prevLength := s.prevLength - 1;
    }
    s.strstart := s.strstart + 1;
  }

  /** The token for the previous match. */
  ghost function Waits(s: Lz): Token
    reads s
    requires s.strstart > 0 && MIN_MATCH <= s.prevLength <= MAX_MATCH
  {
    Match(s.prevLength - MIN_MATCH, Wrap(s.strstart - 1, s.prevMatch))
  }

  /** The previous match was the better one. */
  method EmitPrevious(s: Lz) returns (bflush: bool)
    requires Inserted(s) && s.strstart > 0 && Out(s, s.base + s.strstart - 1, s.cfg.litBufsize - 1)
    requires MIN_MATCH <= s.prevLength <= MAX_MATCH && s.strstart + MIN_LOOKAHEAD <= 2 * s.wSize
    requires Found(s.hist, s.base, s.base + s.strstart - 1, s.prevMatch, s.prevLength, s.wSize - MIN_LOOKAHEAD)
    requires s.cfg.strategy != Z_RLE
    modifies s`tokens, s`insH, s`ins, s`top, s`strstart, s`prevLength, s`matchLength, s`matchAvailable, s`lookahead,
      s.head, s.prev
    ensures Ready(s) && Out(s, s.base + s.strstart, s.cfg.litBufsize) && s.strstart <= old(s.strstart) + MAX_MATCH
    ensures bflush <==> |s.tokens| == s.cfg.litBufsize - 1
    ensures s.lookahead < old(s.lookahead) && s.matchLength == 2 && !s.matchAvailable
    ensures s.strstart == old(s.strstart + s.prevLength) - 1 && s.tokens == old(s.tokens + [Waits(s)])
    ensures Entered(old(s.ins), s.ins, s.hist, s.base + old(s.strstart) + 1, s.base + s.strstart)
  {
    hide Rolling, Chained, Windowed, HashAt, HashingOk, IsMatch, Accounts, Found, Wrap, Settled, Ready, Inserted;
    PreviousFits(s);
    bflush := TallyPrevious(s);
    SkipPrevious(s);
  }

  method TallyPrevious(s: Lz) returns (bflush: bool)
    requires Inserted(s) && s.strstart > 0 && Out(s, s.base + s.strstart - 1, s.cfg.litBufsize - 1)
    requires MIN_MATCH <= s.prevLength <= MAX_MATCH && s.strstart + MIN_LOOKAHEAD <= 2 * s.wSize
    requires Found(s.hist, s.base, s.base + s.strstart - 1, s.prevMatch, s.prevLength, s.wSize - MIN_LOOKAHEAD)
    requires s.cfg.strategy != Z_RLE
    modifies s`tokens
    ensures Inserted(s) && Out(s, s.base + s.strstart - 1 + s.prevLength, s.cfg.litBufsize)
    ensures s.tokens == old(s.tokens + [Waits(s)])
    ensures bflush <==> |s.tokens| == s.cfg.litBufsize - 1
  {
    hide Rolling, Chained, Windowed, HashAt, HashingOk, IsMatch, Accounts, Found, Wrap, Settled, Out;
    PreviousFits(s);
    FoundDistance(s.hist, s.base, s.strstart, s.prevMatch, s.prevLength, s.wSize - MIN_LOOKAHEAD);
    bflush := TallyDist(s, Wrap(s.strstart - 1, s.prevMatch), s.prevLength - MIN_MATCH, s.base + s.strstart - 1);
  }

  method SkipPrevious(s: Lz)
    requires Inserted(s) && s.strstart > 0 && MIN_MATCH <= s.prevLength <= s.lookahead + 1
    modifies s`insH, s`ins, s`top, s`strstart, s`prevLength, s`matchLength, s`matchAvailable, s`lookahead, s.head,
      s.prev
    ensures Ready(s) && s.strstart == old(s.strstart + s.prevLength) - 1 && s.lookahead < old(s.lookahead)
    ensures s.matchLength == 2 && !s.matchAvailable
    ensures Entered(old(s.ins), s.ins, s.hist, s.base + old(s.strstart) + 1, s.base + s.strstart)
  {
    hide Rolling, Chained, Windowed, HashAt, HashingOk;
    var maxInsert := s.strstart + s.lookahead - MIN_MATCH;
    s.lookahead := s.lookahead - (s.prevLength - 1);
    s.prevLength := s.prevLength - 2;
    LazyRun(s, maxInsert);
    s.matchAvailable := false;
    s.matchLength := 2;
  }

  /** The match ends within the input, and starts before it. */
  lemma PreviousFits(s: Lz)
    requires Inserted(s) && s.strstart > 0
    requires Found(s.hist, s.base, s.base + s.strstart - 1, s.prevMatch, s.prevLength, s.wSize - MIN_LOOKAHEAD)
    ensures s.prevLength <= s.lookahead + 1 && s.base + s.strstart >= 2 && s.strstart >= 2
  {
    hide Rolling, Chained, Windowed, HashingOk, IsMatch;
    var m: nat :| Refers(s.prevMatch, s.base, m) && IsMatch(s.hist, m, s.base + s.strstart - 1, s.prevLength);
    MatchBefore(s.hist, m, s.base + s.strstart - 1, s.prevLength);
  }

  /** The previous byte is a literal; the block may then end before the current one. */
  method EmitLiteral(s: Lz) returns (full: bool)
    requires Inserted(s) && s.strstart > 0 && s.lookahead > 0 && Out(s, s.base + s.strstart - 1, s.cfg.litBufsize - 1)
    requires ConfigOk(s.cfg) && s.strstart < 65536 && Unfinished(s.sent)
    modifies s`tokens, s`sent, s`since, s`blockStart, s`outFull, s`strstart, s`lookahead
    ensures Ready(s) && Out(s, s.base + s.strstart - 1, s.cfg.litBufsize - 1) && Unfinished(s.sent)
    ensures s.strstart == old(s.strstart) + 1 && s.lookahead == old(s.lookahead) - 1 && full == s.outFull
    ensures old(s.sent) <= s.sent
  {
    hide Rolling, Chained, Windowed, HashAt, HashingOk, Accounts, Unfinished, Closed, Settled;
    WindowByte(s.window[..], s.hist, s.base, s.strstart - 1);
    var bflush := TallyLit(s, s.window[s.strstart - 1], s.base + s.strstart - 1);
    full := FlushOnly(s, bflush);
    NextString(s);
  }

  /** if (bflush) FLUSH_BLOCK_ONLY(s, 0) */
  method FlushOnly(s: Lz, bflush: bool) returns (full: bool)
    requires s.Valid() && Out(s, s.base + s.strstart, s.cfg.litBufsize) && s.strstart < 65536 && ConfigOk(s.cfg)
    requires Unfinished(s.sent)
    requires bflush <==> |s.tokens| == s.cfg.litBufsize - 1
    modifies s`tokens, s`sent, s`since, s`blockStart, s`outFull
    ensures Out(s, s.base + s.strstart, s.cfg.litBufsize - 1) && Unfinished(s.sent) && full == s.outFull
    ensures old(s.sent) <= s.sent
  {
    hide Chained, Windowed, Rolling, Accounts, Unfinished, Closed, HashingOk;
    if bflush {
      full := FlushBlock(s, false);
      OutLimit(s, s.base + s.strstart, 1, s.cfg.litBufsize - 1);
    } else {
      full := s.outFull;
      OutEnd(s, s.base + s.strstart, s.cfg.litBufsize);
      OutLimit(s, s.base + s.strstart, s.cfg.litBufsize, s.cfg.litBufsize - 1);
    }
  }

  /** strstart++; lookahead-- */
  method NextString(s: Lz)
    requires Inserted(s) && s.lookahead > 0
    modifies s`strstart, s`lookahead
    ensures Ready(s) && s.strstart == old(s.strstart) + 1 && s.lookahead == old(s.lookahead) - 1
  {
    hide Rolling, Chained, Windowed, HashAt, HashingOk;
    s.strstart, s.lookahead := s.strstart + 1, s.lookahead - 1;
  }

  /** One more token: the block is sent when it is full. */
  ghost predicate Adds(c: Config, ts: seq<Token>, sent: seq<Piece>, blockStart: int, tokens': seq<Token>,
                       sent': seq<Piece>, blockStart': int, strstart': nat, turn: Turn) {
    if |ts| == c.litBufsize - 1 then OneBlock(sent, sent', ts, strstart' - blockStart)
    else turn == again && tokens' == ts && sent' == sent && blockStart' == blockStart
  }

  ghost predicate OneBlock(sent: seq<Piece>, sent': seq<Piece>, ts: seq<Token>, len: int) {
    && |sent| < |sent'| && sent == sent'[..|sent|]
    && var p := sent'[|sent|]; p.Compressed? && p.tokens == ts && p.len == len && !p.last
  }

  lemma AddsFrom(c: Config, ts: seq<Token>, sent: seq<Piece>, blockStart: int, tokens': seq<Token>,
                 sent': seq<Piece>, blockStart': int, strstart': nat, turn: Turn, p: Piece)
    requires if |ts| == c.litBufsize - 1 then sent' == sent + [p] && p.Compressed? && p.tokens == ts && !p.last
        && p.len == strstart' - blockStart
      else turn == again && tokens' == ts && sent' == sent && blockStart' == blockStart
    ensures Adds(c, ts, sent, blockStart, tokens', sent', blockStart', strstart', turn)
  {
    assert (sent + [p])[..|sent|] == sent;
  }

  /** The match that waited is sent, and what follows begins at end - 1. */
  ghost predicate Sent(s: Lz, ts: seq<Token>, sent: seq<Piece>, blockStart: int, end: nat, turn: Turn)
    reads s
  {
    && s.strstart + 1 == end && !s.matchAvailable && s.matchLength == 2
    && Adds(s.cfg, ts, sent, blockStart, s.tokens, s.sent, s.blockStart, s.strstart, turn)
  }

  /** The match is left for the next step. */
  ghost predicate Defers(s: Lz, tokens: seq<Token>, sent: seq<Piece>, blockStart: int, strstart: nat,
                         matchLength: nat, turn: Turn)
    reads s
  {
    && turn == again && s.tokens == tokens && s.sent == sent && s.blockStart == blockStart
    && s.strstart == strstart + 1 && s.matchAvailable && s.matchLength == matchLength
  }

  /** One step, after the search. */
  method SlowStep(s: Lz) returns (turn: Turn)
    requires Inserted(s) && ConfigOk(s.cfg) && Unfinished(s.sent) && s.strstart + MIN_LOOKAHEAD <= 2 * s.wSize
    requires s.lookahead > 0
    requires s.adler as nat == A32.Adler(s.total) && 2 <= s.prevLength <= MAX_MATCH && 2 <= s.matchLength <= MAX_MATCH
    requires s.matchAvailable ==> s.strstart > 0 && Out(s, s.base + s.strstart - 1, s.cfg.litBufsize - 1)
    requires !s.matchAvailable ==> s.prevLength == 2 && Out(s, s.base + s.strstart, s.cfg.litBufsize - 1)
    requires s.prevLength >= MIN_MATCH ==>
      Found(s.hist, s.base, s.base + s.strstart - 1, s.prevMatch, s.prevLength, s.wSize - MIN_LOOKAHEAD)
    requires s.matchLength > s.prevLength ==>
      Found(s.hist, s.base, s.base + s.strstart, s.matchStart, s.matchLength, s.wSize - MIN_LOOKAHEAD)
    modifies s`tokens, s`sent, s`since, s`blockStart, s`outFull, s`insH, s`ins, s`top, s`strstart, s`prevLength,
      s`matchLength, s`matchAvailable,
      s`lookahead, s.head, s.prev
    ensures SlowReady(s) && Unfinished(s.sent) && s.lookahead < old(s.lookahead) && turn != input_done
    ensures (turn == need_input ==> s.outFull)
    ensures old(s.sent) <= s.sent
    ensures Entered(old(s.ins), s.ins, s.hist, s.base + old(s.strstart) + 1, s.base + s.strstart)
    ensures old(s.prevLength >= MIN_MATCH && s.matchLength <= s.prevLength) ==>
      Sent(s, old(s.tokens + [Waits(s)]), old(s.sent), old(s.blockStart), old(s.strstart + s.prevLength), turn)
    ensures old(s.prevLength < MIN_MATCH && !s.matchAvailable) ==>
      Defers(s, old(s.tokens), old(s.sent), old(s.blockStart), old(s.strstart), old(s.matchLength), turn)
  {
    hide Rolling, Chained, Windowed, HashAt, HashingOk, Accounts, Unfinished, Closed, Settled, Found, A32.Adler,
      ConfigOk, SlowReady, Sent, Wrap;
    if s.prevLength >= MIN_MATCH && s.matchLength <= s.prevLength {
      turn := SendPrevious(s);
    } else if s.matchAvailable {
      var full := EmitLiteral(s);
      turn := if full then need_input else again;
      SlowAgain(s);
    } else {
      s.matchAvailable := true;
      NextString(s);
      turn := again;
      SlowAgain(s);
    }
  }

  /** The previous match, and the block when it is full. */
  method SendPrevious(s: Lz) returns (turn: Turn)
    requires Inserted(s) && ConfigOk(s.cfg) && Unfinished(s.sent) && s.strstart + MIN_LOOKAHEAD <= 2 * s.wSize
    requires s.adler as nat == A32.Adler(s.total) && s.strstart > 0 && MIN_MATCH <= s.prevLength <= MAX_MATCH
    requires Out(s, s.base + s.strstart - 1, s.cfg.litBufsize - 1)
    requires Found(s.hist, s.base, s.base + s.strstart - 1, s.prevMatch, s.prevLength, s.wSize - MIN_LOOKAHEAD)
    modifies s`tokens, s`sent, s`since, s`blockStart, s`outFull, s`insH, s`ins, s`top, s`strstart, s`prevLength,
      s`matchLength, s`matchAvailable,
      s`lookahead, s.head, s.prev
    ensures SlowReady(s) && Unfinished(s.sent) && s.lookahead < old(s.lookahead) && turn != input_done
    ensures (turn == need_input ==> s.outFull)
    ensures old(s.sent) <= s.sent
    ensures Entered(old(s.ins), s.ins, s.hist, s.base + old(s.strstart) + 1, s.base + s.strstart)
    ensures Sent(s, old(s.tokens + [Waits(s)]), old(s.sent), old(s.blockStart), old(s.strstart + s.prevLength), turn)
  {
    hide Rolling, Chained, Windowed, HashAt, HashingOk, Accounts, Unfinished, Closed, Settled, Found, A32.Adler,
      SlowReady, Wrap, Entered, Adds;
    ghost var ts := s.tokens + [Waits(s)];
    var bflush := EmitPrevious(s);
    turn := FlushTurn(s, bflush);
    AddsFrom(s.cfg, ts, old(s.sent), old(s.blockStart), s.tokens, s.sent, s.blockStart, s.strstart, turn,
      Flushed(s, ts, old(s.blockStart), false));
    SlowAgain(s);
  }

  lemma SlowAgain(s: Lz)
    requires Ready(s) && ConfigOk(s.cfg) && s.adler as nat == A32.Adler(s.total) && 2 <= s.matchLength <= MAX_MATCH
    requires s.matchAvailable ==> s.strstart > 0 && Out(s, s.base + s.strstart - 1, s.cfg.litBufsize - 1)
    requires !s.matchAvailable ==> s.matchLength == 2 && Out(s, s.base + s.strstart, s.cfg.litBufsize - 1)
    requires s.matchLength >= MIN_MATCH ==>
      Found(s.hist, s.base, s.base + s.strstart - 1, s.matchStart, s.matchLength, s.wSize - MIN_LOOKAHEAD)
    ensures SlowReady(s)
  {
    hide Ready, ConfigOk, A32.Adler, Found, Accounts;
  }

  // ---- deflate_slow ----

  /** All of h fits into the window and is read at once, and all its strings are inserted so far. */
  ghost predicate InOne(s: Lz, h: seq<byte>)
    reads s
  {
    && s.base == 0 && s.hist + s.input == h && |h| + MIN_LOOKAHEAD < 2 * s.wSize && AllIn(s)
    && (s.input == [] || (s.lookahead == 0 && s.insert == if s.strstart < 2 then s.strstart else 2))
  }

  lemma StartsAtZero(s: Lz, h: seq<byte>, hist: seq<byte>, input: seq<byte>, strstart: nat, lookahead: nat, base: nat)
    requires s.Shape() && hist + input == h && base == 0 && |hist| == strstart + lookahead
    requires |h| + MIN_LOOKAHEAD < 2 * s.wSize
    requires s.base == base || (s.base == base + s.wSize && strstart >= s.wSize + s.MaxDist())
    ensures s.base == 0
  {
    hide HashingOk;
  }

  /** After fill_window it is read. */
  lemma FillsOne(s: Lz, h: seq<byte>, hist: seq<byte>, input: seq<byte>, data: seq<byte>, ins: set<nat>, insert: nat,
                 strstart: nat, lookahead: nat)
    requires Steady(s) && s.base == 0 && s.strstart == strstart && |h| + MIN_LOOKAHEAD < 2 * s.wSize
    requires hist + input == h && s.hist == hist + data && input == data + s.input && |hist| == strstart + lookahead
    requires forall p: nat :: p < strstart && p + 2 < |hist| ==> p in ins
    requires input == [] || (lookahead == 0 && insert == if strstart < 2 then strstart else 2)
    requires Joined(ins, s.ins, strstart - insert, strstart - s.insert)
    requires s.input == [] || s.strstart + s.lookahead == s.window.Length
    ensures InOne(s, h) && s.input == []
  {
    hide Chained, Windowed, HashingOk;
    assert hist + data + s.input == hist + (data + s.input);
    assert data + [] == data;
  }

  /** fill_window, as deflate_slow calls it: what waits stays, although the window may slide. */
  method SlowFill(s: Lz)
    requires SlowReady(s) && s.lookahead < MIN_LOOKAHEAD
    modifies s`matchStart, s`strstart, s`blockStart, s`base, s`input, s`adler, s`lookahead, s`hist, s`total
    modifies s`insH, s`insert, s`ins, s`top, s.window, s.head, s.prev
    ensures SlowReady(s) && s.total + s.input == old(s.total + s.input)
    ensures |s.input| + s.lookahead == old(|s.input| + s.lookahead)
    ensures s.strstart + MIN_LOOKAHEAD <= 2 * s.wSize && (s.lookahead >= MIN_LOOKAHEAD || s.input == [])
    ensures old(InOne(s, s.hist + s.input)) ==>
      InOne(s, old(s.hist + s.input)) && s.input == [] && s.strstart == old(s.strstart)
        && s.matchStart == old(s.matchStart) && s.blockStart == old(s.blockStart)
  {
    hide Rolling, Chained, Windowed, HashingOk, Accounts, A32.Adler, Wrap, Settled, Found, Joined;
    ghost var one, h, input, ins, insert := InOne(s, s.hist + s.input), s.hist + s.input, s.input, s.ins, s.insert;
    ghost var strstart, lookahead := s.strstart, s.lookahead;
    LookaheadIs(s);
    ghost var total, hist, base, begin, end := s.total, s.hist, s.base, s.base + s.blockStart, s.base + s.strstart;
    ghost var start := s.matchStart;
    ghost var data := FillWindow(s);
    ReadyStart(s);
    OutMore(total, s.past, hist, s.sent, s.before, s.since, begin, s.tokens, if s.matchAvailable then end - 1 else end,
      s.cfg.litBufsize - 1, LimitsOf(s), data);
    WaitingMatch(hist, base, end - 1, start, s.matchLength, s.wSize - MIN_LOOKAHEAD, data, s.base, s.matchStart,
      s.wSize);
    assert total + data + s.input == total + (data + s.input);
    if one {
      StartsAtZero(s, h, hist, input, strstart, lookahead, base);
      FillsOne(s, h, hist, input, data, ins, insert, strstart, lookahead);
    }
  }

  lemma LookaheadIs(s: Lz)
    requires SlowReady(s)
    ensures s.base + s.strstart + s.lookahead == |s.hist|
  {
    hide Rolling, Chained, Windowed, HashingOk, Accounts, A32.Adler, Found;
  }

  lemma ReadyStart(s: Lz)
    requires Ready(s)
    ensures s.base > 0 ==> s.strstart >= 2
  {
    hide Rolling, Chained, Windowed, HashingOk;
  }

  lemma WaitingMatch(hist: seq<byte>, base: nat, at: int, start: nat, len: nat, far: int, data: seq<byte>, base': nat,
                     start': nat, w: nat)
    requires len >= MIN_MATCH ==> Found(hist, base, at, start, len, far)
    requires 0 < w <= 32768 && far <= 32768 && base' <= at + 1
    requires (base' == base && start' == start) || (base' == base + w && start' == Wrap(start, w))
    ensures len >= MIN_MATCH ==> Found(hist + data, base', at, start', len, far)
  {
    hide Found, Wrap;
    if len >= MIN_MATCH {
      FoundMore(hist, base, at, start, len, far, data);
      if base' != base || start' != start { FoundSlid(hist + data, base, at, start, len, far, w); }
    }
  }

  lemma SlowFacts(s: Lz)
    requires SlowReady(s)
    ensures s.Shape() && s.strstart + s.lookahead <= 2 * s.wSize && ConfigOk(s.cfg) && Ready(s) && Waiting(s)
    ensures s.adler as nat == A32.Adler(s.total)
  {
    hide Rolling, Chained, Windowed, HashingOk, A32.Adler, Accounts, Found;
    WindowEnd(s.window[..], s.hist, s.base);
  }

  /** All strings before the current one are inserted, as far as there are three bytes. */
  ghost predicate AllIn(s: Lz)
    reads s
  {
    forall p: nat :: p < s.base + s.strstart && p + 2 < |s.hist| ==> p in s.ins
  }

  lemma AllInStep(s: Lz, ins: set<nat>, end: nat)
    requires forall p: nat :: p < end && p + 2 < |s.hist| ==> p in ins
    requires Entered(ins, s.ins, s.hist, end, s.base + s.strstart)
    ensures AllIn(s)
  {
  }

  /** INSERT_STRING and the search; the only string of its hash in reach is found. */
  method SlowSearch(s: Lz)
    requires SlowReady(s) && s.strstart + MIN_LOOKAHEAD <= 2 * s.wSize && s.lookahead > 0
    modifies s`insH, s`ins, s`top, s`prevLength, s`prevMatch, s`matchLength, s`matchStart, s.head, s.prev
    ensures Inserted(s) && 2 <= s.matchLength <= MAX_MATCH
    ensures s.prevLength == old(s.matchLength) && s.prevMatch == old(s.matchStart)
    ensures s.matchLength > s.prevLength ==>
      Found(s.hist, s.base, s.base + s.strstart, s.matchStart, s.matchLength, s.wSize - MIN_LOOKAHEAD)
    ensures Entered(old(s.ins), s.ins, s.hist, s.base + s.strstart, s.base + s.strstart + 1)
    ensures old(CopyNext(s)) && Copies(s.k, s.hist, s.strstart, s.MaxDist()) ==>
      s.matchLength == MAX_MATCH && s.matchStart + FAR == s.strstart && s.prevLength < MIN_MATCH && !s.matchAvailable
    ensures old(CopyWaits(s)) ==> s.prevLength == MAX_MATCH && s.matchLength == 2 && Waits(s) == Match(255, FAR)
  {
    hide Rolling, Chained, Windowed, HashAt, HashingOk, Accounts, Settled, Found, A32.Adler, HeadAt, MatchedAt,
      LinksTo, IsMatch, AllIn, Copies, CopyNext, CopyWaits, SlowReady, Waiting, Ready, Lz.Valid, Lz.Shape, ConfigOk,
      Waits;
    SlowFacts(s);
    SlowWaits(s);
    ShapeSize(s);
    ghost var ins := s.ins;
    ghost var copies, waits := CopyNext(s) && Copies(s.k, s.hist, s.strstart, s.MaxDist()), CopyWaits(s);
    if waits { WaitsLong(s); }
    if copies { CopiesIn(s); }
    var hashHead := InsertHere(s);
    if copies { HeadCopies(s.k, s.hist, ins, s.strstart, hashHead, s.MaxDist()); }
    Search(s, hashHead);
    if copies { FoundCopies(s.k, s.hist, s.strstart, s.matchStart, s.matchLength, s.MaxDist()); }
    if waits { WaitsFar(s); }
  }

  lemma CopiesIn(s: Lz)
    requires CopyNext(s) && s.wSize >= 512 && Copies(s.k, s.hist, s.strstart, s.MaxDist())
    ensures s.base == 0 && s.matchLength == 2 < s.cfg.lazy && !s.matchAvailable
    ensures s.strstart - FAR in s.ins && s.strstart + MAX_MATCH <= |s.hist| && FAR < s.strstart
    ensures FAR <= s.MaxDist()
    ensures IsMatch(s.hist, s.strstart - FAR, s.strstart, MAX_MATCH)
  {
    hide HashAt;
  }

  lemma ShapeSize(s: Lz)
    requires s.Shape()
    ensures s.wSize >= 512
  {
    hide HashingOk;
  }

  lemma WaitsLong(s: Lz)
    requires CopyWaits(s)
    ensures s.matchAvailable && s.matchLength == MAX_MATCH >= s.cfg.lazy && 0 < s.strstart < 65536
    ensures s.matchStart + FAR + 1 == s.strstart
  {
  }

  /** The head of the chain is the string that repeats. */
  lemma HeadCopies(k: Hashing, hist: seq<byte>, ins: set<nat>, a: nat, head: nat, maxDist: nat)
    requires Copies(k, hist, a, maxDist) && a - FAR in ins && LinksTo(k, hist, 0, ins, head, HashAt(k, hist, a), a)
    ensures head == a - FAR
  {
    hide HashAt, Hash3;
    MatchHash(k, hist, a - FAR, a, MAX_MATCH);
  }

  /** A match that is found is that one. */
  lemma FoundCopies(k: Hashing, hist: seq<byte>, a: nat, m: nat, len: nat, maxDist: nat)
    requires Copies(k, hist, a, maxDist) && MatchedAt(hist, 0, a, m, len, maxDist) && len >= MIN_MATCH
    ensures m + FAR == a
  {
    hide HashAt, IsMatch;
    MatchHash(k, hist, m, a, len);
  }

  /** The search and one step. */
  method SlowMatch(s: Lz) returns (turn: Turn)
    requires SlowReady(s) && Unfinished(s.sent) && s.strstart + MIN_LOOKAHEAD <= 2 * s.wSize && s.lookahead > 0
    modifies s`tokens, s`sent, s`since, s`blockStart, s`outFull, s`insH, s`ins, s`top, s`strstart, s`prevLength,
      s`prevMatch, s`matchLength, s`matchStart, s`matchAvailable, s`lookahead, s.head, s.prev
    ensures SlowReady(s) && Unfinished(s.sent) && s.lookahead < old(s.lookahead) && turn != input_done
    ensures (turn == need_input ==> s.outFull)
    ensures old(s.sent) <= s.sent
    ensures old(AllIn(s)) ==> AllIn(s)
    ensures old(CopyNext(s)) && Copies(s.k, s.hist, old(s.strstart), s.MaxDist()) ==>
      s.matchStart + FAR == old(s.strstart)
        && Defers(s, old(s.tokens), old(s.sent), old(s.blockStart), old(s.strstart), MAX_MATCH, turn)
    ensures old(CopyWaits(s)) ==>
      Sent(s, old(s.tokens) + [Match(255, FAR)], old(s.sent), old(s.blockStart), old(s.strstart) + MAX_MATCH, turn)
  {
    hide *;
    SlowWaits(s);
    ghost var ins, a, start := s.ins, s.base + s.strstart, s.strstart;
    ghost var all := AllIn(s);
    AllInIs(s);
    ghost var end := if s.matchAvailable then a - 1 else a;
    OutParts(s, end, s.cfg.litBufsize - 1);
    SlowSearch(s);
    OutFrom(s, end, s.cfg.litBufsize - 1);
    ghost var ins1 := s.ins;
    turn := SlowStep(s);
    EnteredTwice(ins, ins1, s.ins, s.hist, a, s.base + s.strstart);
    if all { AllInStep(s, ins, a); }
  }

  /** Before a string that is copied, and after its match is found. */
  ghost predicate CopyNext(s: Lz)
    reads s
  {
    s.base == 0 && AllIn(s) && s.matchLength == 2 < s.cfg.lazy && !s.matchAvailable
  }

  ghost predicate CopyWaits(s: Lz)
    reads s
  {
    && s.matchAvailable && s.matchLength == MAX_MATCH >= s.cfg.lazy && 0 < s.strstart < 65536
    && s.matchStart + FAR + 1 == s.strstart
  }

  lemma SlowWaits(s: Lz)
    requires SlowReady(s)
    ensures s.Shape() && ConfigOk(s.cfg) && s.adler as nat == A32.Adler(s.total) && 2 <= s.matchLength <= MAX_MATCH
    ensures MIN_MATCH == 3 && MAX_MATCH == 258
    ensures s.matchAvailable ==> s.strstart > 0 && Out(s, s.base + s.strstart - 1, s.cfg.litBufsize - 1)
    ensures !s.matchAvailable ==> s.matchLength == 2 && Out(s, s.base + s.strstart, s.cfg.litBufsize - 1)
    ensures s.matchLength >= MIN_MATCH ==>
      Found(s.hist, s.base, s.base + s.strstart - 1, s.matchStart, s.matchLength, s.wSize - MIN_LOOKAHEAD)
  {
    hide Rolling, Chained, Windowed, HashingOk, A32.Adler, Accounts, Found;
  }

  lemma AllInIs(s: Lz)
    ensures AllIn(s) <==> forall p: nat :: p < s.base + s.strstart && p + 2 < |s.hist| ==> p in s.ins
  {
  }

  lemma OutParts(s: Lz, end: int, limit: int)
    requires Out(s, end, limit)
    ensures Accounts(s.total, s.past, s.hist, s.sent, s.before, s.since, s.base + s.blockStart, s.tokens, end, limit,
              Limits(s.cfg, s.wSize, s.partial))
    ensures s.ample ==> !s.outFull
  {
    hide Accounts;
  }

  lemma OutFrom(s: Lz, end: int, limit: int)
    requires Accounts(s.total, s.past, s.hist, s.sent, s.before, s.since, s.base + s.blockStart, s.tokens, end, limit,
               Limits(s.cfg, s.wSize, s.partial))
    requires s.ample ==> !s.outFull
    ensures Out(s, end, limit)
  {
    hide Accounts;
  }

  lemma WaitsFar(s: Lz)
    requires 0 < s.strstart < 65536 && s.prevLength == MAX_MATCH && s.prevMatch + FAR + 1 == s.strstart
    ensures Waits(s) == Match(255, FAR)
  {
  }

  lemma EnteredTwice(ins: set<nat>, ins1: set<nat>, ins2: set<nat>, hist: seq<byte>, begin: nat, end: nat)
    requires Entered(ins, ins1, hist, begin, begin + 1) && Entered(ins1, ins2, hist, begin + 1, end)
    ensures Entered(ins, ins2, hist, begin, end)
  {
  }

  /** Read input when the lookahead is short: again says that there is something to do. */
  method SlowInput(s: Lz, flush: FlushMode) returns (turn: Turn)
    requires SlowReady(s)
    modifies s`matchStart, s`strstart, s`blockStart, s`base, s`input, s`adler, s`lookahead, s`hist, s`total
    modifies s`insH, s`insert, s`ins, s`top, s.window, s.head, s.prev
    ensures SlowReady(s) && s.total + s.input == old(s.total + s.input)
    ensures |s.input| + s.lookahead == old(|s.input| + s.lookahead)
    ensures turn == again ==> s.lookahead > 0 && s.strstart + MIN_LOOKAHEAD <= 2 * s.wSize
    ensures turn == need_input ==> Blocked(s, flush)
    ensures turn == input_done ==> flush != Z_NO_FLUSH && s.lookahead == 0 && s.input == [] && s.strstart < 65536
    ensures old(InOne(s, s.hist + s.input)) ==>
      InOne(s, old(s.hist + s.input)) && s.input == [] && s.strstart == old(s.strstart)
        && s.matchStart == old(s.matchStart) && s.blockStart == old(s.blockStart)
        && (s.strstart + MIN_LOOKAHEAD <= |s.hist| ==> turn == again)
  {
    hide SlowReady, Ready, Lz.Valid, Accounts, A32.Adler, Waiting, AllIn;
    SlowFacts(s);
    LookaheadIs(s);
    InOneRead(s);
    turn := again;
    if s.lookahead < MIN_LOOKAHEAD {
      SlowFill(s);
      SlowFacts(s);
      LookaheadIs(s);
      if s.lookahead < MIN_LOOKAHEAD && flush == Z_NO_FLUSH {
        turn := need_input;
      } else if s.lookahead == 0 {
        turn := input_done;
      }
    }
  }

  /** With a lookahead, everything has been read. */
  lemma InOneRead(s: Lz)
    ensures InOne(s, s.hist + s.input) && s.lookahead > 0 ==> s.input == []
  {
  }

  lemma CopyParts(s: Lz)
    ensures CopyNext(s) <==> s.base == 0 && AllIn(s) && s.matchLength == 2 < s.cfg.lazy && !s.matchAvailable
    ensures CopyWaits(s) <==>
      (s.matchAvailable && s.matchLength == MAX_MATCH >= s.cfg.lazy && 0 < s.strstart < 65536
        && s.matchStart + FAR + 1 == s.strstart)
  {
  }

  lemma InOneParts(s: Lz, h: seq<byte>)
    requires InOne(s, h) && s.input == []
    ensures s.base == 0 && AllIn(s) && s.hist == h && |h| + MIN_LOOKAHEAD < 2 * s.wSize
  {
    assert s.hist + [] == s.hist;
  }

  lemma InOneIs(s: Lz, h: seq<byte>)
    requires s.base == 0 && AllIn(s) && s.hist == h && |h| + MIN_LOOKAHEAD < 2 * s.wSize && s.input == []
    ensures InOne(s, h)
  {
    assert s.hist + [] == s.hist;
  }

  /** One turn of the loop. */
  method SlowTurn(s: Lz, flush: FlushMode) returns (turn: Turn)
    requires SlowReady(s) && Unfinished(s.sent)
    modifies s, s.window, s.head, s.prev
    ensures SlowReady(s) && Unfinished(s.sent) && s.total + s.input == old(s.total + s.input)
    ensures s.past == old(s.past) && s.before == old(s.before) && s.partial == old(s.partial)
    ensures turn == again ==> |s.input| + s.lookahead < old(|s.input| + s.lookahead)
    ensures turn == need_input ==> Blocked(s, flush)
    ensures turn == input_done ==> flush != Z_NO_FLUSH && s.lookahead == 0 && s.input == [] && s.strstart < 65536
    ensures old(s.sent) <= s.sent
    ensures old(InOne(s, s.hist + s.input)) ==> InOne(s, old(s.hist + s.input)) && s.input == []
    ensures old(InOne(s, s.hist + s.input) && CopyNext(s)) ==>
      Copies(s.k, s.hist, old(s.strstart), s.MaxDist()) && old(s.strstart) + MIN_LOOKAHEAD <= |s.hist| ==>
        s.matchStart + FAR == old(s.strstart)
          && Defers(s, old(s.tokens), old(s.sent), old(s.blockStart), old(s.strstart), MAX_MATCH, turn)
    ensures old(InOne(s, s.hist + s.input) && CopyWaits(s)) ==> old(s.strstart) + MIN_LOOKAHEAD <= |s.hist| ==>
      Sent(s, old(s.tokens) + [Match(255, FAR)], old(s.sent), old(s.blockStart), old(s.strstart) + MAX_MATCH, turn)
  {
    hide *;
    CopyParts(s);
    ghost var one, h := InOne(s, s.hist + s.input), s.hist + s.input;
    turn := SlowInput(s, flush);
    CopyParts(s);
    SlowFacts(s);
    if one { InOneParts(s, h); }
    if turn == again {
      turn := SlowMatch(s);
      SlowFacts(s);
      if one { InOneIs(s, h); }
      IsBlocked(s, flush);
    }
  }

  lemma Results()
    ensures forall r :: Finishing(r) <==> r == finish_started || r == finish_done
  {
  }

  lemma IsBlocked(s: Lz, flush: FlushMode)
    ensures s.outFull ==> Blocked(s, flush)
  {
  }

  // ---- A block of copies ----

  /** n copies are tallied, from x on, and a match for the next one is found if half is set. */
  ghost predicate FarAt(s: Lz, x: nat, n: nat, half: bool, sent: seq<Piece>)
    reads s
  {
    && s.tokens == Far(n) && s.sent == sent && s.blockStart == x && n + 1 < s.cfg.litBufsize
    && if half then CopyWaits(s) && s.strstart == x + MAX_MATCH * n + 1
       else CopyNext(s) && s.strstart == x + MAX_MATCH * n
  }

  /** The block is full of them. */
  ghost predicate FarBlock(c: Config, sent: seq<Piece>, sent': seq<Piece>) {
    c.litBufsize > 0 && OneBlock(sent, sent', Far(c.litBufsize - 1), MAX_MATCH * (c.litBufsize - 1))
  }

  /** Where such a block begins. */
  ghost predicate FarStart(s: Lz, h: seq<byte>)
    reads s
  {
    && s.wSize >= 512 && InOne(s, h) && FarAt(s, s.strstart, 0, false, s.sent) && s.cfg.lazy <= MAX_MATCH
    && CopiesFrom(s.k, h, s.strstart, s.cfg.litBufsize - 1, s.MaxDist())
  }

  lemma FarHere(s: Lz, h: seq<byte>, x: nat, n: nat, sent: seq<Piece>)
    requires s.wSize >= 512 && n + 1 < s.cfg.litBufsize
    requires CopiesFrom(s.k, h, x, s.cfg.litBufsize - 1, s.MaxDist())
    ensures Copies(s.k, h, x + MAX_MATCH * n, s.MaxDist()) && x + MAX_MATCH * n + 1 + MIN_LOOKAHEAD <= |h|
  {
    hide Copies;
  }

  lemma FarParts(s: Lz, x: nat, n: nat, half: bool, sent: seq<Piece>)
    requires FarAt(s, x, n, half, sent)
    ensures s.tokens == Far(n) && s.sent == sent && s.blockStart == x && n + 1 < s.cfg.litBufsize
    ensures if half then CopyWaits(s) && s.strstart == x + MAX_MATCH * n + 1
            else CopyNext(s) && s.strstart == x + MAX_MATCH * n
  {
  }

  lemma FarDefers(s: Lz, h: seq<byte>, x: nat, n: nat, sent: seq<Piece>, turn: Turn)
    requires s.Shape() && InOne(s, h) && s.cfg.lazy <= MAX_MATCH && n + 1 < s.cfg.litBufsize
    requires x + MAX_MATCH * n + 1 + MIN_LOOKAHEAD <= |h|
    requires s.matchStart + FAR == x + MAX_MATCH * n
    requires Defers(s, Far(n), sent, x, x + MAX_MATCH * n, MAX_MATCH, turn)
    ensures FarAt(s, x, n, true, sent) && turn == again
  {
    hide AllIn, HashingOk;
  }

  lemma FarSent(s: Lz, h: seq<byte>, x: nat, n: nat, sent: seq<Piece>, turn: Turn)
    requires InOne(s, h) && 2 < s.cfg.lazy && n + 1 < s.cfg.litBufsize
    requires Sent(s, Far(n) + [Match(255, FAR)], sent, x, x + MAX_MATCH * n + 1 + MAX_MATCH, turn)
    ensures if n + 2 < s.cfg.litBufsize then FarAt(s, x, n + 1, false, sent) && turn == again
            else FarBlock(s.cfg, sent, s.sent)
  {
    hide AllIn, OneBlock;
    FarNext(n);
    assert MAX_MATCH * (n + 1) == MAX_MATCH * n + MAX_MATCH;
  }

  lemma BlockStays(c: Config, sent: seq<Piece>, sent1: seq<Piece>, sent2: seq<Piece>)
    requires FarBlock(c, sent, sent1) && sent1 <= sent2
    ensures FarBlock(c, sent, sent2)
  {
  }

  lemma FarBegins(s: Lz, h: seq<byte>)
    requires FarStart(s, h)
    ensures s.wSize >= 512 && InOne(s, h) && FarAt(s, s.strstart, 0, false, s.sent) && 2 < s.cfg.lazy <= MAX_MATCH
    ensures CopiesFrom(s.k, h, s.strstart, s.cfg.litBufsize - 1, s.MaxDist())
  {
    hide InOne, Copies, AllIn;
  }

  lemma InOneAll(s: Lz, h: seq<byte>)
    requires InOne(s, h)
    ensures s.hist + s.input == h
  {
    hide AllIn;
  }

  /** After one turn half turns over, and the block may be full. */
  lemma FarAfter(s: Lz, h: seq<byte>, x: nat, n: nat, half: bool, sent: seq<Piece>, turn: Turn)
    returns (n': nat, half': bool)
    requires s.Shape() && InOne(s, h) && 2 < s.cfg.lazy <= MAX_MATCH && n + 1 < s.cfg.litBufsize
    requires x + MAX_MATCH * n + 1 + MIN_LOOKAHEAD <= |h|
    requires half ==> Sent(s, Far(n) + [Match(255, FAR)], sent, x, x + MAX_MATCH * n + 1 + MAX_MATCH, turn)
    requires !half ==> s.matchStart + FAR == x + MAX_MATCH * n
    requires !half ==> Defers(s, Far(n), sent, x, x + MAX_MATCH * n, MAX_MATCH, turn)
    ensures (FarAt(s, x, n', half', sent) && turn == again) || FarBlock(s.cfg, sent, s.sent)
  {
    hide *;
    if half {
      FarSent(s, h, x, n, sent, turn);
      n', half' := n + 1, false;
    } else {
      FarDefers(s, h, x, n, sent, turn);
      n', half' := n, true;
    }
  }

  /** The loop of deflate_slow. */
  method SlowLoop(s: Lz, flush: FlushMode) returns (turn: Turn)
    requires SlowReady(s) && Unfinished(s.sent)
    modifies s, s.window, s.head, s.prev
    ensures SlowReady(s) && Unfinished(s.sent) && s.total + s.input == old(s.total + s.input)
    ensures old(s.sent) <= s.sent && turn != again
    ensures s.past == old(s.past) && s.before == old(s.before) && s.partial == old(s.partial)
    ensures turn == input_done ==> flush != Z_NO_FLUSH && s.lookahead == 0 && s.input == [] && s.strstart < 65536
    ensures turn == need_input ==> Blocked(s, flush)
    ensures old(InOne(s, s.hist + s.input)) ==> InOne(s, old(s.hist + s.input)) && s.input == []
    ensures old(FarStart(s, s.hist + s.input)) ==> FarBlock(s.cfg, old(s.sent), s.sent)
  {
    hide *;
    SlowFacts(s);
    ShapeSize(s);
    ghost var h, x, sent: seq<Piece>, n: nat, half := s.hist + s.input, s.strstart, s.sent, 0, false;
    ghost var far, one := FarStart(s, h), InOne(s, h);
    if far { FarBegins(s, h); }
    turn := again;
    while turn == again
      invariant SlowReady(s) && Unfinished(s.sent) && s.total + s.input == old(s.total + s.input)
      invariant one ==> InOne(s, h) && s.hist + s.input == h && (turn != again ==> s.input == [])
      invariant far ==> (FarAt(s, x, n, half, sent) && turn == again) || FarBlock(s.cfg, sent, s.sent)
      invariant old(s.sent) <= s.sent
      invariant s.past == old(s.past) && s.before == old(s.before) && s.partial == old(s.partial)
      invariant turn == input_done ==> flush != Z_NO_FLUSH && s.lookahead == 0 && s.input == [] && s.strstart < 65536
      invariant turn == need_input ==> Blocked(s, flush)
      decreases turn == again, |s.input| + s.lookahead
    {
      ghost var sent1, at := s.sent, far && FarAt(s, x, n, half, sent);
      if at {
        FarParts(s, x, n, half, sent);
        FarHere(s, h, x, n, sent);
      }
      turn := SlowTurn(s, flush);
      SlowFacts(s);
      if one { InOneAll(s, h); }
      if one { InOneParts(s, h); }
      if at {
        n, half := FarAfter(s, h, x, n, half, sent, turn);
      } else if far {
        BlockStays(s.cfg, sent, sent1, s.sent);
      }
    }
    SlowFacts(s);
  }

  /** deflate_slow: when it is done, the blocks spell all of the input. */
  method DeflateSlow(s: Lz, flush: FlushMode) returns (r: BlockState)
    requires SlowReady(s) && Unfinished(s.sent)
    modifies s, s.window, s.head, s.prev
    ensures SlowReady(s) && s.total + s.input == old(s.total + s.input)
    ensures (Finishing(r) ==> flush == Z_FINISH) && (r == block_done ==> flush != Z_FINISH)
    ensures (r == need_more ==> Blocked(s, flush)) && (r == finish_started ==> s.outFull)
    ensures Finishing(r) || r == block_done ==> Drained(s) && !s.matchAvailable && flush != Z_NO_FLUSH
    ensures if Finishing(r) then Closed(s.sent) else Unfinished(s.sent)
    ensures s.past == old(s.past) && s.before == old(s.before) && s.partial == old(s.partial)
    ensures old(s.sent) <= s.sent
    ensures old(InOne(s, s.hist + s.input)) ==> InOne(s, old(s.hist + s.input)) && s.input == []
    ensures r == block_done ==> s.insert == if s.strstart < 2 then s.strstart else 2
    ensures old(FarStart(s, s.hist + s.input)) ==> FarBlock(s.cfg, old(s.sent), s.sent)
  {
    hide *;
    SlowFacts(s);
    ghost var h, sent := s.hist + s.input, s.sent;
    ghost var far, one := FarStart(s, h), InOne(s, h);
    var turn := SlowLoop(s, flush);
    Results();
    SlowFacts(s);
    if turn == need_input { return need_more; }
    ghost var sent1 := s.sent;
    if one { InOneParts(s, h); }
    r := SlowEnd(s, flush);
    SlowFacts(s);
    IsBlocked(s, flush);
    if far { BlockStays(s.cfg, sent, sent1, s.sent); }
    if one { InOneIs(s, h); }
  }

  /** The last byte, if it still waits, and the last block. */
  method SlowEnd(s: Lz, flush: FlushMode) returns (r: BlockState)
    requires SlowReady(s) && Unfinished(s.sent)
    requires flush != Z_NO_FLUSH && s.lookahead == 0 && s.input == [] && s.strstart < 65536
    modifies s`tokens, s`sent, s`since, s`blockStart, s`outFull, s`insert, s`matchAvailable
    ensures SlowReady(s) && Drained(s) && !s.matchAvailable && (Finishing(r) <==> flush == Z_FINISH)
    ensures r == need_more || r == finish_started ==> s.outFull
    ensures if Finishing(r) then Closed(s.sent) else Unfinished(s.sent)
    ensures old(s.sent) <= s.sent && s.insert == if s.strstart < 2 then s.strstart else 2
    ensures old(AllIn(s)) ==> AllIn(s)
  {
    hide Rolling, Chained, Windowed, HashingOk, Accounts, Unfinished, Closed, A32.Adler, Settled, Found, SlowReady;
    SlowFacts(s);
    NoneWaits(s);
    LastLiteral(s);
    r := EndBlocks(s, flush, if s.strstart < 2 then s.strstart else 2);
    OutLimit(s, s.base + s.strstart, 1, s.cfg.litBufsize - 1);
    SlowAgain(s);
  }

  /** The byte that still waits is a literal. */
  method LastLiteral(s: Lz)
    requires s.Valid() && Waiting(s) && s.matchLength == 2 && s.base + s.strstart == |s.hist| && ConfigOk(s.cfg)
    modifies s`tokens, s`matchAvailable
    ensures !s.matchAvailable && Out(s, s.base + s.strstart, s.cfg.litBufsize)
  {
    hide Chained, Windowed, HashingOk, Accounts, Found;
    if s.matchAvailable {
      WindowByte(s.window[..], s.hist, s.base, s.strstart - 1);
      var bflush := TallyLit(s, s.window[s.strstart - 1], s.base + s.strstart - 1);
      s.matchAvailable := false;
    } else {
      OutEnd(s, s.base + s.strstart, s.cfg.litBufsize - 1);
      OutLimit(s, s.base + s.strstart, s.cfg.litBufsize - 1, s.cfg.litBufsize);
    }
  }

  /** With no input left, no match waits. */
  lemma NoneWaits(s: Lz)
    requires SlowReady(s) && s.lookahead == 0
    ensures s.matchLength == 2 && s.base + s.strstart == |s.hist|
  {
    hide Rolling, Chained, Windowed, HashingOk, Accounts, A32.Adler, IsMatch;
    if s.matchLength >= MIN_MATCH {
      var m: nat :| Refers(s.matchStart, s.base, m) && IsMatch(s.hist, m, s.base + s.strstart - 1, s.matchLength);
      MatchBefore(s.hist, m, s.base + s.strstart - 1, s.matchLength);
    }
  }
}
