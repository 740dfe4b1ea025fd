/** The overlay of d_buf and l_buf on pending_buf (deps/libz/deflate.c: deflateInit2_;
    deps/libz/trees.c: compress_block): the tokens are read from the second and third, and
    from the last quarter of the buffer while their codes are written to it from the start. */
module Overlay {
  import opened Bits
  import opened Canonical
  import opened FixedCodes
  import opened MatchCodes
  import opened BitWriter
  import opened TreeCoding
  import opened Tokens
  import opened BlockReader
  import opened BlockSender
  import opened Tallies
  import opened BlockFormat
  import opened Encoder
  import opened FarRuns

  /** d_buf[i]: two bytes each, from lit_bufsize on. */
  function DistAt(pb: seq<byte>, lit: nat, i: nat): nat
    requires lit + 2 * i + 1 < |pb|
  {
    pb[lit + 2 * i] as nat + 256 * pb[lit + 2 * i + 1] as nat
  }

  /** l_buf[i]: one byte each, from 3 lit_bufsize on. */
  function LcAt(pb: seq<byte>, lit: nat, i: nat): byte
    requires 3 * lit + i < |pb|
  {
    pb[3 * lit + i]
  }

  ghost predicate RecordedAt(pb: seq<byte>, lit: nat, ts: seq<Token>, i: nat)
    requires i < |ts| <= lit && |pb| == 4 * lit
  {
    TokenAt(DistAt(pb, lit, i), LcAt(pb, lit, i)) == ts[i]
  }

  /** The tokens are in the buffer. */
  ghost predicate Recorded(pb: seq<byte>, lit: nat, ts: seq<Token>) {
    |ts| <= lit && |pb| == 4 * lit && forall i :: 0 <= i < |ts| ==> RecordedAt(pb, lit, ts, i)
  }

  /** _tr_tally: d_buf[last_lit] and l_buf[last_lit]; what is pending stays. */
  method Record(w: Writer, lit: nat, lastLit: nat, dist: nat, lc: byte, ghost ts: seq<Token>)
    requires w.Valid() && w.pending <= lit && Recorded(w.pendingBuf[..], lit, ts) && lastLit == |ts| < lit
    requires dist < 65536
    modifies w.pendingBuf
    ensures Recorded(w.pendingBuf[..], lit, ts + [TokenAt(dist, lc)]) && w.Stream() == old(w.Stream())
  {
    hide TokenAt;
    ghost var was := w.pendingBuf[..];
    w.pendingBuf[lit + 2 * lastLit] := dist % 256;
    w.pendingBuf[lit + 2 * lastLit + 1] := dist / 256;
    w.pendingBuf[3 * lit + lastLit] := lc;
    assert w.pendingBuf[..w.pending] == was[..w.pending];
    ghost var pb, ts' := w.pendingBuf[..], ts + [TokenAt(dist, lc)];
    forall i | 0 <= i < |ts'| ensures RecordedAt(pb, lit, ts', i) {
      if i < |ts| { assert RecordedAt(was, lit, ts, i); }
    }
  }

  /** What is not yet overwritten is as it was. */
  lemma StillRecorded(pb: seq<byte>, was: seq<byte>, lit: nat, ts: seq<Token>, lx: nat, pending: nat)
    requires Recorded(was, lit, ts) && |pb| == |was| && pending <= |pb| && pb[pending..] == was[pending..]
    requires lx < |ts| && pending <= lit + 2 * lx
    ensures TokenAt(DistAt(pb, lit, lx), LcAt(pb, lit, lx)) == ts[lx]
  {
    forall j | pending <= j < |pb| ensures pb[j] == was[j] {
      assert pb[pending..][j - pending] == was[pending..][j - pending];
    }
    assert RecordedAt(was, lit, ts, lx);
  }

  /** The loop of compress_block over the overlaid buffers.  ok says that no distance was
      overwritten before it was read; the source has an Assert for this. */
  method SendOverlaid(w: Writer, tb: Tables, lfc: seq<nat>, ldl: seq<nat>, dfc: seq<nat>, ddl: seq<nat>,
                      lit: nat, lastLit: nat, ghost ll: seq<nat>, ghost dl: seq<nat>, ghost ts: seq<Token>)
    returns (ok: bool)
    requires w.Valid() && TreeOf(lfc, ldl, ll, 286) && TreeOf(dfc, ddl, dl, 30)
    requires lastLit == |ts| && AllCoded(tb, ll, dl, ts) && Recorded(w.pendingBuf[..], lit, ts)
    requires w.Room(|AllTokenBits(tb, ll, dl, ts)|)
    modifies w, w.pendingBuf
    ensures ok ==> w.Valid() && w.Stream() == old(w.Stream()) + AllTokenBits(tb, ll, dl, ts)
    ensures old(w.InPairs()) ==> (ok <==> KeepsUp(tb, ll, dl, ts, old(|w.Stream()|), lit))
  {
    hide TokenBits, w.Behind, AllTokenBits, Coded, TablesOk, w.Valid, Codeword, CodesOf, AllCoded, Recorded, DistAt,
      LcAt, KeepsUp, TokenAt, Emitted, w.InPairs, w.Room, w.Stream;
    ghost var s0, was, pairs := w.Stream(), w.pendingBuf[..], w.InPairs();
    ghost var keeps, all := KeepsUp(tb, ll, dl, ts, |s0|, lit), s0 + AllTokenBits(tb, ll, dl, ts);
    assert ts[0..] == ts;
    RoomFor(w, AllTokenBits(tb, ll, dl, ts));
    RecordedSizes(was, lit, ts);
    BehindNow(w);
    var lx := 0;
    while lx < lastLit
      invariant lx <= lastLit && w.Valid() && AllCoded(tb, ll, dl, ts[lx..])
      invariant w.Behind(was)
      invariant w.Stream() + AllTokenBits(tb, ll, dl, ts[lx..]) == all
      invariant pairs ==> w.InPairs() && (keeps <==> KeepsUp(tb, ll, dl, ts[lx..], |w.Stream()|, lit + 2 * lx))
    {
      KeepsNext(tb, ll, dl, ts, lx, |w.Stream()|, lit + 2 * lx);
      if pairs { w.PendingOf(); }
      if w.pending > lit + 2 * lx { return false; }
      NextToken(tb, ll, dl, ts, lx);
      BehindIs(w, was);
      StillRecorded(w.pendingBuf[..], was, lit, ts, lx, w.pending);
      ghost var mid, p, sent := w.pendingBuf[..], w.pending, w.Stream();
      RoomFor(w, AllTokenBits(tb, ll, dl, ts[lx..]));
      RoomLess(w, |TokenBits(tb, ll, dl, ts[lx])|, |AllTokenBits(tb, ll, dl, ts[lx..])|);
      SendToken(w, tb, lfc, ldl, dfc, ddl, DistAt(w.pendingBuf[..], lit, lx), LcAt(w.pendingBuf[..], lit, lx), ll, dl);
      SentOneMore(w, sent, TokenBits(tb, ll, dl, ts[lx]), AllTokenBits(tb, ll, dl, ts[lx + 1..]), all);
      BehindOn(was, mid, p, w);
      lx := lx + 1;
    }
    NoTokens(tb, ll, dl, ts[lx..], |w.Stream()|, lit + 2 * lx);
    ok := true;
  }

  lemma RecordedSizes(pb: seq<byte>, lit: nat, ts: seq<Token>)
    requires Recorded(pb, lit, ts)
    ensures |ts| <= lit && |pb| == 4 * lit
  {
  }

  lemma BehindNow(w: Writer)
    requires w.Valid()
    ensures w.Behind(w.pendingBuf[..])
  {
  }

  lemma BehindIs(w: Writer, was: seq<byte>)
    requires w.Behind(was)
    ensures w.pending <= |was| == w.pendingBuf.Length && w.pendingBuf[w.pending..] == was[w.pending..]
    ensures w.pendingBuf[..][w.pending..] == was[w.pending..]
  {
    assert w.pendingBuf[..][w.pending..] == w.pendingBuf[w.pending..];
  }

  lemma BehindOn(was: seq<byte>, mid: seq<byte>, p: nat, w: Writer)
    requires p <= |mid| == |was| && mid[p..] == was[p..] && p <= w.pending && w.Behind(mid)
    ensures w.Behind(was)
  {
    BehindThen(was, mid, p, w);
  }

  // ---- When it is so ----

  /** Tokens of at most 16 + c bits do not catch up while the room lasts: with lit_bufsize as
      room, fewer than that many tokens of 24 bits never do. */
  lemma {:induction false} TokensKeepUp(tb: Tables, ll: seq<nat>, dl: seq<nat>, ts: seq<Token>, bits: nat, room: nat,
                                        c: nat)
    requires AllCoded(tb, ll, dl, ts) && (ts != [] ==> bits + c * (|ts| - 1) <= 8 * room + 7)
    requires forall i :: 0 <= i < |ts| ==> |TokenBits(tb, ll, dl, ts[i])| <= 16 + c
    ensures KeepsUp(tb, ll, dl, ts, bits, room)
    decreases |ts|
  {
    hide Coded, TablesOk, TokenBits;
    if ts != [] {
      assert |TokenBits(tb, ll, dl, ts[0])| <= 16 + c;
      forall i | 0 <= i < |ts[1..]| ensures |TokenBits(tb, ll, dl, ts[1..][i])| <= 16 + c {
        assert ts[1..][i] == ts[i + 1];
      }
      if |ts| > 1 { assert c * (|ts| - 1) == c * (|ts[1..]| - 1) + c; }
      assert 0 <= c * (|ts| - 1);
      TokensKeepUp(tb, ll, dl, ts[1..], bits + |TokenBits(tb, ll, dl, ts[0])|, room + 2, c);
    }
  }

  /** Beyond that they do, if they take no less. */
  lemma {:induction false} LongTokensOvertake(tb: Tables, ll: seq<nat>, dl: seq<nat>, ts: seq<Token>, bits: nat,
                                              room: nat, c: nat)
    requires AllCoded(tb, ll, dl, ts) && ts != []
    requires forall i :: 0 <= i < |ts| ==> |TokenBits(tb, ll, dl, ts[i])| == 16 + c
    requires bits + c * (|ts| - 1) >= 8 * (room + 3)
    ensures !KeepsUp(tb, ll, dl, ts, bits, room)
    decreases |ts|
  {
    hide Coded, TablesOk, TokenBits;
    if |ts| > 1 {
      assert |TokenBits(tb, ll, dl, ts[0])| == 16 + c;
      forall i | 0 <= i < |ts[1..]| ensures |TokenBits(tb, ll, dl, ts[1..][i])| == 16 + c {
        assert ts[1..][i] == ts[i + 1];
      }
      assert c * (|ts| - 1) == c * (|ts[1..]| - 1) + c;
      LongTokensOvertake(tb, ll, dl, ts[1..], bits + 16 + c, room + 2, c);
    }
  }

  /** With the fixed codes, a match of 258 bytes that far back takes 26 bits. */
  lemma FarBits(tb: Tables)
    requires TablesOk(tb) && Coded(tb, FixedLens(), FixedDistLens(), Match(255, FAR))
    ensures |TokenBits(tb, FixedLens(), FixedDistLens(), Match(255, FAR))| == 26
  {
    hide TokenBits, Coded, FixedLens, FixedDistLens, DistIn;
    var t := Match(255, FAR);
    TokenCost(tb, FixedLens(), FixedDistLens(), t);
    CodedFacts(tb, FixedLens(), FixedDistLens(), t);
    SymBounds(tb, t);
    LastDistance(DistSym(tb, t));
    FixedLast();
  }

  lemma LastDistance(c: nat)
    requires c < 30 && DistIn(c, FAR - 1)
    ensures c >= 28
  {
    BaseDistStep(c);
    FirstOfLast();
    if c < 28 { Ends(c + 1, 28); }
  }

  lemma {:induction false} Ends(c: nat, d: nat)
    requires c <= d
    ensures BaseDist(c) <= BaseDist(d)
  {
    if c < d { Ends(c, d - 1); }
  }

  lemma FirstOfLast()
    ensures BaseDist(28) == 16384
  {
    assert BaseDist(4) == 4;
    assert BaseDist(8) == 16;
    assert BaseDist(12) == 64;
    assert BaseDist(16) == 256;
    assert BaseDist(20) == 1024;
    assert BaseDist(24) == 4096;
  }

  lemma FixedLast()
    ensures |FixedLens()| == 288 && FixedLens()[285] == 8 && |FixedDistLens()| == 32
    ensures FixedDistLens()[28] == FixedDistLens()[29] == 5 && ExtraD(28) == ExtraD(29) == 13 && ExtraL(28) == 0
  {
  }

  /** So a block of fewer than lit_bufsize such matches overtakes itself. */
  lemma FarMatchesOvertake(tb: Tables, lit: nat, n: nat, bits: nat)
    requires n > 0 && AllCoded(tb, FixedLens(), FixedDistLens(), Far(n)) && 10 * (n - 1) + bits >= 8 * (lit + 3)
    ensures !KeepsUp(tb, FixedLens(), FixedDistLens(), Far(n), bits, lit)
  {
    hide TokenBits, Coded, FixedLens, FixedDistLens, TablesOk;
    forall i | 0 <= i < n ensures |TokenBits(tb, FixedLens(), FixedDistLens(), Far(n)[i])| == 26 {
      assert Coded(tb, FixedLens(), FixedDistLens(), Far(n)[i]);
      FarBits(tb);
    }
    LongTokensOvertake(tb, FixedLens(), FixedDistLens(), Far(n), bits, lit, 10);
  }

  /** A block that is short for its number of tokens keeps up: each token takes a bit at least. */
  lemma {:induction false} ShortBlockKeepsUp(tb: Tables, ll: seq<nat>, dl: seq<nat>, ts: seq<Token>, bits: nat,
                                             room: nat)
    requires AllCoded(tb, ll, dl, ts) && bits + |AllTokenBits(tb, ll, dl, ts)| <= 8 * room + 7 + |ts|
    ensures KeepsUp(tb, ll, dl, ts, bits, room)
    decreases |ts|
  {
    hide Coded, TablesOk, TokenBits;
    OneBitEach(tb, ll, dl, ts);
    if ts != [] { ShortBlockKeepsUp(tb, ll, dl, ts[1..], bits + |TokenBits(tb, ll, dl, ts[0])|, room + 2); }
  }

  lemma {:induction false} OneBitEach(tb: Tables, ll: seq<nat>, dl: seq<nat>, ts: seq<Token>)
    requires AllCoded(tb, ll, dl, ts)
    ensures |AllTokenBits(tb, ll, dl, ts)| >= |ts|
    decreases |ts|
  {
    hide Coded, TablesOk, TokenBits;
    if ts != [] {
      OneBit(tb, ll, dl, ts[0]);
      OneBitEach(tb, ll, dl, ts[1..]);
    }
  }

  lemma OneBit(tb: Tables, ll: seq<nat>, dl: seq<nat>, t: Token)
    requires TablesOk(tb) && Coded(tb, ll, dl, t)
    ensures |TokenBits(tb, ll, dl, t)| >= 1
  {
    hide TablesOk, TokenBits, ExtraL, ExtraD;
    CodedFacts(tb, ll, dl, t);
    TokenCost(tb, ll, dl, t);
  }

  lemma {:induction false} LiteralBits(tb: Tables, ts: seq<Token>)
    requires AllCoded(tb, FixedLens(), FixedDistLens(), ts) && Literals(ts)
    ensures |AllTokenBits(tb, FixedLens(), FixedDistLens(), ts)| <= 9 * |ts|
    decreases |ts|
  {
    hide Coded, TablesOk, TokenBits, FixedLens, FixedDistLens;
    if ts != [] {
      TokenCost(tb, FixedLens(), FixedDistLens(), ts[0]);
      FixedMax();
      LiteralBits(tb, ts[1..]);
    }
  }

  /** A block that takes about lit_bufsize bytes with the fixed codes keeps up: with those
      codes, and with others that are chosen because they take less. */
  lemma CheapKeepsUp(tb: Tables, b: Block, v: nat, lit: nat)
    requires BlockOk(tb, b) && Cheaper(tb, b) && v < 8
    requires !b.StoredBlock? && AllCoded(tb, FixedLens(), FixedDistLens(), b.tokens) ==>
      |AllTokenBits(tb, FixedLens(), FixedDistLens(), b.tokens)| <= 8 * lit + |b.tokens| - 8
    ensures BlockKeepsUp(tb, b, v, lit)
  {
    hide TablesOk, AllCoded, AllTokenBits, HeaderBits, CodesOk, KeepsUp, FixedLens, FixedDistLens;
    match b
    case StoredBlock(_) =>
    case FixedBlock(ts) => ShortBlockKeepsUp(tb, FixedLens(), FixedDistLens(), ts, v + 3, lit);
    case DynamicBlock(ts, c) =>
      BodySizes(tb, ts, c);
      ShortBlockKeepsUp(tb, c.ll, c.dl, ts, v + 3 + |HeaderBits(c)|, lit);
  }

  /** So does a block of fewer than lit_bufsize literals ... */
  lemma LiteralsKeepUp(tb: Tables, b: Block, v: nat, lit: nat)
    requires BlockOk(tb, b) && Cheaper(tb, b) && v < 8
    requires !b.StoredBlock? ==> Literals(b.tokens) && |b.tokens| < lit
    ensures BlockKeepsUp(tb, b, v, lit)
  {
    hide *;
    if !b.StoredBlock? && AllCoded(tb, FixedLens(), FixedDistLens(), b.tokens) { LiteralBits(tb, b.tokens); }
    CheapKeepsUp(tb, b, v, lit);
  }

  /** ... and one whose tokens stand for three quarters as many bytes: no token takes more than
      31 bits for three bytes. */
  lemma FewBytesKeepUp(tb: Tables, out: seq<byte>, b: Block, v: nat, lit: nat)
    requires BlockOk(tb, b) && Cheaper(tb, b) && v < 8 && 32 <= lit
    requires !b.StoredBlock? ==>
      AllFit(out, b.tokens) && 4 * (|ExpandAll(out, b.tokens)| - |out|) <= 3 * lit
    ensures BlockKeepsUp(tb, b, v, lit)
  {
    hide *;
    if !b.StoredBlock? && AllCoded(tb, FixedLens(), FixedDistLens(), b.tokens) { SpelledBits(tb, out, b.tokens); }
    CheapKeepsUp(tb, b, v, lit);
  }

  lemma {:induction false} SpelledBits(tb: Tables, out: seq<byte>, ts: seq<Token>)
    requires AllCoded(tb, FixedLens(), FixedDistLens(), ts) && AllFit(out, ts)
    ensures 3 * |AllTokenBits(tb, FixedLens(), FixedDistLens(), ts)| <= 31 * (|ExpandAll(out, ts)| - |out|)
    decreases |ts|
  {
    hide Coded, TablesOk, TokenBits, FixedLens, FixedDistLens, CopyMatch;
    if ts != [] {
      TokenCost(tb, FixedLens(), FixedDistLens(), ts[0]);
      TokenBound(tb, ts[0]);
      FixedMax();
      SpelledBits(tb, Expand(out, ts[0]), ts[1..]);
    }
  }

  lemma BodySizes(tb: Tables, ts: seq<Token>, c: BlockCodes)
    requires CodesOk(c) && AllCoded(tb, c.ll, c.dl, ts) && AllCoded(tb, FixedLens(), FixedDistLens(), ts)
    ensures END_BLOCK < |c.ll| && |BlockBody(tb, c.ll, c.dl, ts)| >= |AllTokenBits(tb, c.ll, c.dl, ts)| + 1
    ensures |FixedLens()| == 288
    ensures |BlockBody(tb, FixedLens(), FixedDistLens(), ts)|
         == |AllTokenBits(tb, FixedLens(), FixedDistLens(), ts)| + 7
  {
    hide TablesOk, AllTokenBits, AllCoded, FixedDistLens;
    DynamicFacts(c);
    FixedEnd();
  }
}
