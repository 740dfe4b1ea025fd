/** compress_block (deps/libz/trees.c): the tokens of a block as bits. */
module BlockSender {
  import opened Bits
  import opened Canonical
  import opened MatchCodes
  import opened BitWriter
  import opened TreeCoding
  import opened Tokens

  lemma CodedFacts(tb: Tables, ll: seq<nat>, dl: seq<nat>, t: Token)
    requires TablesOk(tb) && Coded(tb, ll, dl, t)
    ensures LitSym(tb, t) < 286 && LitSym(tb, t) < |ll| && ll[LitSym(tb, t)] > 0
    ensures t.Match? ==> DistSym(tb, t) < 30 && DistSym(tb, t) < |dl| && dl[DistSym(tb, t)] > 0
  {
    SymBounds(tb, t);
  }

  lemma LengthPart(tb: Tables, lc: byte)
    requires TablesOk(tb)
    ensures |tb.lengthCode| == 256 && |tb.baseLength| == 29
    ensures var c := tb.lengthCode[lc];
            c <= 28 && (ExtraL(c) > 0 ==>
              c < 28 && tb.baseLength[c] == BaseLength(c) && LengthExtra(tb, lc) == lc - BaseLength(c))
            && LengthExtra(tb, lc) < Pow2(ExtraL(c)) && ExtraL(c) <= 5
  {
  }

  lemma DistPart(tb: Tables, dist: nat)
    requires TablesOk(tb) && 1 <= dist <= 32768
    ensures |tb.distCode| == 512 && |tb.baseDist| == 30
    ensures var c := DCode(tb.distCode, dist - 1);
            c < 30 && tb.baseDist[c] == BaseDist(c) && DistExtra(tb, dist) == dist - 1 - BaseDist(c)
            && DistExtra(tb, dist) < Pow2(ExtraD(c)) && ExtraD(c) <= 13
  {
    hide BaseDist, LengthTables;
  }

  /** First bytes up to p were written, and then more. */
  lemma BehindThen(was: seq<byte>, mid: seq<byte>, p: nat, w: Writer)
    requires p <= |mid| == |was| == w.pendingBuf.Length && mid[p..] == was[p..]
    requires p <= w.pending <= w.pendingBuf.Length
    requires w.pendingBuf[w.pending..] == mid[w.pending..] || (w.pending == p && w.pendingBuf[..] == mid)
    ensures w.Behind(was)
  {
    assert mid[w.pending..] == mid[p..][w.pending - p..] && was[w.pending..] == was[p..][w.pending - p..];
    assert w.pendingBuf[..][w.pending..] == w.pendingBuf[w.pending..];
  }

  method SendLength(w: Writer, tb: Tables, fc: seq<nat>, dl: seq<nat>, lc: byte, ghost ll: seq<nat>)
    requires w.Valid() && TablesOk(tb) && TreeOf(fc, dl, ll, 286)
    requires LitSym(tb, Match(lc, 1)) < |ll| && ll[LitSym(tb, Match(lc, 1))] > 0
    requires w.Room(ll[LitSym(tb, Match(lc, 1))] + ExtraL(tb.lengthCode[lc]))
    modifies w, w.pendingBuf
    ensures w.Valid()
    ensures w.Stream() == old(w.Stream()) + Codeword(ll, LitSym(tb, Match(lc, 1)))
                          + ToBits(LengthExtra(tb, lc), ExtraL(tb.lengthCode[lc]))
    ensures w.pending >= old(w.pending) && w.Behind(old(w.pendingBuf[..]))
    ensures old(w.InPairs()) ==> w.InPairs()
  {
    hide LengthTables, DistTables, w.Valid, Codeword, ToBits, Pow2, CodesOf, LengthExtra, BaseLength, ExtraL, w.InPairs;
    LengthPart(tb, lc);
    var codes := tb.lengthCode[lc];
    ghost var was := w.pendingBuf[..];
    SendCode(w, fc, dl, codes + 257, ll);
    ghost var mid, p := w.pendingBuf[..], w.pending;
    var extra := ExtraL(codes);
    NoBits();
    if extra != 0 { w.SendBits(lc - tb.baseLength[codes], extra); }
    BehindThen(was, mid, p, w);
  }

  method SendDistance(w: Writer, tb: Tables, fc: seq<nat>, dl: seq<nat>, dist0: nat, ghost dlens: seq<nat>)
    requires w.Valid() && TablesOk(tb) && TreeOf(fc, dl, dlens, 30) && 1 <= dist0 <= 32768
    requires DistSym(tb, Match(0, dist0)) < |dlens| && dlens[DistSym(tb, Match(0, dist0))] > 0
    requires w.Room(dlens[DistSym(tb, Match(0, dist0))] + ExtraD(DistSym(tb, Match(0, dist0))))
    modifies w, w.pendingBuf
    ensures w.Valid()
    ensures w.Stream() == old(w.Stream()) + Codeword(dlens, DistSym(tb, Match(0, dist0)))
                          + ToBits(DistExtra(tb, dist0), ExtraD(DistSym(tb, Match(0, dist0))))
    ensures w.pending >= old(w.pending) && w.Behind(old(w.pendingBuf[..]))
    ensures old(w.InPairs()) ==> w.InPairs()
  {
    hide LengthTables, DistTables, w.Valid, Codeword, ToBits, Pow2, CodesOf, DistExtra, BaseDist, ExtraD, w.InPairs;
    DistPart(tb, dist0);
    var dist := dist0 - 1;
    var codes := if dist < 256 then tb.distCode[dist] else tb.distCode[256 + dist / 128];
    ghost var was := w.pendingBuf[..];
    SendCode(w, fc, dl, codes, dlens);
    ghost var mid, p := w.pendingBuf[..], w.pending;
    var extra := ExtraD(codes);
    NoBits();
    if extra != 0 { w.SendBits(dist - tb.baseDist[codes], extra); }
    BehindThen(was, mid, p, w);
  }

  lemma TokenParts(tb: Tables, ll: seq<nat>, dl: seq<nat>, lc: byte, dist: nat)
    requires TablesOk(tb) && Coded(tb, ll, dl, TokenAt(dist, lc))
    ensures dist == 0 ==> lc < |ll| && ll[lc] > 0 && TokenBits(tb, ll, dl, TokenAt(dist, lc)) == Codeword(ll, lc)
    ensures dist > 0 ==>
      && 1 <= dist <= 32768 && LitSym(tb, Match(lc, 1)) < |ll| && ll[LitSym(tb, Match(lc, 1))] > 0
      && DistSym(tb, Match(0, dist)) < |dl| && dl[DistSym(tb, Match(0, dist))] > 0
      && TokenBits(tb, ll, dl, TokenAt(dist, lc))
         == (Codeword(ll, LitSym(tb, Match(lc, 1))) + ToBits(LengthExtra(tb, lc), ExtraL(tb.lengthCode[lc])))
          + (Codeword(dl, DistSym(tb, Match(0, dist)))
            + ToBits(DistExtra(tb, dist), ExtraD(DistSym(tb, Match(0, dist)))))
  {
    hide TablesOk, LengthExtra, DistExtra, Codeword, ToBits, ExtraD, ExtraL, DCode;
    CodedFacts(tb, ll, dl, TokenAt(dist, lc));
    if dist > 0 {
      assert LitSym(tb, Match(lc, 1)) == LitSym(tb, Match(lc, dist))
        && DistSym(tb, Match(0, dist)) == DistSym(tb, Match(lc, dist));
    }
  }

  lemma {:induction false} BitsConcat(tb: Tables, ll: seq<nat>, dl: seq<nat>, a: seq<Token>, b: seq<Token>)
    requires AllCoded(tb, ll, dl, a + b)
    ensures AllCoded(tb, ll, dl, a) && AllCoded(tb, ll, dl, b)
    ensures AllTokenBits(tb, ll, dl, a + b) == AllTokenBits(tb, ll, dl, a) + AllTokenBits(tb, ll, dl, b)
    decreases |a|
  {
    hide Coded, TablesOk, TokenBits;
    CodedParts(tb, ll, dl, a, b);
    if a == [] {
      assert a + b == b;
    } else {
      assert (a + b)[1..] == a[1..] + b;
      BitsConcat(tb, ll, dl, a[1..], b);
    }
  }

  lemma CodedParts(tb: Tables, ll: seq<nat>, dl: seq<nat>, a: seq<Token>, b: seq<Token>)
    requires AllCoded(tb, ll, dl, a + b)
    ensures AllCoded(tb, ll, dl, a) && AllCoded(tb, ll, dl, b)
    ensures a != [] ==> AllCoded(tb, ll, dl, a[1..] + b)
  {
    hide Coded, TablesOk;
    assert forall i :: 0 <= i < |a| ==> (a + b)[i] == a[i];
    assert forall i :: 0 <= i < |b| ==> (a + b)[|a| + i] == b[i];
    if a != [] { assert (a + b)[1..] == a[1..] + b; }
  }

  /** The token with index lx and the rest. */
  lemma NextToken(tb: Tables, ll: seq<nat>, dl: seq<nat>, ts: seq<Token>, lx: nat)
    requires AllCoded(tb, ll, dl, ts) && lx < |ts|
    ensures AllCoded(tb, ll, dl, ts[lx..]) && AllCoded(tb, ll, dl, ts[lx + 1..]) && TablesOk(tb)
    ensures Coded(tb, ll, dl, ts[lx])
    ensures AllTokenBits(tb, ll, dl, ts[lx..]) == TokenBits(tb, ll, dl, ts[lx]) + AllTokenBits(tb, ll, dl, ts[lx + 1..])
  {
    hide Coded, TablesOk, TokenBits;
    assert ts[lx..][1..] == ts[lx + 1..];
    assert ts[lx..][0] == ts[lx];
  }

  method SendToken(w: Writer, tb: Tables, lfc: seq<nat>, ldl: seq<nat>, dfc: seq<nat>, ddl: seq<nat>,
                   dist: nat, lc: byte, ghost ll: seq<nat>, ghost dl: seq<nat>)
    requires w.Valid() && TreeOf(lfc, ldl, ll, 286) && TreeOf(dfc, ddl, dl, 30)
    requires TablesOk(tb) && Coded(tb, ll, dl, TokenAt(dist, lc))
    requires w.Room(|TokenBits(tb, ll, dl, TokenAt(dist, lc))|)
    modifies w, w.pendingBuf
    ensures w.Valid() && w.Stream() == old(w.Stream()) + TokenBits(tb, ll, dl, TokenAt(dist, lc))
    ensures w.pending >= old(w.pending) && w.Behind(old(w.pendingBuf[..]))
    ensures old(w.InPairs()) ==> w.InPairs()
  {
    hide TablesOk, w.Valid, Codeword, ToBits, Pow2, CodesOf, DistExtra, LengthExtra, ExtraL, ExtraD, DCode, TokenBits,
      Coded, LitSym, DistSym, TokenAt, w.InPairs;
    TokenParts(tb, ll, dl, lc, dist);
    if dist == 0 {
      SendCode(w, lfc, ldl, lc, ll);
    } else {
      ghost var was := w.pendingBuf[..];
      SendLength(w, tb, lfc, ldl, lc, ll);
      ghost var mid, p := w.pendingBuf[..], w.pending;
      SendDistance(w, tb, dfc, ddl, dist, dl);
      BehindThen(was, mid, p, w);
    }
  }

  /** The tokens are in the same buffer as the codes, distances of two bytes each from byte room
      on: the codes, with bits of them before the first token, never reach the distance that is
      read next. */
  ghost predicate KeepsUp(tb: Tables, ll: seq<nat>, dl: seq<nat>, ts: seq<Token>, bits: nat, room: nat)
    requires AllCoded(tb, ll, dl, ts)
    decreases |ts|
  {
    ts == []
    || (Emitted(bits) <= room && KeepsUp(tb, ll, dl, ts[1..], bits + |TokenBits(tb, ll, dl, ts[0])|, room + 2))
  }

  lemma KeepsNext(tb: Tables, ll: seq<nat>, dl: seq<nat>, ts: seq<Token>, lx: nat, bits: nat, room: nat)
    requires AllCoded(tb, ll, dl, ts) && lx < |ts| && AllCoded(tb, ll, dl, ts[lx..])
    ensures TablesOk(tb) && Coded(tb, ll, dl, ts[lx]) && AllCoded(tb, ll, dl, ts[lx + 1..])
    ensures KeepsUp(tb, ll, dl, ts[lx..], bits, room) <==>
      Emitted(bits) <= room
        && KeepsUp(tb, ll, dl, ts[lx + 1..], bits + |TokenBits(tb, ll, dl, ts[lx])|, room + 2)
  {
    hide Coded, TablesOk, TokenBits;
    assert ts[lx..][1..] == ts[lx + 1..];
    assert ts[lx..][0] == ts[lx];
  }

  /** One token more: what was sent of all bits, and the room for the rest. */
  lemma SentOneMore(w: Writer, sent: seq<bool>, x: seq<bool>, rest: seq<bool>, all: seq<bool>)
    requires w.Valid() && w.Stream() == sent + x && sent + (x + rest) == all
    requires |all| <= 8 * w.pendingBuf.Length
    ensures w.Stream() + rest == all && w.Room(|rest|)
  {
    hide w.Stream;
    assert sent + (x + rest) == (sent + x) + rest;
  }

  lemma RoomLess(w: Writer, m: nat, n: nat)
    requires w.Room(n) && m <= n
    ensures w.Room(m)
  {
  }

  lemma RoomFor(w: Writer, rest: seq<bool>)
    requires w.Valid()
    ensures w.Room(|rest|) <==> |w.Stream() + rest| <= 8 * w.pendingBuf.Length
  {
  }

  /** The loop over d_buf and l_buf.  They overlay pending_buf from byte lit on; ok says that
      no distance was overwritten before it was read.  The source has an Assert for this. */
  method SendTokens(w: Writer, tb: Tables, lfc: seq<nat>, ldl: seq<nat>, dfc: seq<nat>, ddl: seq<nat>,
                    dBuf: array<nat>, lBuf: array<byte>, lit: nat, lastLit: nat, ghost ll: seq<nat>,
                    ghost dl: seq<nat>, ghost ts: seq<Token>)
    returns (ok: bool)
    requires w.Valid() && TreeOf(lfc, ldl, ll, 286) && TreeOf(dfc, ddl, dl, 30)
    requires lastLit <= dBuf.Length && lastLit <= lBuf.Length && lBuf != w.pendingBuf
    requires ts == TokensOf(dBuf[..lastLit], lBuf[..lastLit]) && AllCoded(tb, ll, dl, ts)
    requires w.Room(|AllTokenBits(tb, ll, dl, ts)|)
    modifies w, w.pendingBuf
    ensures w.Valid() && (ok ==> w.Stream() == old(w.Stream()) + AllTokenBits(tb, ll, dl, ts))
    ensures old(w.InPairs()) ==> (ok <==> KeepsUp(tb, ll, dl, ts, old(|w.Stream()|), lit))
  {
    hide TokenBits, AllTokenBits, Coded, TablesOk, w.Valid, w.Behind, Codeword, CodesOf, AllCoded, KeepsUp, Emitted,
      w.InPairs, w.Room, w.Stream;
    ghost var s0, pairs := w.Stream(), w.InPairs();
    ghost var keeps, all := KeepsUp(tb, ll, dl, ts, |s0|, lit), s0 + AllTokenBits(tb, ll, dl, ts);
    assert ts[0..] == ts;
    RoomFor(w, AllTokenBits(tb, ll, dl, ts));
    var lx := 0;
    while lx < lastLit
      invariant lx <= lastLit && w.Valid() && AllCoded(tb, ll, dl, ts[lx..])
      invariant dBuf[..lastLit] == old(dBuf[..lastLit]) && lBuf[..lastLit] == old(lBuf[..lastLit])
      invariant w.Stream() + AllTokenBits(tb, ll, dl, ts[lx..]) == all
      invariant pairs ==> w.InPairs() && (keeps <==> KeepsUp(tb, ll, dl, ts[lx..], |w.Stream()|, lit + 2 * lx))
    {
      KeepsNext(tb, ll, dl, ts, lx, |w.Stream()|, lit + 2 * lx);
      if pairs { w.PendingOf(); }
      if w.pending > lit + 2 * lx { return false; }
      NextToken(tb, ll, dl, ts, lx);
      assert ts[lx] == TokenAt(dBuf[lx], lBuf[lx]);
      ghost var sent := w.Stream();
      RoomFor(w, AllTokenBits(tb, ll, dl, ts[lx..]));
      RoomLess(w, |TokenBits(tb, ll, dl, ts[lx])|, |AllTokenBits(tb, ll, dl, ts[lx..])|);
      SendToken(w, tb, lfc, ldl, dfc, ddl, dBuf[lx], lBuf[lx], ll, dl);
      SentOneMore(w, sent, TokenBits(tb, ll, dl, ts[lx]), AllTokenBits(tb, ll, dl, ts[lx + 1..]), all);
      lx := lx + 1;
    }
    NoTokens(tb, ll, dl, ts[lx..], |w.Stream()|, lit + 2 * lx);
    ok := true;
  }

  /** Send the tokens in d_buf and l_buf, then END_BLOCK. */
  method CompressBlock(w: Writer, tb: Tables, lfc: seq<nat>, ldl: seq<nat>, dfc: seq<nat>, ddl: seq<nat>,
                       dBuf: array<nat>, lBuf: array<byte>, lit: nat, lastLit: nat, ghost ll: seq<nat>,
                       ghost dl: seq<nat>, ghost ts: seq<Token>)
    returns (ok: bool)
    requires w.Valid() && TreeOf(lfc, ldl, ll, 286) && TreeOf(dfc, ddl, dl, 30)
    requires lastLit <= dBuf.Length && lastLit <= lBuf.Length && lBuf != w.pendingBuf
    requires ts == TokensOf(dBuf[..lastLit], lBuf[..lastLit]) && AllCoded(tb, ll, dl, ts)
    requires END_BLOCK < |ll| && ll[END_BLOCK] > 0
    requires w.Room(|BlockBody(tb, ll, dl, ts)|)
    modifies w, w.pendingBuf
    ensures w.Valid() && (ok ==> w.Stream() == old(w.Stream()) + BlockBody(tb, ll, dl, ts))
    ensures old(w.InPairs()) ==> (ok <==> KeepsUp(tb, ll, dl, ts, old(|w.Stream()|), lit))
  {
    hide AllTokenBits, TablesOk, w.Valid, w.Behind, Codeword, CodesOf, AllCoded, KeepsUp, w.InPairs;
    ok := SendTokens(w, tb, lfc, ldl, dfc, ddl, dBuf, lBuf, lit, lastLit, ll, dl, ts);
    if ok { SendCode(w, lfc, ldl, END_BLOCK, ll); }
  }

  lemma NoTokens(tb: Tables, ll: seq<nat>, dl: seq<nat>, ts: seq<Token>, bits: nat, room: nat)
    requires AllCoded(tb, ll, dl, ts) && ts == []
    ensures AllTokenBits(tb, ll, dl, ts) == [] && KeepsUp(tb, ll, dl, ts, bits, room)
  {
  }
}
