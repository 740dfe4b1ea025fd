/** When the codes of a block cannot overtake its tokens in pending_buf, whatever the input
    (deps/libz/deflate.c: deflateInit2_, deflate_rle; deps/libz/trees.c: _tr_flush_block). */
module KeepingUp {
  import opened Bits
  import opened Canonical
  import opened FixedCodes
  import opened MatchCodes
  import opened CodeLengths
  import opened TreeCoding
  import opened Optimality
  import opened RepairLengths
  import opened TreeBuilder
  import opened BuildTrees
  import opened Tokens
  import opened Tallies
  import opened BlockTrees
  import opened BlockFormat
  import opened BlockSender
  import opened Encoder
  import opened Tally
  import opened Overlay

  // ---- The fixed codes ----

  /** Distances of up to 256 take at most six extra bits. */
  lemma NearCode(c: nat, d: nat)
    requires DistIn(c, d) && d < 256 && c < 30
    ensures c < 16 && ExtraD(c) <= 6
  {
    hide BaseDist, Pow2;
    if c >= 16 {
      DistEnds();
      Ends(16, c);
    }
  }

  lemma NearTokenBits(tb: Tables, t: Token)
    requires TablesOk(tb) && Coded(tb, FixedLens(), FixedDistLens(), t) && (t.Match? ==> t.dist <= 256)
    ensures |TokenBits(tb, FixedLens(), FixedDistLens(), t)| <= 24
  {
    hide TokenBits, TablesOk, DistIn, FixedLens, FixedDistLens, LitSym, DistSym;
    CodedFacts(tb, FixedLens(), FixedDistLens(), t);
    TokenCost(tb, FixedLens(), FixedDistLens(), t);
    FixedCosts();
    SymBounds(tb, t);
    if t.Match? { NearCode(DistSym(tb, t), t.dist - 1); }
  }

  lemma FixedCosts()
    ensures |FixedLens()| == 288 && |FixedDistLens()| == 32
    ensures forall x :: 0 <= x < 257 ==> FixedLens()[x] <= 9
    ensures forall x :: 257 <= x < 286 ==> FixedLens()[x] + ExtraL(x - 257) <= 13
    ensures forall x :: 0 <= x < 30 ==> FixedDistLens()[x] == 5
  {
  }

  /** Fewer than lit_bufsize of them keep up. */
  lemma NearFixedKeepsUp(tb: Tables, ts: seq<Token>, v: nat, lit: nat)
    requires AllCoded(tb, FixedLens(), FixedDistLens(), ts) && AllNear(ts, 256) && |ts| < lit && v < 8
    ensures KeepsUp(tb, FixedLens(), FixedDistLens(), ts, v + 3, lit)
  {
    hide KeepsUp, TokenBits, Coded, FixedLens, FixedDistLens, TablesOk;
    forall i | 0 <= i < |ts| ensures |TokenBits(tb, FixedLens(), FixedDistLens(), ts[i])| <= 24 {
      assert Coded(tb, FixedLens(), FixedDistLens(), ts[i]);
      NearTokenBits(tb, ts[i]);
    }
    TokensKeepUp(tb, FixedLens(), FixedDistLens(), ts, v + 3, lit, 8);
  }

  // ---- Codes for one distance only ----

  /** Besides the distance there is one forced code, and both have one bit. */
  lemma OneDistance(tb: Tables, ts: seq<Token>, dl: seq<nat>, i: nat)
    requires TablesOk(tb) && TokensOk(ts) && TreeCode(DistFreq(tb, ts), dl, 15) && dl != []
    requires i < |ts| && ts[i].Match? && AllNear(ts, 1)
    ensures dl[0] <= 1
  {
    hide TablesOk, TreeLengths, DistFreq, Filled;
    var f := DistFreq(tb, ts);
    OnlyFirst(tb, ts, i);
    var w, leaves, forced :| TreeLengths(f, w, leaves, forced, Filled(dl, |f|), 15);
    TwoLeaves(f, w, leaves, forced, Filled(dl, |f|));
    FilledFirst(dl, |f|);
  }

  lemma FilledFirst(dl: seq<nat>, n: nat)
    requires 0 < |dl| <= n
    ensures Filled(dl, n)[0] == dl[0]
  {
  }

  lemma {:induction false} OnlyFirst(tb: Tables, ts: seq<Token>, i: nat)
    requires TablesOk(tb) && TokensOk(ts) && i < |ts| && ts[i].Match? && AllNear(ts, 1)
    ensures DistFreq(tb, ts)[0] > 0 && forall x :: 1 <= x < 30 ==> DistFreq(tb, ts)[x] == 0
  {
    hide TablesOk, DistSym;
    forall x | 1 <= x < 30 ensures DistFreq(tb, ts)[x] == 0 { NoneCounted(tb, ts, x); }
    Counted(tb, ts, i);
  }

  /** A distance of one has code 0. */
  lemma FirstCodeIs(tb: Tables, t: Token)
    requires TablesOk(tb) && TokenOk(t) && t.Match? && t.dist == 1
    ensures DistSym(tb, t) == 0
  {
    hide TablesOk, DistSym;
    SymBounds(tb, t);
  }

  lemma {:induction false} NoneCounted(tb: Tables, ts: seq<Token>, x: nat)
    requires TablesOk(tb) && TokensOk(ts) && AllNear(ts, 1) && x > 0
    ensures DistCount(tb, ts, x) == 0
    decreases |ts|
  {
    hide TablesOk, DistSym;
    if ts != [] {
      var n := |ts| - 1;
      assert TokenOk(ts[n]);
      if ts[n].Match? { FirstCodeIs(tb, ts[n]); }
      NoneCounted(tb, ts[..n], x);
    }
  }

  lemma {:induction false} Counted(tb: Tables, ts: seq<Token>, i: nat)
    requires TablesOk(tb) && TokensOk(ts) && AllNear(ts, 1) && i < |ts| && ts[i].Match?
    ensures DistCount(tb, ts, 0) > 0
    decreases |ts|
  {
    hide TablesOk, DistSym;
    var n := |ts| - 1;
    assert TokenOk(ts[n]);
    if i == n { FirstCodeIs(tb, ts[n]); } else { Counted(tb, ts[..n], i); }
  }

  lemma TwoLeaves(f: seq<nat>, w: seq<nat>, leaves: set<nat>, forced: set<nat>, l: seq<nat>)
    requires TreeLengths(f, w, leaves, forced, l, 15) && f != [] && f[0] > 0 && forall x :: 1 <= x < |f| ==> f[x] == 0
    ensures l[0] <= 1
  {
    hide Complete, LowerBound, Cost, Sum, Fib, Monotone, Pow2;
    LongLength(l);
    var y := OtherLeaf(f, w, leaves, forced);
    KraftDecides(l);
    TwoKraft(l, y, |l|);
    KraftHalves(l[0], l[y]);
  }

  lemma LongLength(l: seq<nat>)
    requires Complete(l)
    ensures Bounded(l, MAXBITS)
  {
  }

  lemma OtherLeaf(f: seq<nat>, w: seq<nat>, leaves: set<nat>, forced: set<nat>) returns (y: nat)
    requires Forced(f, w, leaves, forced) && f != [] && f[0] > 0 && forall x :: 1 <= x < |f| ==> f[x] == 0
    ensures 0 < y < |f| && leaves == {0, y}
  {
    assert 0 in leaves;
    var rest := leaves - {0};
    assert |rest| == |leaves| - 1 >= 1;
    y :| y in rest;
    assert y in forced;
    assert |rest - {y}| == |rest| - 1 == 0;
  }

  lemma {:induction false} TwoKraft(l: seq<nat>, y: nat, n: nat)
    requires Bounded(l, MAXBITS) && 0 < y && n <= |l|
    requires forall x :: 0 <= x < |l| && x != 0 && x != y ==> l[x] == 0
    requires y < |l| && l[0] > 0 && l[y] > 0
    ensures KraftSum(l, MAXBITS, n)
         == (if n > 0 then Pow2(MAXBITS - l[0]) else 0) + (if n > y then Pow2(MAXBITS - l[y]) else 0)
  {
    if n > 0 { TwoKraft(l, y, n - 1); }
  }

  lemma KraftHalves(a: nat, b: nat)
    requires 0 < a <= MAXBITS && 0 < b <= MAXBITS && Pow2(MAXBITS - a) + Pow2(MAXBITS - b) == Pow2(MAXBITS)
    ensures a == 1
  {
    if a > 1 {
      Pow2Monotone(MAXBITS - a, MAXBITS - 2);
      Pow2Monotone(MAXBITS - b, MAXBITS - 1);
    }
  }

  // ---- The header of a dynamic block ----

  /** An item takes at most seven bits for each length that it stands for. */
  lemma {:induction false} ItemsCost(bl: seq<nat>, out: seq<nat>, items: seq<Item>)
    requires Sendable(bl, items) && Bounded(bl, 7) && ApplyAll(out, items).Some?
    ensures |AllItemBits(bl, items)| <= 7 * (|ApplyAll(out, items).value| - |out|)
    decreases |items|
  {
    hide Codeword, ToBits;
    if items != [] {
      assert items == [items[0]] + items[1..];
      SendableParts(bl, [items[0]], items[1..]);
      OneItem(bl, items[0].sym, items[0].arg);
      ItemsCost(bl, Apply(out, items[0]).value, items[1..]);
    }
  }

  lemma HeaderAtMost(c: BlockCodes)
    requires CodesOk(c)
    ensures |HeaderBits(c)| <= 71 + 7 * (|c.ll| + |c.dl|) <= 2283
  {
    hide Complete, ItemsFrom, AllItemBits, CodeCounts, Sendable, ApplyAll, BlOrder;
    LengthsLow(c.ll);
    LengthsLow(c.dl);
    RoundTrip([], c.ll);
    RoundTrip([], c.dl);
    assert [] + c.ll == c.ll && [] + c.dl == c.dl;
    ItemsCost(c.bl, [], Items(c.ll));
    ItemsCost(c.bl, [], Items(c.dl));
  }

  lemma LengthsLow(lens: seq<nat>)
    requires Complete(lens)
    ensures LengthsBelow16(lens)
  {
  }

  /** With one distance a token takes at most 21 bits, and from 1024 tokens on that makes up
      for the header. */
  lemma RunsKeepUp(tb: Tables, ts: seq<Token>, c: BlockCodes, v: nat, lit: nat)
    requires CodesFor(tb, ts, c) && AllNear(ts, 1) && |ts| < lit && v < 8 && 1024 <= lit
    ensures KeepsUp(tb, c.ll, c.dl, ts, v + 3 + |HeaderBits(c)|, lit)
  {
    hide KeepsUp, TokenBits, Coded, TablesOk, CodesOk, TreeCode, LitFreq, DistFreq, ItemFreq, ItemsFrom, BlOrder,
      HeaderBits, TokensOk;
    DynamicFacts(c);
    HeaderAtMost(c);
    forall i | 0 <= i < |ts| ensures |TokenBits(tb, c.ll, c.dl, ts[i])| <= 21 {
      assert Coded(tb, c.ll, c.dl, ts[i]);
      RunTokenBits(tb, ts, c, i);
    }
    TokensKeepUp(tb, c.ll, c.dl, ts, v + 3 + |HeaderBits(c)|, lit, 5);
  }

  lemma RunTokenBits(tb: Tables, ts: seq<Token>, c: BlockCodes, i: nat)
    requires CodesFor(tb, ts, c) && AllNear(ts, 1) && i < |ts| && Coded(tb, c.ll, c.dl, ts[i])
    ensures |TokenBits(tb, c.ll, c.dl, ts[i])| <= 21
  {
    hide TokenBits, Coded, TablesOk, TreeCode, LitFreq, DistFreq, ItemFreq, ItemsFrom, BlOrder, HeaderBits, AllCoded,
      LitSym, DistSym, Sendable;
    CodedFacts(tb, c.ll, c.dl, ts[i]);
    TokenCost(tb, c.ll, c.dl, ts[i]);
    CompleteBounded(c.ll);
    assert TokenOk(ts[i]);
    if ts[i].Match? {
      OneDistance(tb, ts, c.dl, i);
      FirstCodeIs(tb, ts[i]);
    }
  }

  lemma CompleteBounded(lens: seq<nat>)
    requires Complete(lens)
    ensures forall x :: 0 <= x < |lens| ==> lens[x] <= 15
  {
  }
}
