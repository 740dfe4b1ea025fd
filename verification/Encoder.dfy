/** The block encoder (deps/libz/trees.c: init_block, _tr_tally, build_bl_tree,
    send_all_trees, _tr_flush_block). */
module Encoder {
  import opened Bits
  import opened Canonical
  import opened FixedCodes
  import opened MatchCodes
  import opened CodeLengths
  import opened BitWriter
  import opened TreeCoding
  import opened TreeBuilder
  import opened LengthPass
  import opened BuildTrees
  import opened Tokens
  import opened BlockSender
  import opened Tallies
  import opened BlockTrees
  import opened BlockFormat
  import opened StaticTrees
  import opened HeaderSender

  class Encoder {
    const s: DeflateState
    const w: Writer
    const ltree: Tree
    const dtree: Tree
    const blTree: Tree
    const dBuf: array<nat>
    const lBuf: array<byte>
    const tb: Tables
    const slFc: seq<nat>
    const slDl: seq<nat>
    const sdFc: seq<nat>
    const sdDl: seq<nat>
    var lastLit: nat
    var matches: nat

    ghost predicate Trees() {
      Separate(s, ltree, dtree, blTree)
    }

    ghost predicate Buffers() {
      && dBuf.Length == lBuf.Length <= 32768 && lBuf != w.pendingBuf
      && dBuf != s.heap && dBuf != s.depth && dBuf != s.blCount
      && dBuf != ltree.fc && dBuf != ltree.dl && dBuf != dtree.fc && dBuf != dtree.dl && dBuf != blTree.fc
      && dBuf != blTree.dl
      && TablesOk(tb) && TreeOf(slFc, slDl, FixedLens(), 286) && TreeOf(sdFc, sdDl, FixedDistLens(), 30)
    }

    ghost predicate Valid()
      reads this, ltree, dtree, blTree, w
    {
      && Trees() && Buffers() && ltree.Valid() && dtree.Valid() && blTree.Valid() && w.Valid()
      && lastLit <= dBuf.Length
    }

    /** The tokens of the block so far. */
    ghost function Tokens(): seq<Token>
      reads this, dBuf, lBuf
      requires lastLit <= dBuf.Length == lBuf.Length
    {
      TokensOf(dBuf[..lastLit], lBuf[..lastLit])
    }

    /** The frequencies are those of the tokens ts. */
    ghost predicate Tallied(ts: seq<Token>)
      reads this, ltree, dtree, blTree, w, s, dBuf, lBuf, ltree.fc, dtree.fc, blTree.fc
    {
      Valid() && TokensOk(ts) && ts == Tokens() && Counted(ts)
    }

    ghost predicate Counted(ts: seq<Token>)
      reads s, ltree.fc, dtree.fc, blTree.fc
      requires TablesOk(tb) && TokensOk(ts)
    {
      && ltree.fc.Length >= 286 && dtree.fc.Length >= 30 && blTree.fc.Length >= 19
      && ltree.fc[..286] == LitFreq(tb, ts) && dtree.fc[..30] == DistFreq(tb, ts)
      && (forall x :: 0 <= x < 19 ==> blTree.fc[x] == 0)
      && s.optLen == 0 && s.staticLen == 0
    }

    constructor (litBufsize: nat, pendingSize: nat)
      requires litBufsize <= 32768
      ensures Valid() && dBuf.Length == litBufsize && w.pendingBuf.Length == pendingSize && w.Stream() == []
      ensures w.Room(0)
      ensures fresh(s) && fresh(s.heap) && fresh(s.depth) && fresh(s.blCount) && fresh(w) && fresh(w.pendingBuf)
      ensures fresh(ltree) && fresh(dtree) && fresh(blTree) && fresh(dBuf) && fresh(lBuf)
      ensures fresh(ltree.fc) && fresh(ltree.dl) && fresh(dtree.fc) && fresh(dtree.dl) && fresh(blTree.fc)
      ensures fresh(blTree.dl)
    {
      hide TablesOk, CodesOf, DescOk, FixedLens, FixedDistLens, LDesc, DDesc, BlDesc;
      DescsOk();
      NoStream();
      var a, b, c, d, t := StaticTables();
      slFc, slDl, sdFc, sdDl, tb := a, b, c, d, t;
      s := new DeflateState();
      w := new Writer(pendingSize);
      ltree := new Tree(LDesc());
      dtree := new Tree(DDesc());
      blTree := new Tree(BlDesc());
      dBuf := new nat[litBufsize](i => 0);
      lBuf := new byte[litBufsize](i => 0);
      lastLit, matches := 0, 0;
    }

    /** _tr_tally_lit: save a literal; true when the block must be flushed. */
    method TallyLit(c: byte, ghost ts: seq<Token>) returns (flush: bool)
      requires Tallied(ts) && lastLit + 1 < dBuf.Length
      modifies this, dBuf, lBuf, ltree.fc
      ensures Tallied(ts + [Literal(c)]) && lastLit == old(lastLit) + 1
      ensures flush <==> lastLit == dBuf.Length - 1
    {
      hide TablesOk, CodesOf, FixedLens, FixedDistLens, LitFreq, DistFreq, LDesc, DDesc, BlDesc, w.Valid;
      DescSizes();
      TokensPush(dBuf[..lastLit], lBuf[..lastLit], 0, c);
      TokensOkPush(ts, Literal(c));
      SaveToken(0, c);
      CountLit(ltree.fc, tb, c, ts);
      flush := lastLit == dBuf.Length - 1;
    }

    /** _tr_tally_dist: save a match. */
    method TallyDist(dist: nat, lc: byte, ghost ts: seq<Token>) returns (flush: bool)
      requires Tallied(ts) && 1 <= dist <= 32768 && lastLit + 1 < dBuf.Length
      modifies this, dBuf, lBuf, ltree.fc, dtree.fc
      ensures Tallied(ts + [Match(lc, dist)]) && lastLit == old(lastLit) + 1
      ensures flush <==> lastLit == dBuf.Length - 1
    {
      hide TablesOk, CodesOf, FixedLens, FixedDistLens, LitFreq, DistFreq, LDesc, DDesc, BlDesc, w.Valid;
      DescSizes();
      TokensPush(dBuf[..lastLit], lBuf[..lastLit], dist, lc);
      TokensOkPush(ts, Match(lc, dist));
      SaveToken(dist, lc);
      matches := matches + 1;
      CountMatch(ltree.fc, dtree.fc, tb, dist, lc, ts);
      flush := lastLit == dBuf.Length - 1;
    }

    /** _tr_flush_block: write the block with tokens ts, or its bytes buf, the
        shortest way.  The ghost results are the costs that the trees have counted.  ok says
        that the codes did not overtake the tokens in pending_buf. */
    method FlushBlock(buf: Option<seq<byte>>, storedLen: nat, last: bool, level: nat, fixed: bool, ghost ts: seq<Token>)
      returns (ok: bool, ghost b: Block, ghost c: BlockCodes, ghost opt: int, ghost stat: int)
      requires Tallied(ts) && |ts| < 32768 && BlockRoom(w, |ts|, storedLen, level, buf.Some?)
      requires buf.Some? ==> |buf.value| == storedLen < 65536
      modifies this, s, s.heap, s.depth, s.blCount, ltree, dtree, blTree, w, w.pendingBuf
      modifies ltree.fc, ltree.dl, dtree.fc, dtree.dl, blTree.fc, blTree.dl
      ensures Chosen(b, buf, storedLen, level, fixed, opt, stat) && Cheaper(tb, b)
      ensures Holding(tb, b, buf, ts, last, old(|w.Stream()|), opt, stat)
      ensures Choice(tb, ts, buf, storedLen, level, fixed, b, c)
      ensures old(w.InPairs()) ==> (ok <==> BlockKeepsUp(tb, b, old(|w.Stream()|), dBuf.Length))
      ensures ok ==> Tallied([]) && w.Room(0)
      ensures ok ==> var bits := old(w.Stream()) + BlockBits(tb, b, last, old(|w.Stream()|));
              w.Stream() == bits + if last then Zeros(Padding(|bits|)) else []
    {
      hide TablesOk, LitFreq, DistFreq, LDesc, DDesc, BlDesc, CodesOf, w.Valid, BlockBits, Holding, Separate, Zeros,
        Padding, Chosen, Cheaper, BlockKeepsUp, w.InPairs, Choice;
      HoldingOk();
      ok, b, c, opt, stat := EmitBlock(buf, storedLen, last, level, fixed, ts);
      if ok { FinishBlock(last); }
    }

    /** Start a new block; after the last one, go to a byte boundary. */
    method FinishBlock(last: bool)
      requires Valid() && w.Room(0)
      modifies this, s, w, w.pendingBuf, ltree.fc, dtree.fc, blTree.fc
      ensures Tallied([]) && w.Room(0)
      ensures w.Stream() == old(w.Stream()) + if last then Zeros(Padding(old(|w.Stream()|))) else []
    {
      hide TablesOk, LitFreq, DistFreq, LDesc, DDesc, BlDesc, CodesOf, w.Valid, Zeros, Padding, TreeOf, Counted,
        Separate;
      InitBlock();
      if last {
        w.BiWindup();
      }
    }

    method EmitBlock(buf: Option<seq<byte>>, storedLen: nat, last: bool, level: nat, fixed: bool, ghost ts: seq<Token>)
      returns (ok: bool, ghost b: Block, ghost c: BlockCodes, ghost opt: int, ghost stat: int)
      requires Tallied(ts) && |ts| < 32768 && BlockRoom(w, |ts|, storedLen, level, buf.Some?)
      requires buf.Some? ==> |buf.value| == storedLen < 65536
      modifies s, s.heap, s.depth, s.blCount, ltree`maxCode, dtree`maxCode, blTree`maxCode, w, w.pendingBuf
      modifies ltree.fc, ltree.dl, dtree.fc, dtree.dl, blTree.fc, blTree.dl
      ensures Valid() && Chosen(b, buf, storedLen, level, fixed, opt, stat) && Cheaper(tb, b)
      ensures Holding(tb, b, buf, ts, last, old(|w.Stream()|), opt, stat) && BlockOk(tb, b)
      ensures Choice(tb, ts, buf, storedLen, level, fixed, b, c)
      ensures old(w.InPairs()) ==> (ok <==> BlockKeepsUp(tb, b, old(|w.Stream()|), dBuf.Length))
      ensures ok ==> w.Room(0) && w.Stream() == old(w.Stream()) + BlockBits(tb, b, last, old(|w.Stream()|))
    {
      hide *;
      TalliedParts(this, ts);
      EmitParts(this, ts);
      FixedCoded(tb, ts);
      c, opt, stat := BlockCodes([], [], [], 0), 0, 0;
      ghost var p := |w.Stream()|;
      HoldingOk();
      if level == 0 && buf.None? {
        LostRoom(w, |ts|, storedLen);
        ok, b, stat := SendLost(ts, last);
        LostChosen(b, storedLen, fixed, opt, stat);
        ChoiceMade(tb, ts, buf, storedLen, level, fixed, b, c, last, p, opt, stat);
        return;
      }
      var m, optLenb, staticLenb := 0, storedLen + 5, storedLen + 5;
      if level > 0 {
        m, c, optLenb, staticLenb, opt, stat := Construct(ts);
        CostBounds(tb, ts, c, m, ltree, dtree, blTree, opt, stat);
        ValidParts(this);
      }
      ok, b := SendChosen(w, tb, slFc, slDl, sdFc, sdDl, ltree, dtree, blTree, dBuf, lBuf, lastLit,
        buf, storedLen, last, level, fixed, m, optLenb, staticLenb, ts, c, opt, stat);
      ChoiceMade(tb, ts, buf, storedLen, level, fixed, b, c, last, p, opt, stat);
      ValidAgain(this);
    }

    /** Level 0 without the bytes: a block with the fixed codes. */
    method SendLost(ghost ts: seq<Token>, last: bool) returns (ok: bool, ghost b: Block, ghost stat: int)
      requires Tallied(ts) && w.Room(31 * |ts| + 64)
      modifies w, w.pendingBuf
      ensures Valid() && b == FixedBlock(ts) && BlockOk(tb, b) && Cheaper(tb, b)
      ensures Holding(tb, b, None, ts, last, old(|w.Stream()|), 0, stat)
      ensures old(w.InPairs()) ==> (ok <==> BlockKeepsUp(tb, b, old(|w.Stream()|), dBuf.Length))
      ensures ok ==> w.Room(0) && w.Stream() == old(w.Stream()) + BlockBits(tb, b, last, old(|w.Stream()|))
    {
      hide TablesOk, LitFreq, DistFreq, LDesc, DDesc, BlDesc, CodesOf, w.Valid, BlockBits, BlockOk, Separate,
        BlockBody, AllCoded, BlockKeepsUp, w.InPairs;
      LostCost(tb, ts);
      b, stat := FixedBlock(ts), |BlockBody(tb, FixedLens(), FixedDistLens(), ts)|;
      ok := SendFixed(w, tb, slFc, slDl, sdFc, sdDl, dBuf, lBuf, lastLit, ts, last);
    }

    /** Build the trees and compute the block lengths in bytes. */
    method Construct(ghost ts: seq<Token>)
      returns (m: nat, ghost c: BlockCodes, optLenb: int, staticLenb: int, ghost opt: int, ghost stat: int)
      requires Tallied(ts) && |ts| < 32768
      modifies s, s.heap, s.depth, s.blCount, ltree`maxCode, dtree`maxCode, blTree`maxCode
      modifies ltree.fc, ltree.dl, dtree.fc, dtree.dl, blTree.fc, blTree.dl
      ensures Valid()
      ensures TreesReady(tb, ts, c, m, ltree, dtree, blTree, opt, stat)
      ensures 0 <= opt && 0 <= stat && staticLenb == (stat + 10) / 8
      ensures optLenb == if (opt + 10) / 8 < staticLenb then (opt + 10) / 8 else staticLenb
    {
      hide *;
      TalliedParts(this, ts);
      m, c := ConstructTrees(s, ltree, dtree, blTree, tb, ts);
      opt, stat := s.optLen, s.staticLen;
      CostBounds(tb, ts, c, m, ltree, dtree, blTree, s.optLen, s.staticLen);
      optLenb, staticLenb := InBytes(s.optLen, s.staticLen);
      ValidAgain(this);
    }

    method SaveToken(dist: nat, lc: byte)
      requires dBuf.Length == lBuf.Length && lastLit < dBuf.Length
      modifies this`lastLit, dBuf, lBuf
      ensures lastLit == old(lastLit) + 1
      ensures dBuf[..lastLit] == old(dBuf[..lastLit]) + [dist] && lBuf[..lastLit] == old(lBuf[..lastLit]) + [lc]
    {
      dBuf[lastLit] := dist;
      lBuf[lastLit] := lc;
      lastLit := lastLit + 1;
    }

    /** Clear the frequencies; the end-of-block code is used once. */
    method InitBlock()
      requires Valid()
      modifies this, s, ltree.fc, dtree.fc, blTree.fc
      ensures Tallied([])
    {
      hide TablesOk, CodesOf, DescOk, FixedLens, FixedDistLens, LitFreq, DistFreq;
      Clear(ltree.fc, 286);
      Clear(dtree.fc, 30);
      Clear(blTree.fc, 19);
      ltree.fc[END_BLOCK] := 1;
      s.optLen, s.staticLen := 0, 0;
      lastLit, matches := 0, 0;
      EmptyTallies(tb);
      assert ltree.fc[..286] == LitFreq(tb, []);
      assert dtree.fc[..30] == DistFreq(tb, []);
    }
  }

  /** What the tallies and the trees are before a block is flushed. */
  lemma TalliedParts(e: Encoder, ts: seq<Token>)
    requires e.Tallied(ts)
    ensures Separate(e.s, e.ltree, e.dtree, e.blTree) && e.ltree.Valid() && e.dtree.Valid() && e.blTree.Valid()
    ensures TablesOk(e.tb) && TokensOk(ts) && e.ltree.fc.Length >= 286 && e.dtree.fc.Length >= 30
    ensures e.blTree.fc.Length >= 19 && e.ltree.fc[..286] == LitFreq(e.tb, ts) && e.dtree.fc[..30] == DistFreq(e.tb, ts)
    ensures (forall x :: 0 <= x < 19 ==> e.blTree.fc[x] == 0) && e.s.optLen == 0 && e.s.staticLen == 0
    ensures e.Trees() && e.Buffers() && e.w.Valid() && e.lastLit <= e.dBuf.Length
  {
    hide TablesOk, LitFreq, DistFreq, Separate, TokensOk, TokensOf;
  }

  lemma EmitParts(e: Encoder, ts: seq<Token>)
    requires e.Tallied(ts)
    ensures TreeOf(e.slFc, e.slDl, FixedLens(), 286) && TreeOf(e.sdFc, e.sdDl, FixedDistLens(), 30)
    ensures e.lastLit <= e.dBuf.Length == e.lBuf.Length && e.lBuf != e.w.pendingBuf && e.dBuf != e.s.heap
    ensures e.dBuf != e.s.depth && e.dBuf != e.s.blCount && e.dBuf != e.ltree.fc && e.dBuf != e.ltree.dl
    ensures e.dBuf != e.dtree.fc && e.dBuf != e.dtree.dl && e.dBuf != e.blTree.fc && e.dBuf != e.blTree.dl
    ensures ts == TokensOf(e.dBuf[..e.lastLit], e.lBuf[..e.lastLit])
  {
    hide TablesOk, LitFreq, DistFreq, Separate, TokensOk, TokensOf, CodesOf, FixedLens, FixedDistLens;
  }

  lemma ValidParts(e: Encoder)
    requires e.Valid()
    ensures e.Trees() && e.Buffers() && e.ltree.Valid() && e.dtree.Valid() && e.blTree.Valid() && e.w.Valid()
    ensures e.lastLit <= e.dBuf.Length
  {
    hide TablesOk, Separate, FixedLens, FixedDistLens;
  }

  lemma LostRoom(w: Writer, n: nat, len: nat)
    requires BlockRoom(w, n, len, 0, false)
    ensures w.Room(31 * n + 64)
  {
  }

  lemma ValidAgain(e: Encoder)
    requires e.Trees() && e.Buffers() && e.ltree.Valid() && e.dtree.Valid() && e.blTree.Valid() && e.w.Valid()
    requires e.lastLit <= e.dBuf.Length
    ensures e.Valid()
  {
  }

  /** The block lengths in bytes; optLenb is that of the shorter one. */
  method InBytes(opt: int, stat: int) returns (optLenb: int, staticLenb: int)
    ensures staticLenb == (stat + 10) / 8
    ensures optLenb == if (opt + 10) / 8 < staticLenb then (opt + 10) / 8 else staticLenb
  {
    optLenb, staticLenb := (opt + 3 + 7) / 8, (stat + 3 + 7) / 8;
    if staticLenb <= optLenb { optLenb := staticLenb; }
  }

  /** Room for a block.  The tokens cost at most 31 bits each, and a block that stores its
      bytes only because they are shorter needs no more; but level 0 stores the bytes
      unless they have left the window. */
  ghost predicate BlockRoom(w: Writer, n: nat, len: nat, level: nat, stored: bool)
    reads w
  {
    if level == 0 && stored then w.RoomBytes(3, 4 + len) else w.Room(31 * n + 64)
  }

  /** The codes of a dynamic block: what build_tree makes of the frequencies of the tokens, and
      of the items for both codes; and no more of them than needed. */
  ghost predicate CodesFor(tb: Tables, ts: seq<Token>, c: BlockCodes) {
    && TablesOk(tb) && TokensOk(ts) && CodesOk(c) && AllCoded(tb, c.ll, c.dl, ts)
    && TreeCode(LitFreq(tb, ts), c.ll, 15) && c.ll[|c.ll| - 1] > 0
    && TreeCode(DistFreq(tb, ts), c.dl, 15) && c.dl[|c.dl| - 1] > 0
    && TreeCode(ItemFreq(Items(c.ll) + Items(c.dl)), c.bl, 7) && c.bl[BlOrder(c.blCodes - 1)] > 0
  }

  /** The trees of the block, built from the frequencies of ts. */
  ghost predicate TreesFor(tb: Tables, ts: seq<Token>, c: BlockCodes, m: nat, lfc: seq<nat>, ldl: seq<nat>, lmax: int,
                           dfc: seq<nat>, ddl: seq<nat>, dmax: int, bfc: seq<nat>, bdl: seq<nat>, opt: int, stat: int) {
    && CodesOk(c) && c.blCodes == m + 1 && AllCoded(tb, c.ll, c.dl, ts) && CodesFor(tb, ts, c)
    && AllCoded(tb, FixedLens(), FixedDistLens(), ts)
    && TreeOf(lfc, ldl, c.ll, 286) && TreeOf(dfc, ddl, c.dl, 30) && |bfc| == |bdl| >= 19 && CodesOf(bfc, bdl, c.bl)
    && c.bl == bdl[..19]
    && |c.ll| == lmax + 1 < |ldl| && ldl[..lmax + 1] == c.ll && ldl[lmax + 1] == GUARD
    && |c.dl| == dmax + 1 < |ddl| && ddl[..dmax + 1] == c.dl && ddl[dmax + 1] == GUARD
    && opt == |HeaderBits(c)| + |BlockBody(tb, c.ll, c.dl, ts)|
    && stat == |BlockBody(tb, FixedLens(), FixedDistLens(), ts)|
  }

  /** All that the three trees need to know of each other. */
  ghost predicate Separate(s: DeflateState, ltree: Tree, dtree: Tree, blTree: Tree) {
    && s.Valid() && s.Apart(ltree) && s.Apart(dtree) && s.Apart(blTree)
    && ltree.desc == LDesc() && dtree.desc == DDesc() && blTree.desc == BlDesc()
    && ltree != dtree && ltree != blTree && dtree != blTree
    && ltree.fc != dtree.fc && ltree.fc != dtree.dl && ltree.dl != dtree.fc && ltree.dl != dtree.dl
    && ltree.fc != blTree.fc && ltree.fc != blTree.dl && ltree.dl != blTree.fc && ltree.dl != blTree.dl
    && dtree.fc != blTree.fc && dtree.fc != blTree.dl && dtree.dl != blTree.fc && dtree.dl != blTree.dl
  }

  method ConstructTrees(s: DeflateState, ltree: Tree, dtree: Tree, blTree: Tree, ghost tb: Tables, ghost ts: seq<Token>)
    returns (m: nat, ghost c: BlockCodes)
    requires Separate(s, ltree, dtree, blTree) && ltree.Valid() && dtree.Valid() && blTree.Valid()
    requires TablesOk(tb) && TokensOk(ts) && |ts| < 32768
    requires ltree.fc[..286] == LitFreq(tb, ts) && dtree.fc[..30] == DistFreq(tb, ts) && forall x :: 0 <= x < 19 ==>
      blTree.fc[x] == 0
    requires s.optLen == 0 && s.staticLen == 0
    modifies s, s.heap, s.depth, s.blCount, ltree.fc, ltree.dl, dtree.fc, dtree.dl, blTree.fc, blTree.dl
    modifies ltree`maxCode, dtree`maxCode, blTree`maxCode
    ensures TreesReady(tb, ts, c, m, ltree, dtree, blTree, s.optLen, s.staticLen)
  {
    hide TablesOk, LitFreq, DistFreq, TreesFor, CodeFor, SymbolBits, StaticSymbolBits, ExtraBits, FreqSum, LDesc,
      DDesc, BlDesc, DescOk, Complete, CodesOk, CodesOf, HeaderBits, TreeCode, CodesFor;
    DescSizes();
    LitFreqSum(tb, ts);
    DistFreqSum(tb, ts);
    ghost var lf, df := ltree.fc[..286], dtree.fc[..30];
    ghost var ll := BuildCode(s, ltree, lf);
    ghost var l: seq<nat> := ltree.dl[..];
    assert dtree.fc[..30] == df;
    ghost var dl := BuildCode(s, dtree, df);
    ghost var d: seq<nat> := dtree.dl[..];
    assert ltree.dl[..] == l;
    LitLengths(tb, ts, lf, df, ltree.fc[..], l, ll, dtree.fc[..], d, dl);
    m := BuildBlTree(s, ltree, dtree, blTree, ll, dl);
    c := BlockCodes(ll, dl, blTree.dl[..19], m + 1);
    TreesCodes(tb, ts, c);
    TreesBuilt(tb, ts, c, m, ltree.fc[..], l, ltree.maxCode, dtree.fc[..], d, dtree.maxCode, blTree.fc[..],
      blTree.dl[..], s.optLen, s.staticLen, ltree.dl.Length, dtree.dl.Length);
  }

  lemma TreesCodes(tb: Tables, ts: seq<Token>, c: BlockCodes)
    requires TablesOk(tb) && TokensOk(ts) && CodesOk(c) && AllCoded(tb, c.ll, c.dl, ts)
    requires TreeCode(LitFreq(tb, ts), c.ll, 15) && c.ll[|c.ll| - 1] > 0
    requires TreeCode(DistFreq(tb, ts), c.dl, 15) && c.dl[|c.dl| - 1] > 0
    requires TreeCode(ItemFreq(Items(c.ll) + Items(c.dl)), c.bl, 7) && c.bl[BlOrder(c.blCodes - 1)] > 0
    ensures CodesFor(tb, ts, c)
  {
    hide TablesOk, CodesOk, AllCoded, TreeCode, LitFreq, DistFreq, ItemFreq, ItemsFrom, BlOrder;
  }

  lemma LitLengths(tb: Tables, ts: seq<Token>, lf: seq<nat>, df: seq<nat>, lfc: seq<nat>, l: seq<nat>, ll: seq<nat>,
                   dfc: seq<nat>, d: seq<nat>, dl: seq<nat>)
    requires TablesOk(tb) && TokensOk(ts) && lf == LitFreq(tb, ts) && df == DistFreq(tb, ts)
    requires CodeFor(lf, lfc, l, ll, 15) && CodeFor(df, dfc, d, dl, 15)
    ensures 256 < |ll| <= 286 && 2 <= |dl| <= 30 && Complete(ll) && Complete(dl) && ll[END_BLOCK] > 0
    ensures AllCoded(tb, ll, dl, ts)
  {
    hide TablesOk, Complete, CodesOf;
    TokensCoded(tb, ll, dl, ts);
  }

  lemma TreesBuilt(tb: Tables, ts: seq<Token>, c: BlockCodes, m: nat, lfc: seq<nat>, l: seq<nat>, lmax: int,
                   dfc: seq<nat>, d: seq<nat>, dmax: int, bfc: seq<nat>, bdl: seq<nat>, opt: int, stat: int, n: nat,
                   k: nat)
    requires TablesOk(tb) && TokensOk(ts) && CodesOk(c) && c.blCodes == m + 1 && DescOk(LDesc()) && DescOk(DDesc())
    requires AllCoded(tb, c.ll, c.dl, ts) && CodesFor(tb, ts, c)
    requires CodeFor(LitFreq(tb, ts), lfc, l, c.ll, 15) && CodeFor(DistFreq(tb, ts), dfc, d, c.dl, 15)
    requires |c.ll| == lmax + 1 && |c.dl| == dmax + 1 && 0 <= lmax < 286 && 0 <= dmax < 30
    requires |lfc| == |l| == n > 286 && |dfc| == |d| == k > 30 && |bfc| == |bdl| >= 19 && CodesOf(bfc, bdl, c.bl)
    requires c.bl == bdl[..19]
    requires opt == SymbolBits(LitFreq(tb, ts), l, ExtraBits(LDesc(), n), 286)
                  + SymbolBits(DistFreq(tb, ts), d, ExtraBits(DDesc(), k), 30) + |HeaderBits(c)|
    requires stat == StaticSymbolBits(LDesc(), LitFreq(tb, ts), n) + StaticSymbolBits(DDesc(), DistFreq(tb, ts), k)
    ensures TreesFor(tb, ts, c, m, lfc, l[lmax + 1 := GUARD], lmax, dfc, d[dmax + 1 := GUARD], dmax, bfc, bdl, opt,
      stat)
  {
    hide TablesOk, LitFreq, DistFreq, SymbolBits, StaticSymbolBits, ExtraBits, DescOk, Complete, HeaderBits, RevCode,
      BlockBody, Covers, Coded, CodesFor;
    DynamicCost(tb, ts, c.ll, c.dl, l, d, n, k);
    FixedCost(tb, ts, n, k);
    WithGuard(lfc, l, c.ll);
    WithGuard(dfc, d, c.dl);
  }

  lemma WithGuard(fc: seq<nat>, dl: seq<nat>, lens: seq<nat>)
    requires |lens| < |dl| && CodesOf(fc, dl, lens) && dl[..|lens|] == lens
    ensures var g := dl[|lens| := GUARD];
            CodesOf(fc, g, lens) && g[..|lens|] == lens && g[|lens|] == GUARD
  {
    hide RevCode;
  }

  // ---- The three kinds of block ----

  /** The rule that chooses between a stored, a fixed and a dynamic block. */
  ghost predicate Chosen(b: Block, buf: Option<seq<byte>>, storedLen: nat, level: nat, fixed: bool, opt: int,
                         stat: int) {
    var statb := if level > 0 then (stat + 10) / 8 else storedLen + 5;
    var optb := if level > 0 && (opt + 10) / 8 < statb then (opt + 10) / 8 else statb;
    && (b.StoredBlock? <==> buf.Some? && storedLen + 4 <= optb)
    && (b.FixedBlock? <==> !b.StoredBlock? && (fixed || statb == optb))
  }

  /** The bits of the tokens as a dynamic block with the codes c, header included. */
  ghost function DynamicBits(tb: Tables, ts: seq<Token>, c: BlockCodes): nat {
    if CodesOk(c) && AllCoded(tb, c.ll, c.dl, ts) then |HeaderBits(c)| + |BlockBody(tb, c.ll, c.dl, ts)| else 0
  }

  ghost function FixedBits(tb: Tables, ts: seq<Token>): nat {
    if AllCoded(tb, FixedLens(), FixedDistLens(), ts) then |BlockBody(tb, FixedLens(), FixedDistLens(), ts)| else 0
  }

  /** The block that _tr_flush_block makes of the tokens ts or the bytes buf, by their exact
      costs; c are the codes that were built for it, above level 0. */
  ghost predicate Choice(tb: Tables, ts: seq<Token>, buf: Option<seq<byte>>, len: nat, level: nat, fixed: bool,
                         b: Block, c: BlockCodes) {
    && BlockOk(tb, b) && AllCoded(tb, FixedLens(), FixedDistLens(), ts) && (level > 0 ==> CodesFor(tb, ts, c))
    && Chosen(b, buf, len, level, fixed, DynamicBits(tb, ts, c), FixedBits(tb, ts))
    && match b
       case StoredBlock(data) => buf == Some(data)
       case FixedBlock(tokens) => tokens == ts
       case DynamicBlock(tokens, codes) => tokens == ts && codes == c
  }

  lemma ChoiceMade(tb: Tables, ts: seq<Token>, buf: Option<seq<byte>>, len: nat, level: nat, fixed: bool, b: Block,
                   c: BlockCodes, last: bool, p: nat, opt: int, stat: int)
    requires TablesOk(tb) && TokensOk(ts) && Holding(tb, b, buf, ts, last, p, opt, stat)
    requires Chosen(b, buf, len, level, fixed, opt, stat) && (b.DynamicBlock? ==> b.codes == c)
    requires AllCoded(tb, FixedLens(), FixedDistLens(), ts) && (level > 0 ==> CodesFor(tb, ts, c))
    requires level > 0 ==> opt == |HeaderBits(c)| + |BlockBody(tb, c.ll, c.dl, ts)|
    requires level > 0 ==> stat == |BlockBody(tb, FixedLens(), FixedDistLens(), ts)|
    ensures Choice(tb, ts, buf, len, level, fixed, b, c)
  {
    hide TablesOk, AllCoded, TokensOk, TreeCode, CodesOk, BlockBody, HeaderBits, BlockBits, FixedLens, FixedDistLens,
      LitFreq, DistFreq, ItemFreq, ItemsFrom, BlOrder;
  }

  /** The block holds what it should and costs what was counted. */
  ghost predicate Holding(tb: Tables, b: Block, buf: Option<seq<byte>>, ts: seq<Token>, last: bool, p: nat, opt: int,
                          stat: int) {
    && BlockOk(tb, b)
    && match b
       case StoredBlock(data) => buf == Some(data)
       case FixedBlock(tokens) => tokens == ts && |BlockBits(tb, b, last, p)| == 3 + stat
       case DynamicBlock(tokens, _) => tokens == ts && |BlockBits(tb, b, last, p)| == 3 + opt
  }

  lemma HoldingOk()
    ensures forall tb, b, buf, ts, last, p, opt, stat :: Holding(tb, b, buf, ts, last, p, opt, stat) ==> BlockOk(tb, b)
  {
    hide BlockOk, BlockBits;
  }

  lemma LostCost(tb: Tables, ts: seq<Token>)
    requires TablesOk(tb) && TokensOk(ts)
    ensures AllCoded(tb, FixedLens(), FixedDistLens(), ts)
    ensures |BlockBody(tb, FixedLens(), FixedDistLens(), ts)| <= 31 * |ts| + 7
  {
    hide TablesOk, AllTokenBits, Codeword, TokensOk;
    FixedCoded(tb, ts);
    FixedBound(tb, ts);
    FixedEnd();
  }

  lemma LostChosen(b: Block, storedLen: nat, fixed: bool, opt: int, stat: int)
    requires b.FixedBlock?
    ensures Chosen(b, None, storedLen, 0, fixed, opt, stat)
  {
  }

  lemma StoredRoom(w: Writer, n: nat, len: nat, level: nat, optb: int, statb: int, opt: int, stat: int)
    requires BlockRoom(w, n, len, level, true)
    requires len + 4 <= optb && (level > 0 ==> statb == (stat + 10) / 8 && stat <= 31 * n + 7)
    requires level > 0 ==> optb == if (opt + 10) / 8 < statb then (opt + 10) / 8 else statb
    ensures w.RoomBytes(3, 4 + len)
  {
  }

  lemma DynamicRoom(n: nat, optb: int, statb: int, opt: int, stat: int)
    requires statb == (stat + 10) / 8 && stat <= 31 * n + 7 && statb != optb
    requires optb == if (opt + 10) / 8 < statb then (opt + 10) / 8 else statb
    ensures 3 + opt <= 31 * n + 64
  {
  }

  /** The codes of the block never overtake its tokens in pending_buf, after p bits. */
  ghost predicate BlockKeepsUp(tb: Tables, b: Block, p: nat, lit: nat)
    requires BlockOk(tb, b)
  {
    match b
    case StoredBlock(_) => true
    case FixedBlock(ts) => KeepsUp(tb, FixedLens(), FixedDistLens(), ts, p + 3, lit)
    case DynamicBlock(ts, c) => KeepsUp(tb, c.ll, c.dl, ts, p + 3 + |HeaderBits(c)|, lit)
  }

  /** A dynamic block takes fewer bits than the fixed codes would. */
  ghost predicate Cheaper(tb: Tables, b: Block) {
    b.DynamicBlock? && CodesOk(b.codes) && AllCoded(tb, b.codes.ll, b.codes.dl, b.tokens) ==>
      && AllCoded(tb, FixedLens(), FixedDistLens(), b.tokens)
      && |HeaderBits(b.codes)| + |BlockBody(tb, b.codes.ll, b.codes.dl, b.tokens)|
         < |BlockBody(tb, FixedLens(), FixedDistLens(), b.tokens)|
  }

  method SendChosen(w: Writer, tb: Tables, slFc: seq<nat>, slDl: seq<nat>, sdFc: seq<nat>, sdDl: seq<nat>,
                    ltree: Tree, dtree: Tree, blTree: Tree, dBuf: array<nat>, lBuf: array<byte>, lastLit: nat,
                    buf: Option<seq<byte>>, storedLen: nat, last: bool, ghost level: nat, fixed: bool, m: nat,
                    optLenb: int, staticLenb: int, ghost ts: seq<Token>, ghost c: BlockCodes, ghost opt: int,
                    ghost stat: int)
    returns (ok: bool, ghost b: Block)
    requires w.Valid() && TreeOf(slFc, slDl, FixedLens(), 286) && TreeOf(sdFc, sdDl, FixedDistLens(), 30)
    requires TablesOk(tb)
    requires lastLit <= dBuf.Length && lastLit <= lBuf.Length && lBuf != w.pendingBuf
    requires ts == TokensOf(dBuf[..lastLit], lBuf[..lastLit])
    requires BlockRoom(w, |ts|, storedLen, level, buf.Some?)
    requires buf.Some? ==> |buf.value| == storedLen < 65536
    requires level == 0 ==> buf.Some? && optLenb == staticLenb == storedLen + 5
    requires level > 0 ==> staticLenb == (stat + 10) / 8
    requires level > 0 ==> TreesReady(tb, ts, c, m, ltree, dtree, blTree, opt, stat)
    requires level > 0 ==> optLenb == if (opt + 10) / 8 < staticLenb then (opt + 10) / 8 else staticLenb
    modifies w, w.pendingBuf
    ensures w.Valid() && Chosen(b, buf, storedLen, level, fixed, opt, stat)
    ensures b.DynamicBlock? ==> b.codes == c
    ensures Holding(tb, b, buf, ts, last, old(|w.Stream()|), opt, stat) && BlockOk(tb, b) && Cheaper(tb, b)
    ensures old(w.InPairs()) ==> (ok <==> BlockKeepsUp(tb, b, old(|w.Stream()|), dBuf.Length))
    ensures ok ==> w.Room(0) && w.Stream() == old(w.Stream()) + BlockBits(tb, b, last, old(|w.Stream()|))
  {
    hide TablesOk, CodesOf, w.Valid, BlockBits, BlockOk, TreesReady, TreeOf, Pow2, AllTokenBits, CodesOk, AllCoded,
      Holding, Chosen, BlockKeepsUp, w.InPairs, CodesFor;
    ChosenBy(buf, storedLen, level, fixed, optLenb, staticLenb, opt, stat);
    if buf.Some? && storedLen + 4 <= optLenb {
      if level > 0 { CostBounds(tb, ts, c, m, ltree, dtree, blTree, opt, stat); }
      StoredRoom(w, |ts|, storedLen, level, optLenb, staticLenb, opt, stat);
      ok, b := true, StoredBlock(buf.value);
      StoredKeepsUp(tb, b, |w.Stream()|, dBuf.Length);
      SendStored(w, tb, buf.value, last);
    } else {
      ok, b := SendCompressed(w, tb, slFc, slDl, sdFc, sdDl, ltree, dtree, blTree, dBuf, lBuf, lastLit,
        last, fixed, m, optLenb, staticLenb, ts, c, opt, stat);
    }
    HoldingBuf(tb, b, buf, ts, last, old(|w.Stream()|), opt, stat);
  }

  /** No codes, and none without tokens. */
  lemma StoredKeepsUp(tb: Tables, b: Block, p: nat, lit: nat)
    requires b.StoredBlock? || (b.FixedBlock? && b.tokens == [])
    ensures BlockOk(tb, b) ==> BlockKeepsUp(tb, b, p, lit)
  {
    hide TablesOk, AllCoded;
  }

  lemma ChosenBy(buf: Option<seq<byte>>, storedLen: nat, level: nat, fixed: bool, optb: int, statb: int, opt: int,
                 stat: int)
    requires level == 0 ==> optb == statb == storedLen + 5
    requires level > 0 ==> statb == (stat + 10) / 8 && optb == if (opt + 10) / 8 < statb then (opt + 10) / 8 else statb
    ensures forall b: Block ::
      ((b.StoredBlock? <==> buf.Some? && storedLen + 4 <= optb)
        && (b.FixedBlock? <==> !b.StoredBlock? && (fixed || statb == optb)))
      ==> Chosen(b, buf, storedLen, level, fixed, opt, stat)
  {
  }

  lemma HoldingBuf(tb: Tables, b: Block, buf: Option<seq<byte>>, ts: seq<Token>, last: bool, p: nat, opt: int,
                   stat: int)
    requires b.StoredBlock? ==> buf == Some(b.data) && BlockOk(tb, b)
    requires !b.StoredBlock? ==> Holding(tb, b, None, ts, last, p, opt, stat)
    ensures Holding(tb, b, buf, ts, last, p, opt, stat) && BlockOk(tb, b)
  {
    hide BlockOk, BlockBits;
  }

  method SendCompressed(w: Writer, tb: Tables, slFc: seq<nat>, slDl: seq<nat>, sdFc: seq<nat>, sdDl: seq<nat>,
                        ltree: Tree, dtree: Tree, blTree: Tree, dBuf: array<nat>, lBuf: array<byte>, lastLit: nat,
                        last: bool, fixed: bool, m: nat, optLenb: int, staticLenb: int,
                        ghost ts: seq<Token>, ghost c: BlockCodes, ghost opt: int, ghost stat: int)
    returns (ok: bool, ghost b: Block)
    requires w.Valid() && TreeOf(slFc, slDl, FixedLens(), 286) && TreeOf(sdFc, sdDl, FixedDistLens(), 30)
    requires lastLit <= dBuf.Length && lastLit <= lBuf.Length && lBuf != w.pendingBuf
    requires ts == TokensOf(dBuf[..lastLit], lBuf[..lastLit]) && w.Room(31 * |ts| + 64)
    requires staticLenb == (stat + 10) / 8
    requires optLenb == if (opt + 10) / 8 < staticLenb then (opt + 10) / 8 else staticLenb
    requires TreesReady(tb, ts, c, m, ltree, dtree, blTree, opt, stat)
    modifies w, w.pendingBuf
    ensures w.Valid() && !b.StoredBlock? && (b.FixedBlock? <==> fixed || staticLenb == optLenb)
    ensures b.DynamicBlock? ==> b.codes == c
    ensures Holding(tb, b, None, ts, last, old(|w.Stream()|), opt, stat) && BlockOk(tb, b) && Cheaper(tb, b)
    ensures old(w.InPairs()) ==> (ok <==> BlockKeepsUp(tb, b, old(|w.Stream()|), dBuf.Length))
    ensures ok ==> w.Room(0) && w.Stream() == old(w.Stream()) + BlockBits(tb, b, last, old(|w.Stream()|))
  {
    hide TablesOk, CodesOf, w.Valid, BlockBits, BlockOk, TreesReady, TreeOf, Pow2, AllTokenBits, CodesOk, AllCoded,
      w.InPairs, CodesFor;
    CostBounds(tb, ts, c, m, ltree, dtree, blTree, opt, stat);
    if fixed || staticLenb == optLenb {
      b := FixedBlock(ts);
      ok := SendFixed(w, tb, slFc, slDl, sdFc, sdDl, dBuf, lBuf, lastLit, ts, last);
    } else {
      DynamicRoom(|ts|, optLenb, staticLenb, opt, stat);
      b := DynamicBlock(ts, c);
      ok := SendDynamic(w, tb, ltree, dtree, blTree, m, dBuf, lBuf, lastLit, ts, c, last, opt, stat);
    }
  }

  lemma {:induction false} FixedBound(tb: Tables, ts: seq<Token>)
    requires AllCoded(tb, FixedLens(), FixedDistLens(), ts)
    ensures |AllTokenBits(tb, FixedLens(), FixedDistLens(), ts)| <= 31 * |ts|
  {
    hide TablesOk, TokenBits, Coded;
    if ts != [] {
      FixedBound(tb, ts[1..]);
      TokenBound(tb, ts[0]);
    }
  }

  lemma TokenBound(tb: Tables, t: Token)
    requires TablesOk(tb) && Coded(tb, FixedLens(), FixedDistLens(), t)
    ensures |TokenBits(tb, FixedLens(), FixedDistLens(), t)| <= 31
  {
    hide TokenBits, TablesOk, LitSym, DistSym, FixedLens, FixedDistLens, Coded;
    CodedFacts(tb, FixedLens(), FixedDistLens(), t);
    TokenCost(tb, FixedLens(), FixedDistLens(), t);
    FixedMax();
  }

  lemma FixedMax()
    ensures forall x :: 0 <= x < 286 ==> FixedLens()[x] <= if x < 257 then 9 else 8
    ensures forall x :: 0 <= x < 30 ==> FixedDistLens()[x] == 5
  {
  }

  ghost predicate TreesReady(tb: Tables, ts: seq<Token>, c: BlockCodes, m: nat, ltree: Tree, dtree: Tree,
                             blTree: Tree, opt: int, stat: int)
    reads ltree, dtree, blTree, ltree.fc, ltree.dl, dtree.fc, dtree.dl, blTree.fc, blTree.dl
  {
    TreesFor(tb, ts, c, m, ltree.fc[..], ltree.dl[..], ltree.maxCode, dtree.fc[..], dtree.dl[..], dtree.maxCode,
      blTree.fc[..], blTree.dl[..], opt, stat)
  }

  lemma CostBounds(tb: Tables, ts: seq<Token>, c: BlockCodes, m: nat, ltree: Tree, dtree: Tree, blTree: Tree,
                   opt: int, stat: int)
    requires TreesReady(tb, ts, c, m, ltree, dtree, blTree, opt, stat)
    ensures 0 <= opt && 0 <= stat <= 31 * |ts| + 7
    ensures TablesOk(tb) && AllCoded(tb, FixedLens(), FixedDistLens(), ts) && AllCoded(tb, c.ll, c.dl, ts) && CodesOk(c)
    ensures CodesFor(tb, ts, c)
    ensures stat == |BlockBody(tb, FixedLens(), FixedDistLens(), ts)|
    ensures opt == |HeaderBits(c)| + |BlockBody(tb, c.ll, c.dl, ts)|
  {
    hide TablesOk, AllTokenBits, Codeword, HeaderBits, CodesOk, CodesOf, CodesFor;
    FixedBound(tb, ts);
    assert FixedLens()[END_BLOCK] == 7;
  }

  lemma HeadBits(last: bool)
    ensures (if last then 1 else 0) < Pow2(3) && (if last then 3 else 2) < Pow2(3) && (if last then 5 else 4) < Pow2(3)
  {
    assert Pow2(3) == 8;
  }

  method SendStored(w: Writer, ghost tb: Tables, data: seq<byte>, last: bool)
    requires w.Valid() && TablesOk(tb) && |data| < 65536 && w.RoomBytes(3, 4 + |data|)
    modifies w, w.pendingBuf
    ensures w.Valid() && BlockOk(tb, StoredBlock(data)) && w.Room(0)
    ensures w.Stream() == old(w.Stream()) + BlockBits(tb, StoredBlock(data), last, old(|w.Stream()|))
  {
    hide TablesOk, ToBits, BytesToBits, Zeros, Padding, w.Valid, w.Behind, Pow2, AllCoded, HeaderBits, BlockBody;
    HeadBits(last);
    w.SendBits(if last then 1 else 0, 3);              // (STORED_BLOCK << 1) + last
    w.CopyBlock(data, true);
  }

  method SendFixed(w: Writer, tb: Tables, slFc: seq<nat>, slDl: seq<nat>, sdFc: seq<nat>, sdDl: seq<nat>,
                   dBuf: array<nat>, lBuf: array<byte>, lastLit: nat, ghost ts: seq<Token>, last: bool)
    returns (ok: bool)
    requires w.Valid() && TreeOf(slFc, slDl, FixedLens(), 286) && TreeOf(sdFc, sdDl, FixedDistLens(), 30)
    requires lastLit <= dBuf.Length && lastLit <= lBuf.Length && lBuf != w.pendingBuf
    requires ts == TokensOf(dBuf[..lastLit], lBuf[..lastLit]) && AllCoded(tb, FixedLens(), FixedDistLens(), ts)
    requires w.Room(3 + |BlockBody(tb, FixedLens(), FixedDistLens(), ts)|)
    modifies w, w.pendingBuf
    ensures w.Valid() && BlockOk(tb, FixedBlock(ts))
    ensures old(w.InPairs()) ==> (ok <==> BlockKeepsUp(tb, FixedBlock(ts), old(|w.Stream()|), dBuf.Length))
    ensures |BlockBits(tb, FixedBlock(ts), last, old(|w.Stream()|))|
      == 3 + |BlockBody(tb, FixedLens(), FixedDistLens(), ts)|
    ensures ok ==> w.Room(0) && w.Stream() == old(w.Stream()) + BlockBits(tb, FixedBlock(ts), last, old(|w.Stream()|))
  {
    hide TablesOk, ToBits, BlockBody, AllCoded, w.Valid, w.Behind, Pow2, CodesOf, FixedLens, FixedDistLens,
      BlockKeepsUp, KeepsUp, TreeOf, w.InPairs;
    ghost var p := |w.Stream()|;
    FixedKeepsUp(tb, ts, p, dBuf.Length);
    HeadBits(last);
    FixedEnd();
    AllCodedTables(tb, ts);
    w.SendBits(if last then 3 else 2, 3);              // (STATIC_TREES << 1) + last
    ok := CompressBlock(w, tb, slFc, slDl, sdFc, sdDl, dBuf, lBuf, dBuf.Length, lastLit, FixedLens(),
      FixedDistLens(), ts);
  }

  lemma FixedKeepsUp(tb: Tables, ts: seq<Token>, p: nat, lit: nat)
    requires AllCoded(tb, FixedLens(), FixedDistLens(), ts)
    ensures BlockOk(tb, FixedBlock(ts))
    ensures BlockKeepsUp(tb, FixedBlock(ts), p, lit) <==> KeepsUp(tb, FixedLens(), FixedDistLens(), ts, p + 3, lit)
  {
    hide TablesOk, AllCoded, KeepsUp, FixedLens, FixedDistLens;
    FixedEnd();
    AllCodedTables(tb, ts);
  }

  lemma FixedEnd()
    ensures |FixedLens()| == 288 && FixedLens()[END_BLOCK] == 7
  {
  }

  lemma AllCodedTables(tb: Tables, ts: seq<Token>)
    ensures forall ll, dl :: AllCoded(tb, ll, dl, ts) ==> TablesOk(tb)
  {
    hide TablesOk;
  }

  method SendDynamic(w: Writer, tb: Tables, ltree: Tree, dtree: Tree, blTree: Tree, m: nat, dBuf: array<nat>,
                     lBuf: array<byte>, lastLit: nat, ghost ts: seq<Token>, ghost c: BlockCodes, last: bool,
                     ghost opt: int, ghost stat: int)
    returns (ok: bool)
    requires w.Valid() && lastLit <= dBuf.Length && lastLit <= lBuf.Length && lBuf != w.pendingBuf
    requires ts == TokensOf(dBuf[..lastLit], lBuf[..lastLit])
    requires TreesReady(tb, ts, c, m, ltree, dtree, blTree, opt, stat)
    requires opt >= 0 && w.Room(3 + opt)
    modifies w, w.pendingBuf
    ensures w.Valid() && BlockOk(tb, DynamicBlock(ts, c))
    ensures old(w.InPairs()) ==> (ok <==> BlockKeepsUp(tb, DynamicBlock(ts, c), old(|w.Stream()|), dBuf.Length))
    ensures |BlockBits(tb, DynamicBlock(ts, c), last, old(|w.Stream()|))| == 3 + opt
    ensures ok ==>
      w.Room(0) && w.Stream() == old(w.Stream()) + BlockBits(tb, DynamicBlock(ts, c), last, old(|w.Stream()|))
  {
    hide TablesOk, ToBits, BlockBody, AllCoded, w.Valid, w.Behind, Pow2, CodesOf, HeaderBits, CodesOk, BlockKeepsUp,
      KeepsUp, FixedLens, FixedDistLens, w.InPairs, CodesFor;
    ghost var p := |w.Stream()|;
    HeadBits(last);
    AllCodedTables(tb, ts);
    DynamicFacts(c);
    DynamicKeepsUp(tb, ts, c, p, dBuf.Length);
    w.SendBits(if last then 5 else 4, 3);              // (DYN_TREES << 1) + last
    SendAllTrees(w, ltree.dl, ltree.maxCode + 1, dtree.dl, dtree.maxCode + 1, blTree.fc[..], blTree.dl[..], m + 1, c);
    ok := CompressBlock(w, tb, ltree.fc[..], ltree.dl[..], dtree.fc[..], dtree.dl[..], dBuf, lBuf, dBuf.Length, lastLit,
      c.ll, c.dl, ts);
  }

  lemma DynamicKeepsUp(tb: Tables, ts: seq<Token>, c: BlockCodes, p: nat, lit: nat)
    requires AllCoded(tb, c.ll, c.dl, ts) && CodesOk(c)
    ensures BlockOk(tb, DynamicBlock(ts, c))
    ensures BlockKeepsUp(tb, DynamicBlock(ts, c), p, lit)
       <==> KeepsUp(tb, c.ll, c.dl, ts, p + 3 + |HeaderBits(c)|, lit)
  {
    hide TablesOk, AllCoded, KeepsUp, CodesOk, HeaderBits;
    AllCodedTables(tb, ts);
    DynamicFacts(c);
  }

  lemma DynamicFacts(c: BlockCodes)
    requires CodesOk(c)
    ensures END_BLOCK < |c.ll| <= 286 && 1 <= |c.dl| <= 30 && c.ll[END_BLOCK] > 0
  {
  }

  lemma TokensPush(d: seq<nat>, l: seq<byte>, dist: nat, lc: byte)
    requires |d| == |l|
    ensures TokensOf(d + [dist], l + [lc]) == TokensOf(d, l) + [TokenAt(dist, lc)]
  {
  }

  /** Where the frequencies of a token are. */
  lemma SymAt(tb: Tables, dist: nat, lc: byte)
    requires TablesOk(tb) && TokenOk(TokenAt(dist, lc))
    ensures dist == 0 ==> LitSym(tb, TokenAt(dist, lc)) == lc
    ensures |tb.lengthCode| == 256 && |tb.distCode| == 512
    ensures dist > 0 ==> dist <= 32768 && LitSym(tb, TokenAt(dist, lc)) == tb.lengthCode[lc] + 257 < 286
    ensures dist > 0 ==> DistSym(tb, TokenAt(dist, lc)) == DCode(tb.distCode, dist - 1) < 30
  {
    SymBounds(tb, TokenAt(dist, lc));
  }

  /** a[k]++ */
  method Bump(a: array<nat>, k: nat, ghost n: nat)
    requires k < n <= a.Length
    modifies a
    ensures a[..] == old(a[..])[k := old(a[k]) + 1] && a[..n] == old(a[..n])[k := old(a[..n])[k] + 1]
  {
    a[k] := a[k] + 1;
  }

  lemma TokensOkPush(ts: seq<Token>, t: Token)
    requires TokensOk(ts) && TokenOk(t)
    ensures TokensOk(ts + [t])
  {
  }

  method CountLit(lfc: array<nat>, tb: Tables, c: byte, ghost ts: seq<Token>)
    requires TablesOk(tb) && TokensOk(ts) && lfc.Length >= 286 && lfc[..286] == LitFreq(tb, ts)
    modifies lfc
    ensures TokensOk(ts + [Literal(c)]) && lfc[..286] == LitFreq(tb, ts + [Literal(c)])
    ensures DistFreq(tb, ts + [Literal(c)]) == DistFreq(tb, ts)
    ensures lfc[286..] == old(lfc[286..])
  {
    hide TablesOk, LitFreq, DistFreq;
    LitFreqPush(tb, ts, Literal(c));
    DistFreqPush(tb, ts, Literal(c));
    SymAt(tb, 0, c);
    Bump(lfc, c, 286);
  }

  method CountMatch(lfc: array<nat>, dfc: array<nat>, tb: Tables, dist: nat, lc: byte, ghost ts: seq<Token>)
    requires TablesOk(tb) && TokensOk(ts) && lfc.Length >= 286 && lfc[..286] == LitFreq(tb, ts) && lfc != dfc
    requires dfc.Length >= 30 && dfc[..30] == DistFreq(tb, ts) && 1 <= dist <= 32768
    modifies lfc, dfc
    ensures TokensOk(ts + [Match(lc, dist)])
    ensures lfc[..286] == LitFreq(tb, ts + [Match(lc, dist)]) && dfc[..30] == DistFreq(tb, ts + [Match(lc, dist)])
  {
    hide TablesOk, LitFreq, DistFreq, DistSym, LitSym;
    LitFreqPush(tb, ts, Match(lc, dist));
    DistFreqPush(tb, ts, Match(lc, dist));
    SymAt(tb, dist, lc);
    Bump(lfc, tb.lengthCode[lc] + 257, 286);
    var d := dist - 1;
    Bump(dfc, if d < 256 then tb.distCode[d] else tb.distCode[256 + d / 128], 30);
  }

  lemma DescSizes()
    ensures LDesc().elems == 286 && DDesc().elems == 30 && BlDesc().elems == 19
    ensures LDesc().maxLength == 15 && DDesc().maxLength == 15
  {
  }

  lemma NoStream()
    ensures BytesToBits([]) == [] && ToBits(0, 0) == []
  {
  }

  method StaticTables() returns (slFc: seq<nat>, slDl: seq<nat>, sdFc: seq<nat>, sdDl: seq<nat>, t: Tables)
    ensures TablesOk(t) && TreeOf(slFc, slDl, FixedLens(), 286) && TreeOf(sdFc, sdDl, FixedDistLens(), 30)
  {
    hide TablesOk, CodesOf;
    var fc, dl := new nat[288](i => 0), new nat[288](i => 0);
    InitStaticLtree(fc, dl);
    slFc, slDl := fc[..], dl[..];
    fc, dl := new nat[30](i => 0), new nat[30](i => 0);
    InitStaticDtree(fc, dl);
    sdFc, sdDl := fc[..], dl[..];
    t := InitTables();
  }

  lemma EmptyTallies(tb: Tables)
    requires TablesOk(tb)
    ensures forall i :: 0 <= i < 286 ==> LitFreq(tb, [])[i] == if i == END_BLOCK then 1 else 0
    ensures forall i :: 0 <= i < 30 ==> DistFreq(tb, [])[i] == 0
  {
  }

  method Clear(a: array<nat>, n: nat)
    requires n <= a.Length
    modifies a
    ensures forall i :: 0 <= i < n ==> a[i] == 0
  {
    for i := 0 to n
      invariant forall j :: 0 <= j < i ==> a[j] == 0
    {
      a[i] := 0;
    }
  }
}
