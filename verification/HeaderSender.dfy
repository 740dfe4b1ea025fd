/** The header of a dynamic block (deps/libz/trees.c: build_bl_tree, send_all_trees). */
module HeaderSender {
  import opened Bits
  import opened Canonical
  import opened FixedCodes
  import opened CodeLengths
  import opened BitWriter
  import opened TreeCoding
  import opened TreeBuilder
  import opened LengthPass
  import opened BuildTrees
  import opened Tokens
  import opened Tallies
  import opened BlockTrees
  import opened BlockFormat

  /** Build the tree for the frequencies f. */
  method BuildCode(s: DeflateState, tree: Tree, ghost f: seq<nat>) returns (ghost lens: seq<nat>)
    requires s.Valid() && tree.Valid() && s.Apart(tree)
    requires f == tree.fc[..tree.desc.elems] && FreqSum(f, tree.desc.elems) <= 0x8000
    modifies s, s.heap, s.depth, s.blCount, tree.fc, tree.dl, tree`maxCode
    ensures 1 <= tree.maxCode < tree.desc.elems && lens == tree.dl[..tree.maxCode + 1]
    ensures CodeFor(f, tree.fc[..], tree.dl[..], lens, tree.desc.maxLength)
    ensures TreeCode(f, lens, tree.desc.maxLength) && tree.dl[tree.maxCode] > 0
    ensures forall x :: tree.maxCode < x < tree.desc.elems ==> tree.dl[x] == 0
    ensures s.optLen == old(s.optLen)
      + SymbolBits(f, tree.dl[..], ExtraBits(tree.desc, tree.dl.Length), tree.desc.elems)
    ensures s.staticLen == old(s.staticLen) + StaticSymbolBits(tree.desc, f, tree.dl.Length)
  {
    hide TreeResult, CodeFor, TreeCode, SymbolBits, StaticSymbolBits, FreqSum, DescOk, ExtraBits;
    ghost var n := tree.desc.elems;
    TreeSize(tree);
    FreqSumPrefix(tree.fc[..], n);
    assert tree.fc[..][..n] == f;
    ghost var w, leaves, forced, overflow, height := BuildTree(s, tree);
    ResultCode(f, w, leaves, forced, tree.fc[..], tree.dl[..], n, tree.maxCode, tree.desc.maxLength, overflow);
    ResultTree(f, w, leaves, forced, tree.fc[..], tree.dl[..], n, tree.maxCode, tree.desc.maxLength, overflow);
    lens := tree.dl[..tree.maxCode + 1];
  }

  lemma TreeSize(tree: Tree)
    requires tree.Valid()
    ensures tree.desc.elems < tree.fc.Length == tree.dl.Length && DescOk(tree.desc)
  {
  }

  // ---- build_bl_tree ----

  /** Repeats and zeros alone give only zeros. */
  lemma {:induction false} OnlyZeros(out: seq<nat>, items: seq<Item>)
    requires forall i :: 0 <= i < |out| ==> out[i] == 0
    requires forall i :: 0 <= i < |items| ==> items[i].sym == 0 || items[i].sym >= 16
    requires ApplyAll(out, items).Some?
    ensures forall i :: 0 <= i < |ApplyAll(out, items).value| ==> ApplyAll(out, items).value[i] == 0
    decreases |items|
  {
    if items != [] {
      var r := Apply(out, items[0]);
      ApplyZeros(out, items[0]);
      OnlyZeros(r.value, items[1..]);
    }
  }

  lemma ApplyZeros(out: seq<nat>, item: Item)
    requires (forall i :: 0 <= i < |out| ==> out[i] == 0) && (item.sym == 0 || item.sym >= 16) && Apply(out, item).Some?
    ensures forall i :: 0 <= i < |Apply(out, item).value| ==> Apply(out, item).value[i] == 0
  {
    RepeatAll(0, 3 + item.arg);
    RepeatAll(0, 11 + item.arg);
  }

  lemma {:induction false} RepeatAll(x: nat, n: nat)
    ensures forall i :: 0 <= i < n ==> Repeat(x, n)[i] == x
  {
    if n > 0 { RepeatAll(x, n - 1); }
  }

  /** A code with some length uses a symbol that is sent as itself. */
  lemma SomeLength(lens: seq<nat>, x: nat) returns (i: nat)
    requires LengthsBelow16(lens) && x < |lens| && lens[x] > 0
    ensures i < |Items(lens)| && 1 <= Items(lens)[i].sym < 16
  {
    RoundTrip([], lens);
    assert [] + lens == lens;
    if j :| 0 <= j < |Items(lens)| && 1 <= Items(lens)[j].sym < 16 {
      i := j;
    } else {
      OnlyZeros([], Items(lens));
      assert false;
    }
  }

  /** Where a length stands in bl_order: the repeat codes come first. */
  lemma OrderOf(x: nat) returns (r: nat)
    requires 1 <= x < 16
    ensures 3 <= r < 19 && BlOrder(r) == x
  {
    r := if x == 8 then 4 else if x < 8 then 19 - 2 * x else 2 * x - 12;
  }

  /** The index in bl_order of the last code length code of non zero length. */
  method LastLength(dl: array<nat>, ghost r0: nat) returns (m: nat)
    requires dl.Length >= 19 && 3 <= r0 < 19 && dl[BlOrder(r0)] != 0
    ensures 3 <= m < 19 && dl[BlOrder(m)] != 0 && forall r :: m < r < 19 ==> dl[BlOrder(r)] == 0
  {
    hide BlOrder;
    m := 18;
    while m >= 3
      invariant r0 <= m < 19 && forall r :: m < r < 19 ==> dl[BlOrder(r)] == 0
    {
      if dl[BlOrder(m)] != 0 { break; }
      m := m - 1;
    }
  }

  /** The bl_tree holds the code for the items of both trees. */
  lemma CodesFrom(ll: seq<nat>, dl: seq<nat>, blFc: seq<nat>, blDl: seq<nat>, f: seq<nat>, lens: seq<nat>, m: nat)
    requires 257 <= |ll| <= 286 && 1 <= |dl| <= 30 && Complete(ll) && Complete(dl) && ll[END_BLOCK] > 0
    requires |f| == 19 && forall x :: 0 <= x < 19 ==> f[x] == ItemCount(Items(ll), x) + ItemCount(Items(dl), x)
    requires |blFc| == |blDl| >= 19 && CodeFor(f, blFc, blDl, lens, 7) && forall x :: |lens| <= x < 19 ==> blDl[x] == 0
    requires 3 <= m < 19 && forall r :: m < r < 19 ==> blDl[BlOrder(r)] == 0
    ensures CodesOk(BlockCodes(ll, dl, blDl[..19], m + 1)) && CodesOf(blFc, blDl, blDl[..19])
  {
    hide ItemsFrom, RevCode, ItemCount, BlOrder;
    var bl: seq<nat> := blDl[..19];
    assert bl[..|lens|] == lens;
    Padded(bl, |lens|);
    BelowFrom(ll);
    BelowFrom(dl);
    ItemsFromOk(ll, 0, -1, 0);
    ItemsFromOk(dl, 0, -1, 0);
    assert Covers(bl, f) by {
      forall x | 0 <= x < |f| && f[x] > 0 ensures x < |bl| && bl[x] > 0 { assert bl[x] == lens[x]; }
    }
    ItemsSendable(bl, Items(ll), f);
    ItemsSendable(bl, Items(dl), f);
    SevenBits(bl, lens);
    forall x | 0 <= x < 19 && bl[x] > 0 ensures blFc[x] == RevCode(bl, x) { assert bl[x] == lens[x]; }
  }

  lemma BelowFrom(lens: seq<nat>)
    requires Complete(lens)
    ensures LengthsBelow16(lens)
  {
  }

  lemma SevenBits(bl: seq<nat>, lens: seq<nat>)
    requires |lens| <= |bl| && bl[..|lens|] == lens && Bounded(lens, 7) && forall x :: |lens| <= x < |bl| ==> bl[x] == 0
    ensures Bounded(bl, 7) && Bounded(bl, MAXBITS)
  {
    forall x | 0 <= x < |bl| ensures bl[x] <= 7 { if x < |lens| { assert bl[x] == lens[x]; } }
  }

  /** Scan both trees; the guards go behind their last lengths. */
  method ScanTrees(ltree: Tree, dtree: Tree, blTree: Tree, ghost ll: seq<nat>, ghost dl: seq<nat>)
    returns (ghost f: seq<nat>)
    requires ltree.Valid() && dtree.Valid() && blTree.Valid() && blTree.desc.elems == 19
    requires ltree.dl != blTree.fc && dtree.dl != blTree.fc && ltree.dl != dtree.dl
    requires 0 <= ltree.maxCode < ltree.desc.elems && 0 <= dtree.maxCode < dtree.desc.elems
    requires ll == ltree.dl[..ltree.maxCode + 1] && dl == dtree.dl[..dtree.maxCode + 1]
    requires LengthsBelow16(ll) && LengthsBelow16(dl) && forall x :: 0 <= x < 19 ==> blTree.fc[x] == 0
    modifies ltree.dl, dtree.dl, blTree.fc
    ensures ltree.dl[..] == old(ltree.dl[..])[ltree.maxCode + 1 := GUARD]
    ensures dtree.dl[..] == old(dtree.dl[..])[dtree.maxCode + 1 := GUARD]
    ensures f == blTree.fc[..19] && forall x :: 0 <= x < 19 ==>
      f[x] == ItemCount(Items(ll), x) + ItemCount(Items(dl), x)
  {
    hide ItemsFrom, LengthsBelow16, ItemCount;
    assert ItemCountsZero() by { ItemCountsNone(); }
    ScanTree(ltree.dl, ltree.maxCode, blTree.fc);
    assert dtree.dl[..dtree.maxCode + 1] == dl;
    ScanTree(dtree.dl, dtree.maxCode, blTree.fc);
    f := blTree.fc[..19];
  }

  ghost predicate ItemCountsZero() { forall x: nat :: ItemCount([], x) == 0 }

  lemma ItemCountsNone()
    ensures ItemCountsZero()
  {
  }

  /** build_bl_tree; the result is max_blindex. */
  method BuildBlTree(s: DeflateState, ltree: Tree, dtree: Tree, blTree: Tree, ghost ll: seq<nat>, ghost dl: seq<nat>)
    returns (m: nat)
    requires s.Valid() && s.Apart(ltree) && s.Apart(dtree) && s.Apart(blTree)
    requires ltree.Valid() && dtree.Valid() && blTree.Valid() && blTree.desc == BlDesc()
    requires ltree != blTree && dtree != blTree && ltree.dl != dtree.dl
    requires ltree.dl != blTree.fc && dtree.dl != blTree.fc && ltree.dl != blTree.dl && dtree.dl != blTree.dl
    requires 256 <= ltree.maxCode < 286 <= ltree.desc.elems && 0 <= dtree.maxCode < 30 <= dtree.desc.elems
    requires ll == ltree.dl[..ltree.maxCode + 1] && dl == dtree.dl[..dtree.maxCode + 1]
    requires Complete(ll) && Complete(dl) && ll[END_BLOCK] > 0 && forall x :: 0 <= x < 19 ==> blTree.fc[x] == 0
    modifies s, s.heap, s.depth, s.blCount, ltree.dl, dtree.dl, blTree.fc, blTree.dl, blTree`maxCode
    ensures ltree.dl[..] == old(ltree.dl[..])[ltree.maxCode + 1 := GUARD]
    ensures dtree.dl[..] == old(dtree.dl[..])[dtree.maxCode + 1 := GUARD]
    ensures CodesOk(BlockCodes(ll, dl, blTree.dl[..19], m + 1))
    ensures CodesOf(blTree.fc[..], blTree.dl[..], blTree.dl[..19])
    ensures TreeCode(ItemFreq(Items(ll) + Items(dl)), blTree.dl[..19], 7) && blTree.dl[BlOrder(m)] > 0
    ensures s.optLen == old(s.optLen) + |HeaderBits(BlockCodes(ll, dl, blTree.dl[..19], m + 1))|
    ensures s.staticLen == old(s.staticLen)
  {
    hide ItemsFrom, ItemCount, BlOrder, Complete, CodeFor, CodesOf, CodesOk, SymbolBits, ExtraBits, BlDesc, DescOk,
      FreqSum, HeaderBits, TreeCode;
    BelowFrom(ll);
    BelowFrom(dl);
    BlSizes();
    ghost var f := ScanTrees(ltree, dtree, blTree, ll, dl);
    ItemsFromOk(ll, 0, -1, 0);
    ItemsFromOk(dl, 0, -1, 0);
    SmallSum(ll, dl, f);
    ghost var l1, l2 := ltree.dl[..], dtree.dl[..];
    ghost var lens := BuildCode(s, blTree, f);
    ghost var i := SomeLength(ll, END_BLOCK);
    ghost var r := SomeOrder(ll, dl, f, lens, blTree.fc[..], blTree.dl[..], i);
    m := LastLength(blTree.dl, r);
    CodesFrom(ll, dl, blTree.fc[..], blTree.dl[..], f, lens, m);
    TreeCodeFilled(f, lens, blTree.dl[..19], 7);
    HeaderCost(BlockCodes(ll, dl, blTree.dl[..19], m + 1), blTree.dl[..], f, blTree.dl.Length);
    s.optLen := s.optLen + 3 * (m + 1) + 5 + 5 + 4;
  }

  lemma BlSizes()
    ensures BlDesc().elems == 19 && BlDesc().maxLength == 7 && BlDesc().stree == []
  {
  }

  lemma SmallSum(ll: seq<nat>, dl: seq<nat>, f: seq<nat>)
    requires LengthsBelow16(ll) && LengthsBelow16(dl) && |ll| <= 286 && |dl| <= 30
    requires |f| == 19 && forall x :: 0 <= x < 19 ==> f[x] == ItemCount(Items(ll), x) + ItemCount(Items(dl), x)
    ensures FreqSum(f, 19) <= 316 && f == ItemFreq(Items(ll) + Items(dl))
  {
    hide ItemsFrom, ItemCount, FreqSum;
    ItemsFromOk(ll, 0, -1, 0);
    ItemsFromOk(dl, 0, -1, 0);
    var all := Items(ll) + Items(dl);
    forall i | 0 <= i < 19 ensures ItemFreq(all)[i] == f[i] { CountConcat(Items(ll), Items(dl), i); }
    assert ItemFreq(all) == f;
    ItemFreqSum(all);
  }

  lemma SomeOrder(ll: seq<nat>, dl: seq<nat>, f: seq<nat>, lens: seq<nat>, blFc: seq<nat>, blDl: seq<nat>, i: nat)
    returns (r: nat)
    requires |f| == 19 && forall x :: 0 <= x < 19 ==> f[x] == ItemCount(Items(ll), x) + ItemCount(Items(dl), x)
    requires CodeFor(f, blFc, blDl, lens, 7) && i < |Items(ll)| && 1 <= Items(ll)[i].sym < 16
    ensures 3 <= r < 19 && BlOrder(r) < |blDl| && blDl[BlOrder(r)] != 0
  {
    hide ItemsFrom, ItemCount, BlOrder, Complete, CodesOf;
    var x := Items(ll)[i].sym;
    ItemOccurs(Items(ll), i);
    r := OrderOf(x);
    assert f[x] > 0;
    assert blDl[..|lens|][x] == blDl[x];
  }

  lemma HeaderCost(c: BlockCodes, l: seq<nat>, f: seq<nat>, n: nat)
    requires CodesOk(c) && |l| >= 19 && c.bl == l[..19] && n >= 19
    requires |f| == 19 && forall x :: 0 <= x < 19 ==> f[x] == ItemCount(Items(c.ll), x) + ItemCount(Items(c.dl), x)
    requires DescOk(BlDesc())
    ensures |HeaderBits(c)| == SymbolBits(f, l, ExtraBits(BlDesc(), n), 19) + 3 * c.blCodes + 14
  {
    hide ItemsFrom, ItemCount, BlOrder, Complete, CodesOf, SymbolBits, AllItemBits, DescOk;
    assert LengthsOf(l, c.bl, 19);
    TreesCost(c.ll, c.dl, c.bl, l, ExtraBits(BlDesc(), n), f);
  }

  // ---- send_all_trees ----

  method SendLengths(w: Writer, blDl: seq<nat>, blCodes: nat, ghost bl: seq<nat>)
    requires w.Valid() && |blDl| >= 19 && bl == blDl[..19] && Bounded(bl, 7) && blCodes <= 19 && w.Room(3 * blCodes)
    modifies w, w.pendingBuf
    ensures w.Valid() && w.Stream() == old(w.Stream()) + LengthBits(bl, blCodes)
    ensures old(w.InPairs()) ==> w.InPairs()
  {
    hide LengthBits, ToBits, w.Valid, BlOrder, w.InPairs;
    ghost var s0 := w.Stream();
    LengthBitsNone(bl);
    for rank := 0 to blCodes
      invariant w.Valid() && w.Stream() == s0 + LengthBits(bl, rank) && w.Room(3 * (blCodes - rank))
      invariant old(w.InPairs()) ==> w.InPairs()
    {
      LengthBitsStep(bl, rank);
      w.SendBits(blDl[BlOrder(rank)], 3);
    }
  }

  lemma LengthBitsNone(bl: seq<nat>)
    requires |bl| == 19
    ensures LengthBits(bl, 0) == [] && Pow2(3) == 8
  {
  }

  lemma LengthBitsStep(bl: seq<nat>, n: nat)
    requires |bl| == 19 && n < 19
    ensures LengthBits(bl, n + 1) == LengthBits(bl, n) + ToBits(bl[BlOrder(n)], 3)
  {
  }

  /** The counts fit their fields. */
  lemma CountsFit(c: BlockCodes)
    requires CodesOk(c)
    ensures |c.ll| - 257 < Pow2(5) && |c.dl| - 1 < Pow2(5) && c.blCodes - 4 < Pow2(4)
    ensures LengthsBelow16(c.ll) && LengthsBelow16(c.dl)
  {
    assert Pow2(4) == 16 && Pow2(5) == 32;
    BelowFrom(c.ll);
    BelowFrom(c.dl);
  }

  method SendCounts(w: Writer, lcodes: nat, dcodes: nat, blDl: seq<nat>, blCodes: nat, ghost c: BlockCodes)
    requires w.Valid() && CodesOk(c) && w.Room(|CodeCounts(c)|) && c.blCodes == blCodes && lcodes == |c.ll|
    requires dcodes == |c.dl|
    requires |blDl| >= 19 && c.bl == blDl[..19]
    modifies w, w.pendingBuf
    ensures w.Valid() && w.Stream() == old(w.Stream()) + CodeCounts(c)
    ensures old(w.InPairs()) ==> w.InPairs()
  {
    hide ItemsFrom, Complete, AllItemBits, Sendable, ToBits, LengthBits, w.Valid, w.Behind, CodesOf, CodesOk, BlOrder,
      Pow2, CodeCounts, w.InPairs;
    TreeSizes(c);
    CountsFit(c);
    ghost var s0 := w.Stream();
    SendSizes(w, lcodes - 257, dcodes - 1, blCodes - 4);
    SendLengths(w, blDl, blCodes, c.bl);
    CountsAfter(s0, c);
  }

  method SendSizes(w: Writer, lcodes: nat, dcodes: nat, blCodes: nat)
    requires w.Valid() && lcodes < Pow2(5) && dcodes < Pow2(5) && blCodes < Pow2(4) && w.Room(14)
    modifies w, w.pendingBuf
    ensures w.Valid()
    ensures w.Stream() == old(w.Stream()) + (ToBits(lcodes, 5) + ToBits(dcodes, 5) + ToBits(blCodes, 4))
    ensures old(w.InPairs()) ==> w.InPairs()
  {
    hide ToBits, w.Valid, w.Behind, Pow2, w.InPairs;
    w.SendBits(lcodes, 5);
    w.SendBits(dcodes, 5);
    w.SendBits(blCodes, 4);
  }

  lemma TreeSizes(c: BlockCodes)
    requires CodesOk(c)
    ensures 257 <= |c.ll| <= 286 && 1 <= |c.dl| <= 30 && 4 <= c.blCodes <= 19 && |c.bl| == 19 && Bounded(c.bl, 7)
  {
  }

  lemma CountsAfter(s0: seq<bool>, c: BlockCodes)
    requires CodesOk(c)
    ensures s0 + (ToBits(|c.ll| - 257, 5) + ToBits(|c.dl| - 1, 5) + ToBits(c.blCodes - 4, 4))
      + LengthBits(c.bl, c.blCodes) == s0 + CodeCounts(c)
  {
    hide ToBits, LengthBits, CodesOk;
  }

  method SendAllTrees(w: Writer, ltree: array<nat>, lcodes: nat, dtree: array<nat>, dcodes: nat, blFc: seq<nat>,
                      blDl: seq<nat>, blCodes: nat, ghost c: BlockCodes)
    requires w.Valid() && CodesOk(c) && w.Room(|HeaderBits(c)|) && c.blCodes == blCodes
    requires lcodes == |c.ll| < ltree.Length && ltree[..lcodes] == c.ll && ltree[lcodes] == GUARD
    requires dcodes == |c.dl| < dtree.Length && dtree[..dcodes] == c.dl && dtree[dcodes] == GUARD
    requires |blFc| == |blDl| >= 19 && c.bl == blDl[..19] && CodesOf(blFc, blDl, c.bl)
    modifies w, w.pendingBuf
    ensures w.Valid() && w.Stream() == old(w.Stream()) + HeaderBits(c)
    ensures old(w.InPairs()) ==> w.InPairs()
  {
    hide ItemsFrom, Complete, AllItemBits, Sendable, w.Valid, w.Behind, CodesOf, BlOrder, CodeCounts, ItemBits,
      ToBits, w.InPairs;
    CountsFit(c);
    SendCounts(w, lcodes, dcodes, blDl, blCodes, c);
    SendTree(w, ltree, lcodes - 1, blFc, blDl, c.bl);
    SendTree(w, dtree, dcodes - 1, blFc, blDl, c.bl);
  }

  // ---- The trees of a block ----

  lemma ExtrasOf(n: nat)
    requires n >= 286 && DescOk(LDesc()) && DescOk(DDesc())
    ensures LitExtra(ExtraBits(LDesc(), n)) && DistExtras(ExtraBits(DDesc(), n))
    ensures LDesc().stree == FixedLens() && DDesc().stree == FixedDistLens()[..30]
  {
  }

  /** Every token can be sent with the fixed codes. */
  lemma FixedCoded(tb: Tables, ts: seq<Token>)
    requires TablesOk(tb) && TokensOk(ts)
    ensures AllCoded(tb, FixedLens(), FixedDistLens(), ts) && FixedLens()[END_BLOCK] > 0
  {
    hide TablesOk, LitSym, DistSym;
    forall i | 0 <= i < |ts|
      ensures Coded(tb, FixedLens(), FixedDistLens(), ts[i])
    {
      assert TokenOk(ts[i]);
      SymBounds(tb, ts[i]);
    }
  }

  /** The static cost counted by the trees is what the fixed codes take. */
  lemma FixedCost(tb: Tables, ts: seq<Token>, n: nat, m: nat)
    requires TablesOk(tb) && TokensOk(ts) && n >= 286 && m >= 30 && DescOk(LDesc()) && DescOk(DDesc())
    ensures AllCoded(tb, FixedLens(), FixedDistLens(), ts)
    ensures StaticSymbolBits(LDesc(), LitFreq(tb, ts), n) + StaticSymbolBits(DDesc(), DistFreq(tb, ts), m)
         == |BlockBody(tb, FixedLens(), FixedDistLens(), ts)|
  {
    hide TablesOk, LitFreq, DistFreq, SymbolBits, AllTokenBits, ExtraBits, DescOk;
    FixedCoded(tb, ts);
    ExtrasOf(n);
    ExtraPrefix(n, m);
    var d: seq<nat> := FixedDistLens()[..30];
    assert LengthsOf(FixedLens(), FixedLens(), 286) && LengthsOf(d, FixedDistLens(), 30);
    TokensCost(tb, FixedLens(), FixedDistLens(), ts, FixedLens(), d, ExtraBits(LDesc(), n), ExtraBits(DDesc(), m));
  }

  lemma ExtraPrefix(n: nat, m: nat)
    requires DescOk(LDesc()) && DescOk(DDesc()) && n >= 286 && m >= 30
    ensures DistExtras(ExtraBits(DDesc(), m))
    ensures LDesc().elems == 286 && DDesc().elems == 30 && LDesc().stree != [] && DDesc().stree != []
  {
  }

  lemma DynamicCost(tb: Tables, ts: seq<Token>, ll: seq<nat>, dl: seq<nat>, l: seq<nat>, d: seq<nat>, n: nat, m: nat)
    requires AllCoded(tb, ll, dl, ts) && TokensOk(ts) && END_BLOCK < |ll| <= |l| && |dl| <= |d| && l[..|ll|] == ll
    requires d[..|dl|] == dl
    requires n >= 286 && m >= 30 && |l| >= 286 && |d| >= 30 && DescOk(LDesc()) && DescOk(DDesc())
    ensures SymbolBits(LitFreq(tb, ts), l, ExtraBits(LDesc(), n), 286)
      + SymbolBits(DistFreq(tb, ts), d, ExtraBits(DDesc(), m), 30)
         == |BlockBody(tb, ll, dl, ts)|
  {
    hide TablesOk, LitFreq, DistFreq, SymbolBits, AllTokenBits, ExtraBits, DescOk;
    ExtrasOf(n);
    ExtraPrefix(n, m);
    assert forall i :: 0 <= i < |ll| ==> l[..|ll|][i] == l[i];
    assert forall i :: 0 <= i < |dl| ==> d[..|dl|][i] == d[i];
    TokensCost(tb, ll, dl, ts, l, d, ExtraBits(LDesc(), n), ExtraBits(DDesc(), m));
  }
}
