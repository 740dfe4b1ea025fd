/** What a block looks like in the stream (sections 3.2.3 to 3.2.7 of RFC 1951). */
module BlockFormat {
  import opened Bits
  import opened Canonical
  import opened FixedCodes
  import opened CodeLengths
  import opened BitWriter
  import opened TreeCoding
  import opened BuildTrees
  import opened Tokens
  import opened Tallies
  import opened BlockTrees

  /** bl_order; order in inflate. */
  const BL_ORDER: seq<nat> := [16, 17, 18, 0, 8, 7, 9, 6, 10, 5, 11, 4, 12, 3, 13, 2, 14, 1, 15]

  function BlOrder(i: nat): (x: nat)
    requires i < 19
    ensures x < 19
  {
    BL_ORDER[i]
  }

  /** The lengths of the code length code, in bl_order. */
  function LengthBits(bl: seq<nat>, n: nat): (b: seq<bool>)
    requires |bl| == 19 && n <= 19
    ensures |b| == 3 * n
  {
    if n == 0 then [] else LengthBits(bl, n - 1) + ToBits(bl[BlOrder(n - 1)], 3)
  }

  /** The codes of a dynamic block: ll and dl for the symbols, bl for their lengths. */
  datatype BlockCodes = BlockCodes(ll: seq<nat>, dl: seq<nat>, bl: seq<nat>, blCodes: nat)

  ghost predicate CodesOk(c: BlockCodes) {
    && 257 <= |c.ll| <= 286 && 1 <= |c.dl| <= 30 && |c.bl| == 19 && 4 <= c.blCodes <= 19
    && Complete(c.ll) && Complete(c.dl) && Complete(c.bl) && Bounded(c.bl, 7) && c.ll[END_BLOCK] > 0
    && Sendable(c.bl, Items(c.ll)) && Sendable(c.bl, Items(c.dl))
    && forall r :: c.blCodes <= r < 19 ==> c.bl[BlOrder(r)] == 0
  }

  /** The numbers of codes, and the code length code. */
  function CodeCounts(c: BlockCodes): (b: seq<bool>)
    requires CodesOk(c)
    ensures |b| == 14 + 3 * c.blCodes
  {
    ToBits(|c.ll| - 257, 5) + ToBits(|c.dl| - 1, 5) + ToBits(c.blCodes - 4, 4) + LengthBits(c.bl, c.blCodes)
  }

  /** The header of a dynamic block. */
  function HeaderBits(c: BlockCodes): seq<bool>
    requires CodesOk(c)
  {
    CodeCounts(c) + AllItemBits(c.bl, Items(c.ll)) + AllItemBits(c.bl, Items(c.dl))
  }

  datatype Block =
    | StoredBlock(data: seq<byte>)
    | FixedBlock(tokens: seq<Token>)
    | DynamicBlock(tokens: seq<Token>, codes: BlockCodes)

  ghost predicate BlockOk(tb: Tables, b: Block) {
    && TablesOk(tb)
    && match b
       case StoredBlock(data) => |data| < 65536
       case FixedBlock(ts) => AllCoded(tb, FixedLens(), FixedDistLens(), ts)
       case DynamicBlock(ts, c) => CodesOk(c) && AllCoded(tb, c.ll, c.dl, ts)
  }

  /** The bits of a block that starts at bit position p. */
  function BlockBits(tb: Tables, b: Block, last: bool, p: nat): seq<bool>
    requires BlockOk(tb, b)
  {
    match b
    case StoredBlock(data) =>
      ToBits(if last then 1 else 0, 3) + Zeros(Padding(p + 3)) + ToBits(|data|, 16) + ToBits(65535 - |data|, 16)
        + BytesToBits(data)
    case FixedBlock(ts) =>
      ToBits(if last then 3 else 2, 3) + BlockBody(tb, FixedLens(), FixedDistLens(), ts)
    case DynamicBlock(ts, c) =>
      ToBits(if last then 5 else 4, 3) + HeaderBits(c) + BlockBody(tb, c.ll, c.dl, ts)
  }

  // ---- Cost of the header ----

  lemma {:induction false} ItemsCost(bl: seq<nat>, items: seq<Item>, l: seq<nat>, x: seq<nat>)
    requires |bl| == 19 && ItemsOk(items) && LengthsOf(l, bl, 19)
    requires 19 <= |x| && forall i :: 0 <= i < 19 ==> x[i] == ExtraBl(i)
    ensures |AllItemBits(bl, items)| == SymbolBits(ItemFreq(items), l, x, 19)
    decreases |items|
  {
    hide SymbolBits, ItemBits, ExtraBl;
    if items == [] {
      SymbolBitsZero(ItemFreq(items), l, x, 19);
    } else {
      var a, t := items[..|items| - 1], items[|items| - 1];
      assert items == a + [t];
      assert ItemOk(t);
      ItemsCost(bl, a, l, x);
      ItemBitsConcat(bl, a, [t]);
      OneItemBits(bl, t);
      OneItemCost(bl, t);
      ItemFreqPush(a, t);
      SymbolBitsBump(ItemFreq(a), l, x, 19, t.sym);
    }
  }

  lemma OneItemCost(bl: seq<nat>, t: Item)
    requires |bl| == 19 && ItemOk(t)
    ensures |ItemBits(bl, t)| == bl[t.sym] + ExtraBl(t.sym)
  {
    hide Codeword, ToBits;
  }

  /** The cost of both trees, when f counts the items of both. */
  lemma TreesCost(ll: seq<nat>, dl: seq<nat>, bl: seq<nat>, l: seq<nat>, x: seq<nat>, f: seq<nat>)
    requires |bl| == 19 && ItemsOk(Items(ll)) && ItemsOk(Items(dl)) && LengthsOf(l, bl, 19)
    requires 19 <= |x| && forall i :: 0 <= i < 19 ==> x[i] == ExtraBl(i)
    requires |f| == 19 && forall i :: 0 <= i < 19 ==> f[i] == ItemCount(Items(ll), i) + ItemCount(Items(dl), i)
    ensures SymbolBits(f, l, x, 19) == |AllItemBits(bl, Items(ll))| + |AllItemBits(bl, Items(dl))|
    ensures FreqSum(f, 19) == |Items(ll)| + |Items(dl)|
  {
    hide SymbolBits, ItemBits, ExtraBl, ItemOk, AllItemBits, ItemCount;
    var all := Items(ll) + Items(dl);
    forall i | 0 <= i < 19 ensures ItemFreq(all)[i] == f[i] { CountConcat(Items(ll), Items(dl), i); }
    assert ItemFreq(all) == f;
    ItemsCost(bl, all, l, x);
    ItemBitsConcat(bl, Items(ll), Items(dl));
    ItemFreqSum(all);
  }
}
