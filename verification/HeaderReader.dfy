/** The decoding machine reads back block headers and stored blocks: the round
    trip of a whole block. */
module HeaderReader {
  import opened Bits
  import opened Canonical
  import opened DecodeTable
  import opened FixedCodes
  import opened CodeLengths
  import opened BitWriter
  import opened TreeCoding
  import opened Tokens
  import opened BlockFormat
  import opened Machine
  import opened BlockReader

  // ---- The code length code ----

  lemma OrderInverse(x: nat) returns (r: nat)
    requires x < 19
    ensures r < 19 && BlOrder(r) == x
  {
    r := if x >= 16 then x - 16 else if x == 0 then 3 else if x == 8 then 4 else if x < 8 then 19 - 2 * x
      else 2 * x - 12;
  }

  /** The first lengths of bl, in transmission order. */
  function Sent(bl: seq<nat>, n: nat): (l: seq<nat>)
    requires |bl| == 19 && n <= 19
    ensures |l| == n
  {
    seq(n, i requires 0 <= i < n => bl[BlOrder(i)])
  }

  lemma {:induction false} LengthOfSent(bl: seq<nat>, m: nat, x: nat, n: nat)
    requires |bl| == 19 && n <= m <= 19 && x < 19
    ensures LengthOf(Sent(bl, m), x, n) == bl[x] || LengthOf(Sent(bl, m), x, n) == 0
    ensures (exists r :: 0 <= r < n && BlOrder(r) == x) ==> LengthOf(Sent(bl, m), x, n) == bl[x]
  {
    hide BlOrder;
    if n > 0 { LengthOfSent(bl, m, x, n - 1); }
  }

  lemma OrderedSent(bl: seq<nat>, n: nat)
    requires |bl| == 19 && n <= 19 && forall r :: n <= r < 19 ==> bl[BlOrder(r)] == 0
    ensures Ordered(Sent(bl, n)) == bl
  {
    hide BlOrder;
    forall x | 0 <= x < 19
      ensures Ordered(Sent(bl, n))[x] == bl[x]
    {
      LengthOfSent(bl, n, x, n);
      var r := OrderInverse(x);
      if r < n { assert BlOrder(r) == x; }
    }
  }

  ghost predicate SameRest(s: State, s': State) {
    && s'.out == s.out && s'.last == s.last && s'.wrap == s.wrap
    && s'.nlen == s.nlen && s'.ndist == s.ndist && s'.ncode == s.ncode
  }

  /** Reading the lengths of the code length code. */
  lemma {:induction false} ReadLengths(s: State, t: seq<bool>, bl: seq<nat>, n: nat) returns (s': State)
    requires s.mode == LENLENS && s.lens == [] && n <= s.ncode <= 19 && |bl| == 19 && Bounded(bl, 7)
    requires At(s.p, t, LengthBits(bl, n))
    ensures Reaches(s, t, s') && s'.mode == LENLENS && s'.lens == Sent(bl, n) && s'.p == s.p + 3 * n && SameRest(s, s')
  {
    hide Reaches, ToBits, BlOrder, Grows, At, Val;
    if n == 0 {
      ReachSelf(s, t);
      s' := s;
      assert Sent(bl, 0) == [];
    } else {
      AtSplit(s.p, t, LengthBits(bl, n - 1), ToBits(bl[BlOrder(n - 1)], 3));
      var s1 := ReadLengths(s, t, bl, n - 1);
      assert Pow2(3) == 8;
      AtVal(s1.p, t, bl[BlOrder(n - 1)], 3);
      AtEnd(s1.p, t, ToBits(bl[BlOrder(n - 1)], 3));
      s' := s1.(lens := s1.lens + [bl[BlOrder(n - 1)]], p := s1.p + 3);
      assert s'.lens == Sent(bl, n);
      assert StepIn(s1, t) == Some(s');
      ReachStep(s, t, s1, s');
    }
  }

  // ---- Code length items ----

  ghost predicate ReadingLengths(s: State, bl: seq<nat>) {
    s.mode == CODELENS && s.lcode == bl && |bl| == 19 && Fits(bl)
  }

  lemma ReadItem(s: State, t: seq<bool>, bl: seq<nat>, item: Item) returns (s': State)
    requires ReadingLengths(s, bl) && ItemOk(item) && bl[item.sym] > 0
    requires |s.lens| < s.nlen + s.ndist && Apply(s.lens, item).Some? && |Apply(s.lens, item).value| <= s.nlen + s.ndist
    requires At(s.p, t, ItemBits(bl, item))
    ensures Reaches(s, t, s') && ReadingLengths(s', bl) && SameRest(s, s')
    ensures s'.lens == Apply(s.lens, item).value && s'.p == s.p + |ItemBits(bl, item)|
  {
    hide Reaches, Codeword, Fits, Decode, Grows, ToBits, ExtraBl, Pow2, Apply, Val, At;
    var x, n := item.sym, ExtraBl(item.sym);
    AtSplit(s.p, t, Codeword(bl, x), ToBits(item.arg, n));
    AtPrefix(s.p, t, Codeword(bl, x));
    SymbolRead(CODES, bl, x, t[s.p..]);
    AtVal(s.p + bl[x], t, item.arg, n);
    AtEnd(s.p + bl[x], t, ToBits(item.arg, n));
    ShiftVal(s.p, bl[x], t, n);
    s' := s.(lens := Apply(s.lens, item).value, p := s.p + bl[x] + n);
    assert StepIn(s, t) == Some(s');
    ReachOne(s, t, s');
  }

  lemma ShiftVal(p: nat, k: nat, t: seq<bool>, n: nat)
    requires p + k + n <= |t|
    ensures Val(t[p..], k, n) == Val(t[p + k..], 0, n)
  {
    assert t[p..][k..k + n] == t[p + k..][0..n];
  }

  lemma ApplyLonger(lens: seq<nat>, item: Item)
    requires Apply(lens, item).Some?
    ensures |Apply(lens, item).value| > |lens|
  {
  }

  lemma {:induction false} ApplyAllLonger(lens: seq<nat>, items: seq<Item>)
    requires ApplyAll(lens, items).Some?
    ensures |ApplyAll(lens, items).value| >= |lens| + |items|
    decreases |items|
  {
    if items != [] {
      ApplyLonger(lens, items[0]);
      ApplyAllLonger(Apply(lens, items[0]).value, items[1..]);
    }
  }

  lemma {:induction false} ReadItems(s: State, t: seq<bool>, bl: seq<nat>, items: seq<Item>) returns (s': State)
    requires ReadingLengths(s, bl) && Sendable(bl, items)
    requires ApplyAll(s.lens, items).Some? && |ApplyAll(s.lens, items).value| <= s.nlen + s.ndist
    requires At(s.p, t, AllItemBits(bl, items))
    ensures Reaches(s, t, s') && ReadingLengths(s', bl) && SameRest(s, s')
    ensures s'.lens == ApplyAll(s.lens, items).value && s'.p == s.p + |AllItemBits(bl, items)|
    decreases |items|
  {
    hide Reaches, Apply, ItemBits, At, ItemOk;
    if items == [] {
      ReachSelf(s, t);
      s' := s;
    } else {
      AtSplit(s.p, t, ItemBits(bl, items[0]), AllItemBits(bl, items[1..]));
      ItemSym(items[0]);
      ApplyLonger(s.lens, items[0]);
      ApplyAllLonger(Apply(s.lens, items[0]).value, items[1..]);
      var s1 := ReadItem(s, t, bl, items[0]);
      s' := ReadItems(s1, t, bl, items[1..]);
      ReachThen(s, t, s1, s');
    }
  }

  lemma ItemSym(item: Item)
    requires ItemOk(item)
    ensures item.sym < 19
  {
  }

  // ---- The header of a dynamic block ----

  lemma CompleteAccepted(ty: CodeType, lens: seq<nat>)
    requires Complete(lens) && |lens| <= MaxSymbols(ty)
    ensures Accepted(ty, lens) && Fits(lens)
  {
  }

  lemma ReadTable(s: State, t: seq<bool>, c: BlockCodes) returns (s': State)
    requires s.mode == TABLE && CodesOk(c) && At(s.p, t, CodeCounts(c))
    ensures Reaches(s, t, s') && s'.mode == LENLENS && s'.lens == [] && s'.p == s.p + 14
    ensures s'.nlen == |c.ll| && s'.ndist == |c.dl| && s'.ncode == c.blCodes
    ensures s'.out == s.out && s'.last == s.last && s'.wrap == s.wrap
    ensures At(s'.p, t, LengthBits(c.bl, c.blCodes))
  {
    hide Reaches, Grows, ToBits, Val, LengthBits, Sendable, Complete, At;
    var a, b, d := ToBits(|c.ll| - 257, 5), ToBits(|c.dl| - 1, 5), ToBits(c.blCodes - 4, 4);
    SplitCounts(s.p, t, a, b, d, LengthBits(c.bl, c.blCodes));
    assert Pow2(4) == 16 && Pow2(5) == 32;
    AtVal(s.p, t, |c.ll| - 257, 5);
    AtVal(s.p + 5, t, |c.dl| - 1, 5);
    AtVal(s.p + 10, t, c.blCodes - 4, 4);
    AtEnd(s.p + 10, t, d);
    ShiftVal(s.p, 5, t, 5);
    ShiftVal(s.p, 10, t, 4);
    s' := s.(nlen := |c.ll|, ndist := |c.dl|, ncode := c.blCodes, p := s.p + 14, mode := LENLENS, lens := []);
    assert StepIn(s, t) == Some(s');
    ReachOne(s, t, s');
  }

  lemma SplitCounts(p: nat, t: seq<bool>, a: seq<bool>, b: seq<bool>, d: seq<bool>, e: seq<bool>)
    requires |a| == 5 && |b| == 5 && |d| == 4 && At(p, t, a + b + d + e)
    ensures At(p, t, a) && At(p + 5, t, b) && At(p + 10, t, d) && At(p + 14, t, e)
  {
    hide At;
    AtSplit(p, t, a + b + d, e);
    AtSplit(p, t, a + b, d);
    AtSplit(p, t, a, b);
  }

  /** The codes of the block are read back. */
  lemma ReadHeader(s: State, t: seq<bool>, c: BlockCodes) returns (s': State)
    requires s.mode == TABLE && CodesOk(c) && At(s.p, t, HeaderBits(c))
    ensures Reaches(s, t, s') && InBlock(s', c.ll, c.dl)
    ensures s'.p == s.p + |HeaderBits(c)| && s'.out == s.out && s'.last == s.last && s'.wrap == s.wrap
  {
    hide Reaches, At, CodeCounts, AllItemBits, ItemsFrom, ApplyAll, Sendable, Complete, InBlock;
    var a, b, d := CodeCounts(c), AllItemBits(c.bl, Items(c.ll)), AllItemBits(c.bl, Items(c.dl));
    AtSplit(s.p, t, a + b, d);
    AtSplit(s.p, t, a, b);
    var s1 := ReadTable(s, t, c);
    var s2 := ReadLengthCode(s1, t, c);
    ReachThen(s, t, s1, s2);
    s' := ReadBothTrees(s2, t, c);
    ReachThen(s, t, s2, s');
  }

  lemma ReadLengthCode(s: State, t: seq<bool>, c: BlockCodes) returns (s': State)
    requires s.mode == LENLENS && s.lens == [] && CodesOk(c) && s.ncode == c.blCodes
    requires At(s.p, t, LengthBits(c.bl, c.blCodes))
    ensures Reaches(s, t, s') && ReadingLengths(s', c.bl) && s'.lens == [] && s'.p == s.p + 3 * c.blCodes
    ensures SameRest(s, s')
  {
    hide Reaches, Complete, Ordered, Sent, Sendable, Accepted, LengthBits, Fits, Grows, At;
    AtEnd(s.p, t, LengthBits(c.bl, c.blCodes));
    var s1 := ReadLengths(s, t, c.bl, c.blCodes);
    OrderedSent(c.bl, c.blCodes);
    CompleteAccepted(CODES, c.bl);
    s' := s1.(mode := CODELENS, lcode := c.bl, lens := []);
    assert StepIn(s1, t) == Some(s');
    ReachStep(s, t, s1, s');
  }

  lemma ReadBothTrees(s: State, t: seq<bool>, c: BlockCodes) returns (s': State)
    requires CodesOk(c) && ReadingLengths(s, c.bl) && s.lens == [] && s.nlen == |c.ll| && s.ndist == |c.dl|
    requires At(s.p, t, AllItemBits(c.bl, Items(c.ll)))
    requires At(s.p + |AllItemBits(c.bl, Items(c.ll))|, t, AllItemBits(c.bl, Items(c.dl)))
    ensures Reaches(s, t, s') && InBlock(s', c.ll, c.dl) && s'.out == s.out && s'.last == s.last && s'.wrap == s.wrap
    ensures s'.p == s.p + |AllItemBits(c.bl, Items(c.ll))| + |AllItemBits(c.bl, Items(c.dl))|
  {
    hide Reaches, Complete, Sendable, Accepted, AllItemBits, ItemsFrom, ApplyAll, Fits, Grows, Decode, At;
    CompleteBelow(c.ll);
    CompleteBelow(c.dl);
    RoundTrip([], c.ll);
    RoundTrip(c.ll, c.dl);
    assert [] + c.ll == c.ll;
    var s1 := ReadItems(s, t, c.bl, Items(c.ll));
    var s2 := ReadItems(s1, t, c.bl, Items(c.dl));
    ReachThen(s, t, s1, s2);
    AtEnd(s1.p, t, AllItemBits(c.bl, Items(c.dl)));
    assert s2.lens[..|c.ll|] == c.ll && s2.lens[|c.ll|..] == c.dl && s2.lens[256] == c.ll[256];
    CompleteAccepted(LENS, c.ll);
    CompleteAccepted(DISTS, c.dl);
    s' := s2.(mode := LEN, lcode := c.ll, dcode := c.dl);
    assert StepIn(s2, t) == Some(s');
    ReachStep(s, t, s2, s');
  }

  lemma CompleteBelow(lens: seq<nat>)
    requires Complete(lens)
    ensures LengthsBelow16(lens)
  {
  }

  // ---- Stored blocks ----

  lemma {:induction false} ReadBytes(s: State, t: seq<bool>, data: seq<byte>) returns (s': State)
    requires s.mode == COPY && s.length == |data| && At(s.p, t, BytesToBits(data))
    ensures Reaches(s, t, s') && s'.mode == TYPE && s'.p == s.p + 8 * |data| && s'.out == s.out + data
    ensures s'.last == s.last && s'.wrap == s.wrap
    decreases |data|
  {
    hide Reaches, Grows, Val, At, ToBits, BytesToBits;
    AtEnd(s.p, t, BytesToBits(data));
    if data == [] {
      s' := s.(mode := TYPE);
      assert StepIn(s, t) == Some(s');
      ReachOne(s, t, s');
    } else {
      FirstByte(data);
      AtSplit(s.p, t, ToBits(data[0], 8), BytesToBits(data[1..]));
      Pow2Values();
      AtVal(s.p, t, data[0], 8);
      var s1 := s.(out := s.out + [data[0]], length := s.length - 1, p := s.p + 8);
      assert StepIn(s, t) == Some(s1);
      ReachOne(s, t, s1);
      s' := ReadBytes(s1, t, data[1..]);
      ReachThen(s, t, s1, s');
      assert [data[0]] + data[1..] == data;
    }
  }

  lemma FirstByte(data: seq<byte>)
    requires data != []
    ensures BytesToBits(data) == ToBits(data[0], 8) + BytesToBits(data[1..])
  {
    BytesConcat([data[0]], data[1..]);
    assert [data[0]] + data[1..] == data;
    BytesPush([], data[0]);
    assert [] + [data[0]] == [data[0]];
  }

  /** The type bits of a block. */
  lemma ReadType(s: State, t: seq<bool>, last: bool, kind: nat) returns (s': State)
    requires s.mode == TYPE && !s.last && kind < 3 && At(s.p, t, ToBits(2 * kind + if last then 1 else 0, 3))
    ensures Reaches(s, t, s') && s'.p == s.p + 3 && s'.out == s.out && s'.wrap == s.wrap && s'.last == last
    ensures kind == 0 ==> s'.mode == STORED
    ensures kind == 1 ==> InBlock(s', FixedLens(), FixedDistLens())
    ensures kind == 2 ==> s'.mode == TABLE
  {
    hide Reaches, Grows, FixedLens, FixedDistLens, Fits, Complete;
    FixedComplete();
    FixedDistComplete();
    var v := 2 * kind + if last then 1 else 0;
    AtEnd(s.p, t, ToBits(v, 3));
    ThreeBits(v);
    assert t[s.p..][..3] == ToBits(v, 3);
    hide ToBits;
    s' := StepIn(s, t).value;
    ReachOne(s, t, s');
  }

  lemma ThreeBits(v: nat)
    requires v < 6
    ensures ToBits(v, 3) == [v % 2 == 1, v / 2 % 2 == 1, v / 4 % 2 == 1]
  {
  }

  lemma ReadStored(s: State, t: seq<bool>, data: seq<byte>) returns (s': State)
    requires s.mode == STORED && |data| < 65536
    requires At(s.p, t, Zeros(Padding(s.p)) + ToBits(|data|, 16) + ToBits(65535 - |data|, 16) + BytesToBits(data))
    ensures Reaches(s, t, s') && s'.mode == TYPE && s'.p == s.p + Padding(s.p) + 32 + 8 * |data|
    ensures s'.out == s.out + data
    ensures s'.last == s.last && s'.wrap == s.wrap
  {
    hide Reaches, Grows, Val, At, ToBits, BytesToBits, Zeros, Pow2;
    var z, a, b, d := Zeros(Padding(s.p)), ToBits(|data|, 16), ToBits(65535 - |data|, 16), BytesToBits(data);
    AtSplit(s.p, t, z + a + b, d);
    AtSplit(s.p, t, z + a, b);
    AtSplit(s.p, t, z, a);
    AtEnd(s.p, t, z + a + b);
    var s1 := AlignStored(s, t);
    Pow2Values();
    AtVal(s1.p, t, |data|, 16);
    AtVal(s1.p + 16, t, 65535 - |data|, 16);
    ShiftVal(s1.p, 16, t, 16);
    var s2 := s1.(mode := COPY, length := |data|, p := s1.p + 32);
    assert StepIn(s1, t) == Some(s2);
    ReachStep(s, t, s1, s2);
    s' := ReadBytes(s2, t, data);
    ReachThen(s, t, s2, s');
  }

  lemma AlignStored(s: State, t: seq<bool>) returns (s': State)
    requires s.mode == STORED && s.p + Padding(s.p) <= |t|
    ensures Reaches(s, t, s') && s' == s.(p := s.p + Padding(s.p)) && Padding(s'.p) == 0
  {
    hide Reaches, Grows, Val;
    s' := s.(p := s.p + Padding(s.p));
    if Padding(s.p) == 0 {
      ReachSelf(s, t);
    } else {
      assert StepIn(s, t) == Some(s');
      ReachOne(s, t, s');
    }
  }

  // ---- The round trip of a block ----

  ghost predicate BlockFits(out: seq<byte>, b: Block) {
    match b
    case StoredBlock(_) => true
    case FixedBlock(ts) => AllFit(out, ts)
    case DynamicBlock(ts, _) => AllFit(out, ts)
  }

  /** The output after a block. */
  function Decoded(out: seq<byte>, b: Block): seq<byte>
    requires BlockFits(out, b)
  {
    match b
    case StoredBlock(data) => out + data
    case FixedBlock(ts) => ExpandAll(out, ts)
    case DynamicBlock(ts, _) => ExpandAll(out, ts)
  }

  /** Whatever the encoder writes for a block, the decoder reads back: the same
      literals and matches, up to and including the last bit of the block. */
  lemma ReadBlock(s: State, t: seq<bool>, tb: Tables, b: Block, last: bool) returns (s': State)
    requires s.mode == TYPE && !s.last && BlockOk(tb, b) && BlockFits(s.out, b)
    requires At(s.p, t, BlockBits(tb, b, last, s.p))
    ensures Reaches(s, t, s') && s'.mode == TYPE && s'.last == last && s'.wrap == s.wrap
    ensures s'.p == s.p + |BlockBits(tb, b, last, s.p)| && s'.out == Decoded(s.out, b)
  {
    hide Reaches, At, ToBits, BlockBody, InBlock, CodesOk, AllCoded, Complete, ExpandAll, AllFit, Zeros, Padding,
      BytesToBits, HeaderBits;
    match b
    case StoredBlock(data) =>
      var rest := Zeros(Padding(s.p + 3)) + ToBits(|data|, 16) + ToBits(65535 - |data|, 16) + BytesToBits(data);
      var h := ToBits(if last then 1 else 0, 3);
      assert BlockBits(tb, b, last, s.p) == h + rest;
      AtSplit(s.p, t, h, rest);
      var s1 := ReadType(s, t, last, 0);
      s' := ReadStored(s1, t, data);
      ReachThen(s, t, s1, s');
    case FixedBlock(ts) =>
      AtSplit(s.p, t, ToBits(if last then 3 else 2, 3), BlockBody(tb, FixedLens(), FixedDistLens(), ts));
      var s1 := ReadType(s, t, last, 1);
      FixedEndCode();
      s' := ReadBody(s1, t, tb, FixedLens(), FixedDistLens(), ts);
      ReachThen(s, t, s1, s');
    case DynamicBlock(ts, c) =>
      s' := ReadDynamic(s, t, tb, ts, c, last);
  }

  lemma FixedEndCode()
    ensures |FixedLens()| == 288 && FixedLens()[END_BLOCK] == 7
  {
  }

  lemma ReadDynamic(s: State, t: seq<bool>, tb: Tables, ts: seq<Token>, c: BlockCodes, last: bool) returns (s': State)
    requires s.mode == TYPE && !s.last && BlockOk(tb, DynamicBlock(ts, c)) && AllFit(s.out, ts)
    requires At(s.p, t, BlockBits(tb, DynamicBlock(ts, c), last, s.p))
    ensures Reaches(s, t, s') && s'.mode == TYPE && s'.last == last && s'.wrap == s.wrap
    ensures s'.p == s.p + |BlockBits(tb, DynamicBlock(ts, c), last, s.p)| && s'.out == ExpandAll(s.out, ts)
  {
    hide Reaches, At, ToBits, BlockBody, InBlock, AllCoded, Complete, ExpandAll, AllFit, HeaderBits, Sendable;
    var h, a, d := ToBits(if last then 5 else 4, 3), HeaderBits(c), BlockBody(tb, c.ll, c.dl, ts);
    AtSplit(s.p, t, h + a, d);
    AtSplit(s.p, t, h, a);
    var s1 := ReadType(s, t, last, 2);
    var s2 := ReadHeader(s1, t, c);
    ReachThen(s, t, s1, s2);
    s' := ReadBody(s2, t, tb, c.ll, c.dl, ts);
    ReachThen(s, t, s2, s');
  }
}
