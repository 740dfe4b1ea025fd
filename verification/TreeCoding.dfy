/** scan_tree and send_tree (deps/libz/trees.c): the lengths of a tree as items
    of the code length alphabet, first counted and then sent. */
module TreeCoding {
  import opened Bits
  import opened Canonical
  import opened CodeLengths
  import opened BitWriter

  // ---- Sending one code ----

  /** The codes fc and lengths dl of the symbols of lens. */
  ghost predicate CodesOf(fc: seq<nat>, dl: seq<nat>, lens: seq<nat>) {
    && |fc| == |dl| && Bounded(lens, MAXBITS)
    && forall x :: 0 <= x < |lens| && x < |fc| ==> dl[x] == lens[x] && (lens[x] > 0 ==> fc[x] == RevCode(lens, x))
  }

  lemma CodeBits(lens: seq<nat>, c: nat)
    requires c < |lens|
    ensures ToBits(RevCode(lens, c), lens[c]) == Codeword(lens, c)
  {
    MsbIsRev(Code(lens, c), lens[c]);
  }

  method SendCode(w: Writer, fc: seq<nat>, dl: seq<nat>, c: nat, ghost lens: seq<nat>)
    requires w.Valid() && c < |lens| && c < |fc| == |dl| && CodesOf(fc, dl, lens) && 0 < lens[c]
    requires w.Room(lens[c])
    modifies w, w.pendingBuf
    ensures w.Valid() && w.Stream() == old(w.Stream()) + Codeword(lens, c)
    ensures w.pending >= old(w.pending) && w.Behind(old(w.pendingBuf[..]))
    ensures old(w.InPairs()) ==> w.InPairs()
  {
    hide RevCode, ToBits, Codeword, w.Valid, w.Behind, Pow2, w.InPairs;
    CodeBits(lens, c);
    w.SendBits(fc[c], dl[c]);
  }

  // ---- Items in the stream ----

  function ItemBits(bl: seq<nat>, item: Item): (b: seq<bool>) {
    if item.sym < |bl| then Codeword(bl, item.sym) + ToBits(item.arg, ExtraBl(item.sym)) else []
  }

  function AllItemBits(bl: seq<nat>, items: seq<Item>): seq<bool> {
    if items == [] then [] else ItemBits(bl, items[0]) + AllItemBits(bl, items[1..])
  }

  /** Every item has a code. */
  ghost predicate Sendable(bl: seq<nat>, items: seq<Item>) {
    |bl| == 19 && ItemsOk(items) && forall i :: 0 <= i < |items| ==> bl[items[i].sym] > 0
  }

  lemma {:induction false} ItemBitsConcat(bl: seq<nat>, a: seq<Item>, b: seq<Item>)
    ensures AllItemBits(bl, a + b) == AllItemBits(bl, a) + AllItemBits(bl, b)
    decreases |a|
  {
    hide ItemOk, ItemBits;
    if a == [] {
      assert a + b == b;
    } else {
      assert (a + b)[1..] == a[1..] + b;
      ItemBitsConcat(bl, a[1..], b);
    }
  }

  lemma OneItemBits(bl: seq<nat>, item: Item)
    ensures AllItemBits(bl, [item]) == ItemBits(bl, item)
  {
    assert [item][1..] == [];
    assert AllItemBits(bl, []) == [];
  }

  lemma SendableParts(bl: seq<nat>, a: seq<Item>, b: seq<Item>)
    requires Sendable(bl, a + b)
    ensures Sendable(bl, a) && Sendable(bl, b)
    ensures AllItemBits(bl, a + b) == AllItemBits(bl, a) + AllItemBits(bl, b)
  {
    assert forall x :: ItemOk(x) ==> x.sym < 19;
    hide ItemOk;
    forall i | 0 <= i < |a| ensures a[i].sym < 19 && ItemOk(a[i]) && bl[a[i].sym] > 0 { assert (a + b)[i] == a[i]; }
    forall i | 0 <= i < |b| ensures b[i].sym < 19 && ItemOk(b[i]) && bl[b[i].sym] > 0 {
      assert (a + b)[|a| + i] == b[i];
    }
    ItemBitsConcat(bl, a, b);
  }

  method SendItem(w: Writer, fc: seq<nat>, dl: seq<nat>, sym: nat, arg: nat, ghost bl: seq<nat>)
    requires w.Valid() && |fc| == |dl| >= 19 && Sendable(bl, [Item(sym, arg)]) && CodesOf(fc, dl, bl)
    requires w.Room(|AllItemBits(bl, [Item(sym, arg)])|)
    modifies w, w.pendingBuf
    ensures w.Valid() && w.Stream() == old(w.Stream()) + AllItemBits(bl, [Item(sym, arg)])
    ensures old(w.InPairs()) ==> w.InPairs()
  {
    hide AllItemBits, Codeword, ToBits, Pow2, CodesOf, w.Valid, Sendable, ExtraBl, Or, Shl, Low, w.InPairs;
    OneItem(bl, sym, arg);
    SendCode(w, fc, dl, sym, bl);
    if ExtraBl(sym) > 0 { w.SendBits(arg, ExtraBl(sym)); }
  }

  lemma OneItem(bl: seq<nat>, sym: nat, arg: nat)
    requires Sendable(bl, [Item(sym, arg)])
    ensures sym < 19 == |bl| && bl[sym] > 0 && arg < Pow2(ExtraBl(sym)) && ExtraBl(sym) <= 7
    ensures |AllItemBits(bl, [Item(sym, arg)])| == bl[sym] + ExtraBl(sym)
    ensures AllItemBits(bl, [Item(sym, arg)]) == Codeword(bl, sym) + ToBits(arg, ExtraBl(sym))
    ensures ExtraBl(sym) == 0 ==> AllItemBits(bl, [Item(sym, arg)]) == Codeword(bl, sym)
  {
    var item := Item(sym, arg);
    assert [item][0] == item && ItemOk(item);
    OneItemBits(bl, item);
    hide AllItemBits, Codeword, Pow2;
  }

  // ---- The loop of scan_tree and send_tree ----

  /** The loop variables at index n: the run so far, the next length and the limits. */
  ghost predicate LoopAt(lens: seq<nat>, n: nat, prev: int, count: nat, next: nat, max: nat, min: nat) {
    && n <= |lens| && LengthsBelow16(lens) && (n == |lens| ==> count == 0)
    && (n < |lens| ==> next == lens[n] && max == MaxCount(prev, next) && min == MinCount(prev, next) && count < max)
  }

  function Rest(lens: seq<nat>, n: nat, prev: int, count: nat): seq<Item> {
    if n <= |lens| && (n < |lens| ==> count < MaxCount(prev, lens[n])) then ItemsFrom(lens, n, prev, count) else []
  }

  lemma LoopStart(lens: seq<nat>)
    requires lens != [] && LengthsBelow16(lens)
    ensures LoopAt(lens, 0, -1, 0, lens[0], if lens[0] == 0 then 138 else 7, if lens[0] == 0 then 3 else 4)
    ensures Rest(lens, 0, -1, 0) == Items(lens)
  {
  }

  /** One turn: the run goes on, or is emitted. */
  lemma LoopStep(lens: seq<nat>, n: nat, prev: int, count: nat, cur: nat, next: nat, max: nat, min: nat)
    requires LoopAt(lens, n, prev, count, cur, max, min) && n < |lens| && next == NextLen(lens, n)
    ensures cur < 16 && max == MaxCount(prev, cur) && min == MinCount(prev, cur)
    ensures count + 1 < max && cur == next ==>
      LoopAt(lens, n + 1, prev, count + 1, next, max, min)
        && Rest(lens, n, prev, count) == Rest(lens, n + 1, prev, count + 1)
    ensures !(count + 1 < max && cur == next) ==>
      && count + 1 <= MaxCount(prev, cur)
      && Rest(lens, n, prev, count) == Run(prev, cur, count + 1) + Rest(lens, n + 1, cur, 0)
      && LoopAt(lens, n + 1, cur, 0, next, if next == 0 then 138 else if cur == next then 6 else 7,
           if next == 0 then 3 else if cur == next then 3 else 4)
  {
    hide Run;
  }

  lemma GuardedNext(dl: seq<nat>, lens: seq<nat>, n: nat)
    requires |lens| < |dl| && lens == dl[..|lens|] && dl[|lens|] == GUARD && n < |lens|
    ensures dl[n + 1] == NextLen(lens, n)
  {
  }

  // ---- send_tree ----

  /** The parts of a run, as they are sent. */
  lemma RunParts(prev: int, cur: nat, count: nat)
    requires 1 <= count <= MaxCount(prev, cur)
    ensures count < MinCount(prev, cur) ==> Run(prev, cur, count) == Copies(Item(cur, 0), count)
    ensures count >= MinCount(prev, cur) && cur != 0 && cur != prev ==>
      count >= 4 && Run(prev, cur, count) == [Item(cur, 0)] + [Item(16, count - 4)]
    ensures count >= MinCount(prev, cur) && cur != 0 && cur == prev ==>
      count >= 3 && Run(prev, cur, count) == [Item(16, count - 3)]
    ensures count >= MinCount(prev, cur) && cur == 0 ==>
      count >= 3 && Run(prev, cur, count) == [if count <= 10 then Item(17, count - 3) else Item(18, count - 11)]
  {
    hide Copies;
  }

  method SendRun(w: Writer, fc: seq<nat>, dl: seq<nat>, prev: int, cur: nat, count: nat, min: nat, ghost bl: seq<nat>)
    requires w.Valid() && |fc| == |dl| >= 19 && CodesOf(fc, dl, bl) && 1 <= count <= MaxCount(prev, cur)
    requires min == MinCount(prev, cur)
    requires Sendable(bl, Run(prev, cur, count)) && w.Room(|AllItemBits(bl, Run(prev, cur, count))|)
    modifies w, w.pendingBuf
    ensures w.Valid() && w.Stream() == old(w.Stream()) + AllItemBits(bl, Run(prev, cur, count))
    ensures old(w.InPairs()) ==> w.InPairs()
  {
    hide Sendable, ItemOk, AllItemBits, Run, CodesOf, w.Valid, Copies, ExtraBl, ItemsOk, w.InPairs;
    RunParts(prev, cur, count);
    if count < min {
      SendCopies(w, fc, dl, cur, count, bl);
    } else if cur != 0 {
      if cur != prev {
        SendableParts(bl, [Item(cur, 0)], [Item(16, count - 4)]);
        SendItem(w, fc, dl, cur, 0, bl);
        SendItem(w, fc, dl, 16, count - 4, bl);
      } else {
        SendItem(w, fc, dl, 16, count - 3, bl);
      }
    } else if count <= 10 {
      SendItem(w, fc, dl, 17, count - 3, bl);
    } else {
      SendItem(w, fc, dl, 18, count - 11, bl);
    }
  }

  /** The same code count times. */
  method SendCopies(w: Writer, fc: seq<nat>, dl: seq<nat>, cur: nat, count0: nat, ghost bl: seq<nat>)
    requires w.Valid() && |fc| == |dl| >= 19 && CodesOf(fc, dl, bl) && 1 <= count0
    requires Sendable(bl, Copies(Item(cur, 0), count0)) && w.Room(|AllItemBits(bl, Copies(Item(cur, 0), count0))|)
    modifies w, w.pendingBuf
    ensures w.Valid() && w.Stream() == old(w.Stream()) + AllItemBits(bl, Copies(Item(cur, 0), count0))
    ensures old(w.InPairs()) ==> w.InPairs()
  {
    hide Sendable, ItemOk, AllItemBits, CodesOf, w.Valid, Copies, ExtraBl, ItemsOk, w.InPairs;
    var count := count0;
    ghost var s0 := w.Stream();
    while count != 0
      invariant 0 <= count && w.Valid() && Sendable(bl, Copies(Item(cur, 0), count))
      invariant old(w.InPairs()) ==> w.InPairs()
      invariant w.Room(|AllItemBits(bl, Copies(Item(cur, 0), count))|)
      invariant w.Stream() + AllItemBits(bl, Copies(Item(cur, 0), count))
        == s0 + AllItemBits(bl, Copies(Item(cur, 0), count0))
    {
      CopiesFirst(Item(cur, 0), count - 1);
      SendableParts(bl, [Item(cur, 0)], Copies(Item(cur, 0), count - 1));
      SendItem(w, fc, dl, cur, 0, bl);
      count := count - 1;
    }
    NoItems(bl, cur);
  }

  lemma {:induction false} CopiesFirst(x: Item, n: nat)
    ensures Copies(x, n + 1) == [x] + Copies(x, n)
  {
    if n > 0 { CopiesFirst(x, n - 1); }
  }

  lemma NoItems(bl: seq<nat>, cur: nat)
    ensures Copies(Item(cur, 0), 0) == [] && AllItemBits(bl, []) == []
  {
  }

  method SendTree(w: Writer, tree: array<nat>, maxCode: nat, fc: seq<nat>, dl: seq<nat>, ghost bl: seq<nat>)
    requires w.Valid() && maxCode + 1 < tree.Length && tree[maxCode + 1] == GUARD && LengthsBelow16(tree[..maxCode + 1])
    requires |fc| == |dl| >= 19 && CodesOf(fc, dl, bl) && Sendable(bl, Items(tree[..maxCode + 1]))
    requires w.Room(|AllItemBits(bl, Items(tree[..maxCode + 1]))|)
    modifies w, w.pendingBuf
    ensures w.Valid() && w.Stream() == old(w.Stream()) + AllItemBits(bl, Items(tree[..maxCode + 1]))
    ensures old(w.InPairs()) ==> w.InPairs()
  {
    hide Sendable, ItemOk, AllItemBits, CodesOf, w.Valid, ItemsFrom, LoopAt, Rest, NextLen, Run, LengthsBelow16,
      ItemsOk, w.InPairs;
    ghost var lens: seq<nat>, s0 := tree[..maxCode + 1], w.Stream();
    var prevlen: int, nextlen, count, maxCount, minCount := -1, tree[0], 0, 7, 4;
    if nextlen == 0 { maxCount, minCount := 138, 3; }
    LoopStart(lens);
    for n := 0 to maxCode + 1
      invariant tree[..maxCode + 1] == lens && tree[maxCode + 1] == GUARD && 0 <= count && 0 <= maxCount
      invariant 0 <= minCount
      invariant LoopAt(lens, n, prevlen, count, nextlen, maxCount, minCount)
      invariant w.Valid() && (old(w.InPairs()) ==> w.InPairs())
      invariant Sendable(bl, Rest(lens, n, prevlen, count)) && w.Room(|AllItemBits(bl, Rest(lens, n, prevlen, count))|)
      invariant w.Stream() + AllItemBits(bl, Rest(lens, n, prevlen, count)) == s0 + AllItemBits(bl, Items(lens))
    {
      GuardedNext(tree[..], lens, n);
      var curlen := nextlen;
      nextlen := tree[n + 1];
      LoopStep(lens, n, prevlen, count, curlen, nextlen, maxCount, minCount);
      count := count + 1;
      if count < maxCount && curlen == nextlen { continue; }
      SendableParts(bl, Run(prevlen, curlen, count), Rest(lens, n + 1, curlen, 0));
      SendRun(w, fc, dl, prevlen, curlen, count, minCount, bl);
      count, prevlen := 0, curlen;
      if nextlen == 0 {
        maxCount, minCount := 138, 3;
      } else if curlen == nextlen {
        maxCount, minCount := 6, 3;
      } else {
        maxCount, minCount := 7, 4;
      }
    }
    LoopEnd(lens, maxCode + 1, prevlen, count, nextlen, maxCount, minCount);
    NoItems(bl, 0);
  }

  lemma LoopEnd(lens: seq<nat>, n: nat, prev: int, count: nat, next: nat, max: nat, min: nat)
    requires LoopAt(lens, n, prev, count, next, max, min) && n == |lens|
    ensures Rest(lens, n, prev, count) == []
  {
  }

  // ---- scan_tree ----

  /** Frequencies f and the items to come add up to frequencies f0 and all items. */
  ghost predicate Counting(f0: seq<nat>, f: seq<nat>, items: seq<Item>, rest: seq<Item>) {
    && |f| == |f0| && |f| >= 19
    && forall x :: 0 <= x < |f| ==> f[x] + ItemCount(rest, x) == f0[x] + ItemCount(items, x)
  }

  /** The increments for one run. */
  function Bumped(f: seq<nat>, prev: int, cur: nat, count: nat, min: nat): seq<nat>
    requires |f| >= 19 && cur < 16
  {
    if count < min then f[cur := f[cur] + count]
    else if cur != 0 then
      var g := if cur != prev then f[cur := f[cur] + 1] else f;
      g[16 := g[16] + 1]
    else if count <= 10 then f[17 := f[17] + 1]
    else f[18 := f[18] + 1]
  }

  lemma CountingRun(f0: seq<nat>, f: seq<nat>, items: seq<Item>, prev: int, cur: nat, count: nat, rest: seq<Item>)
    requires 1 <= count <= MaxCount(prev, cur) && cur < 16
    requires Counting(f0, f, items, Run(prev, cur, count) + rest)
    ensures Counting(f0, Bumped(f, prev, cur, count, MinCount(prev, cur)), items, rest)
  {
    hide ItemCount, Run;
    var f' := Bumped(f, prev, cur, count, MinCount(prev, cur));
    forall x | 0 <= x < |f'|
      ensures f'[x] + ItemCount(rest, x) == f0[x] + ItemCount(items, x)
    {
      CountConcat(Run(prev, cur, count), rest, x);
      CountRun(prev, cur, count, x);
    }
  }

  method ScanRun(fc: array<nat>, prev: int, cur: nat, count: nat, min: nat)
    requires fc.Length >= 19 && cur < 16
    modifies fc
    ensures fc[..] == Bumped(old(fc[..]), prev, cur, count, min)
  {
    if count < min {
      fc[cur] := fc[cur] + count;
    } else if cur != 0 {
      if cur != prev { fc[cur] := fc[cur] + 1; }
      fc[16] := fc[16] + 1;
    } else if count <= 10 {
      fc[17] := fc[17] + 1;
    } else {
      fc[18] := fc[18] + 1;
    }
  }

  /** Count the items of a tree and set the guard behind its last length. */
  method ScanTree(tree: array<nat>, maxCode: nat, fc: array<nat>)
    requires maxCode + 1 < tree.Length && LengthsBelow16(tree[..maxCode + 1]) && fc.Length >= 19 && fc != tree
    modifies tree, fc
    ensures tree[..] == old(tree[..])[maxCode + 1 := GUARD]
    ensures Counting(old(fc[..]), fc[..], Items(old(tree[..maxCode + 1])), [])
  {
    hide Counting, ItemsFrom, LoopAt, Rest, NextLen, Run, LengthsBelow16, Bumped;
    ghost var t0: seq<nat>, f0: seq<nat>, lens: seq<nat> := tree[..], fc[..], tree[..maxCode + 1];
    var prevlen: int, nextlen, count, maxCount, minCount := -1, tree[0], 0, 7, 4;
    if nextlen == 0 { maxCount, minCount := 138, 3; }
    tree[maxCode + 1] := GUARD;
    assert tree[..maxCode + 1] == lens;
    LoopStart(lens);
    CountingStart(f0, Items(lens));
    for n := 0 to maxCode + 1
      invariant tree[..] == t0[maxCode + 1 := GUARD] && 0 <= count && 0 <= maxCount && 0 <= minCount
      invariant LoopAt(lens, n, prevlen, count, nextlen, maxCount, minCount)
      invariant Counting(f0, fc[..], Items(lens), Rest(lens, n, prevlen, count))
    {
      GuardedNext(tree[..], lens, n);
      var curlen := nextlen;
      nextlen := tree[n + 1];
      LoopStep(lens, n, prevlen, count, curlen, nextlen, maxCount, minCount);
      count := count + 1;
      if count < maxCount && curlen == nextlen { continue; }
      CountingRun(f0, fc[..], Items(lens), prevlen, curlen, count, Rest(lens, n + 1, curlen, 0));
      ScanRun(fc, prevlen, curlen, count, minCount);
      count, prevlen := 0, curlen;
      if nextlen == 0 {
        maxCount, minCount := 138, 3;
      } else if curlen == nextlen {
        maxCount, minCount := 6, 3;
      } else {
        maxCount, minCount := 7, 4;
      }
    }
    LoopEnd(lens, maxCode + 1, prevlen, count, nextlen, maxCount, minCount);
  }

  lemma CountingStart(f: seq<nat>, items: seq<Item>)
    requires |f| >= 19
    ensures Counting(f, f, items, items)
  {
  }
}
