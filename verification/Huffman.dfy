/** gen_bitlen (deps/libz/trees.c): from the merged nodes to the lengths of a complete
    code, of least cost unless lengths had to be cut. */
module Huffman {
  import opened Bits
  import opened Optimality
  import opened Merges
  import opened TreeBuilder
  import opened HeapLayout
  import opened BitLengths
  import opened FirstPass
  import opened LengthPass
  import opened RepairLengths

  /** The lengths of the leaves: bounded, complete, counted by cnt, and in order. */
  ghost predicate GoodLengths(leaves: set<nat>, w: seq<nat>, l: seq<nat>, max: nat, cnt: seq<nat>) {
    && |l| == |w| && Tally(cnt, leaves, l) && Between(leaves, l, 1, max)
    && Kraft(leaves, l, max) == Pow2(max) && Monotone(leaves, w, l)
  }

  // ---- Less frequent symbols in a cheapest code ----

  lemma SwapSaves(s: set<nat>, w: seq<nat>, l: seq<nat>, m: nat, x: nat, y: nat)
    requires |l| == |w| && IsCode(s, l, m) && x in s && y in s && x < |w| && y < |w| && w[x] < w[y] && l[x] < l[y]
    ensures var l' := l[x := l[y]][y := l[x]];
            IsCode(s, l', m) && Cost(s, w, l') < Cost(s, w, l)
  {
    SetLength(s, w, l, m, x, l[y]);
    var l1: seq<nat> := l[x := l[y]];
    SetLength(s, w, l1, m, y, l[x]);
    hide Cost, Kraft;
    Crossed(w[x], w[y], l[x], l[y]);
  }

  lemma Crossed(a: nat, b: nat, c: nat, d: nat)
    requires a < b && c < d
    ensures a * d + b * c < a * c + b * d
  {
    Shorter(a, b - 1, c, d);
    assert b * c == (b - 1) * c + c;
    assert b * d == (b - 1) * d + d;
  }

  lemma CheapestIsMonotone(s: set<nat>, w: seq<nat>, l: seq<nat>, m: nat)
    requires |l| == |w| && IsCode(s, l, m) && LowerBound(s, w, Cost(s, w, l))
    ensures Monotone(s, w, l)
  {
    hide Cost, IsCode;
    forall x, y | x in s && y in s && x < |w| && y < |w| && x < |l| && y < |l| && w[x] < w[y]
      ensures l[x] >= l[y]
    {
      if l[x] < l[y] {
        SwapSaves(s, w, l, m, x, y);
      }
    }
  }

  // ---- After the first pass ----

  lemma LeafLengths(heap: seq<nat>, lo: nat, l: seq<nat>, elems: nat, max: nat, maxCode: int, leaves: set<nat>)
    requires LengthsTo(heap, lo, l, elems, max, HEAP_SIZE) && max >= 1
    requires LeavesIn(heap, lo + 1, HEAP_SIZE, maxCode) == leaves
    ensures Between(leaves, l, 1, max)
  {
    forall x | x in leaves ensures x < |l| && 1 <= l[x] <= max {
      var i :| lo + 1 <= i < HEAP_SIZE && heap[i] == x;
      assert LengthOk(heap, l, elems, max, i);
    }
  }

  lemma SizeFits(leaves: set<nat>, elems: nat)
    requires forall x :: x in leaves ==> x < elems
    ensures |leaves| <= elems
  {
    SizeIs(leaves, elems);
    SizeAtMost(leaves, elems);
  }

  lemma {:induction false} SizeAtMost(s: set<nat>, n: nat)
    ensures SizeBelow(s, n) <= n
  {
    if n > 0 { SizeAtMost(s, n - 1); }
  }

  /** The longest length of the leaves. */
  ghost predicate LongestIs(leaves: set<nat>, l: seq<nat>, height: nat) {
    && (forall x :: x in leaves ==> x < |l| && l[x] <= height)
    && exists x :: x in leaves && x < |l| && l[x] == height
  }

  lemma LongestFits(leaves: set<nat>, l: seq<nat>, height: nat, max: nat)
    requires LongestIs(leaves, l, height) && Between(leaves, l, 1, max)
    ensures height <= max
  {
  }

  lemma LeavesAreLow(h: History, w: seq<nat>, l: seq<nat>, root: nat)
    requires Spans(h, l, root, h.leaves) && Greedy(h, w)
    ensures LongestIs(h.leaves, l, Height(h, root))
  {
    forall x | x in h.leaves ensures Height(h, x) == 0 {}
    hide Height;
  }

  /** Cut or not, the overflow is the excess. */
  lemma AfterPass(heap: seq<nat>, lo: nat, w: seq<nat>, dl: seq<nat>, h: History, root: nat, maxCode: int,
                  l: seq<nat>, max: nat, overflow: nat, cnt: seq<nat>)
    requires Built(heap, lo, w, dl, h, root) && 1 <= max <= MAX_BITS && h.elems <= Pow2(max)
    requires Passing(heap, lo, l, h.elems, max, HEAP_SIZE, overflow) && |l| == |w|
    requires LeavesIn(heap, lo + 1, HEAP_SIZE, maxCode) == h.leaves && Tally(cnt, h.leaves, l)
    ensures overflow == 0 ==> GoodLengths(h.leaves, w, l, max, cnt) && LowerBound(h.leaves, w, Cost(h.leaves, w, l))
    ensures overflow == 0 ==> LongestIs(h.leaves, l, Height(h, root))
    ensures overflow > 0 ==> Excess(cnt, max, overflow, |h.leaves|)
    ensures overflow == 0 <==> Height(h, root) <= max
  {
    hide LengthsTo, FathersFrom, LeavesIn, Recorded, Fathers, Decreasing, Greedy, Active, Tally, Kraft, Cost,
      Overflow, Depths, CutCount, Sum, IsCode, LowerBound, Monotone, LengthCount, CountKraft, Total, Pow2, LongestIs,
      Spans, Height;
    PassGivesDepths(heap, lo, w, dl, h, root, l, max);
    CutsAreOverflow(h, l, max, lo, 0);
    LeafLengths(heap, lo, l, h.elems, max, maxCode, h.leaves);
    ActiveFirst(h);
    if Height(h, root) <= max { LowIsUncut(h, w, l, root, max, 0); }
    OverflowIsExcess(h, w, l, root, max, 0);
    TallyKraft(cnt, h.leaves, l, max);
    if overflow == 0 {
      Optimal(h, w, l, root, max);
      AsCode(h.leaves, l, max);
      CheapestIsMonotone(h.leaves, w, l, max);
      LongestIsHeight(h, w, l, root, max, 0);
      LeavesAreLow(h, w, l, root);
      LongestFits(h.leaves, l, Height(h, root), max);
    } else {
      ManyLongest(h, w, l, root, max, 0);
      GreedyLeaves(h, w);
      SizeFits(h.leaves, h.elems);
      TallyAt(cnt, h.leaves, l, max);
    }
  }

  lemma ActiveFirst(h: History)
    ensures Active(h, 0) == h.leaves
  {
  }

  lemma GreedyLeaves(h: History, w: seq<nat>)
    requires Greedy(h, w)
    ensures forall x :: x in h.leaves ==> x < h.elems
  {
  }

  lemma TallyAt(cnt: seq<nat>, s: set<nat>, l: seq<nat>, b: nat)
    requires Tally(cnt, s, l) && b <= MAX_BITS
    ensures |cnt| == MAX_BITS + 1 && cnt[b] == LengthCount(s, l, b)
  {
  }

  lemma AsCode(s: set<nat>, l: seq<nat>, max: nat)
    requires Between(s, l, 1, max) && Kraft(s, l, max) == Pow2(max)
    ensures IsCode(s, l, max)
  {
  }

  /** Compute the lengths of the leaves.  The overflow returned is 0 when no
      length was cut, which is when the tree is not too high. */
  method GenBitlen(s: DeflateState, tree: Tree, ghost h: History, ghost root: nat) returns (overflow: nat)
    requires s.Valid() && tree.Valid() && s.Apart(tree) && h.elems == tree.desc.elems
    requires Built(s.heap[..], s.heapMax, tree.fc[..], tree.dl[..], h, root)
    requires IsMax(h.leaves, tree.maxCode) && tree.maxCode < h.elems
    modifies s.blCount, tree.dl, s`optLen, s`staticLen
    ensures GoodLengths(h.leaves, tree.fc[..], tree.dl[..], tree.desc.maxLength, s.blCount[..])
    ensures overflow == 0 ==> LowerBound(h.leaves, tree.fc[..], Cost(h.leaves, tree.fc[..], tree.dl[..]))
    ensures overflow == 0 ==> LongestIs(h.leaves, tree.dl[..], Height(h, root))
    ensures overflow == 0 <==> Height(h, root) <= tree.desc.maxLength
    ensures s.optLen == old(s.optLen) + LeafBits(tree.desc, h.leaves, tree.fc[..], tree.dl[..])
    ensures s.staticLen == old(s.staticLen) + StaticLeafBits(tree.desc, h.leaves, tree.fc[..])
    ensures SameUnused(old(tree.dl[..]), tree.dl[..], tree.desc.elems, h.leaves)
  {
    hide Built, GoodLengths, LowerBound, Cost, PassState, IsMax, Accounted, Shape, Excess, LeafBits, StaticLeafBits,
      Pow2, LongestIs, Height;
    ghost var dl0: seq<nat>, w: seq<nat> := tree.dl[..], tree.fc[..];
    BeginPass(s, tree, h, root);
    overflow := MeasureNodes(s, tree, h.leaves);
    ghost var l: seq<nat> := tree.dl[..];
    EndPass(tree.desc, s.heap[..], s.heapMax, w, dl0, h, root, tree.maxCode, l, overflow, s.blCount[..],
      s.optLen - old(s.optLen), s.staticLen - old(s.staticLen));
    if overflow == 0 { return; }
    RepairCounts(s, tree.desc.maxLength, overflow, |h.leaves|);
    HandOut(s, tree, h.leaves);
    EndRepair(h.leaves, w, tree.dl[..], tree.desc.maxLength, s.blCount[..]);
    LeafBitsDiffer(tree.desc, h.leaves, w, l, tree.dl[..]);
  }

  lemma LeafBitsDiffer(desc: StaticDesc, s: set<nat>, w: seq<nat>, l: seq<nat>, l': seq<nat>)
    requires DescOk(desc) && |w| == |l| == |l'|
    ensures LeafBits(desc, s, w, l') - LeafBits(desc, s, w, l) == Cost(s, w, l') - Cost(s, w, l)
  {
  }

  lemma EndRepair(leaves: set<nat>, w: seq<nat>, l: seq<nat>, max: nat, cnt: seq<nat>)
    requires Tally(cnt, leaves, l) && Between(leaves, l, 1, max) && Monotone(leaves, w, l) && |l| == |w|
    requires Excess(cnt, max, 0, |leaves|)
    ensures GoodLengths(leaves, w, l, max, cnt)
  {
    hide Tally, Between, Monotone, Kraft, CountKraft, Total, Pow2;
    TallyKraft(cnt, leaves, l, max);
  }

  lemma EndPass(desc: StaticDesc, heap: seq<nat>, lo: nat, w: seq<nat>, dl: seq<nat>, h: History, root: nat,
                maxCode: int, l: seq<nat>, overflow: nat, cnt: seq<nat>, opt: int, stat: int)
    requires DescOk(desc) && h.elems == desc.elems && Built(heap, lo, w, dl, h, root)
    requires PassState(desc, heap, lo, h.leaves, maxCode, w, l, cnt, HEAP_SIZE, overflow, opt, stat)
    ensures Shape(heap, lo, desc.elems, h.leaves, maxCode, w) && |l| == |w|
    ensures opt == LeafBits(desc, h.leaves, w, l) && stat == StaticLeafBits(desc, h.leaves, w)
    ensures overflow == 0 ==>
      GoodLengths(h.leaves, w, l, desc.maxLength, cnt) && LowerBound(h.leaves, w, Cost(h.leaves, w, l))
    ensures overflow == 0 ==> LongestIs(h.leaves, l, Height(h, root))
    ensures overflow > 0 ==> Excess(cnt, desc.maxLength, overflow, |h.leaves|)
    ensures overflow == 0 <==> Height(h, root) <= desc.maxLength
  {
    hide Built, Passing, LeafBits, StaticLeafBits, GoodLengths, LowerBound, Cost, Excess, Layout, Kinds, Decreasing,
      Tally, LeavesIn, LongestIs, Height;
    AfterPass(heap, lo, w, dl, h, root, maxCode, l, desc.maxLength, overflow, cnt);
  }

  /** Clear the counts; the root has length 0. */
  method BeginPass(s: DeflateState, tree: Tree, ghost h: History, ghost root: nat)
    requires s.Valid() && tree.Valid() && s.Apart(tree) && h.elems == tree.desc.elems
    requires Built(s.heap[..], s.heapMax, tree.fc[..], tree.dl[..], h, root)
    requires IsMax(h.leaves, tree.maxCode) && tree.maxCode < h.elems
    modifies s.blCount, tree.dl
    ensures SameUnused(old(tree.dl[..]), tree.dl[..], tree.desc.elems, h.leaves)
    ensures PassState(tree.desc, s.heap[..], s.heapMax, h.leaves, tree.maxCode, tree.fc[..], tree.dl[..], s.blCount[..],
              s.heapMax + 1, 0, 0, 0)
  {
    hide Shape, PassState, Built, IsMax;
    StartShape(s.heap[..], s.heapMax, tree.fc[..], tree.dl[..], h, root, tree.maxCode);
    ghost var dl0: seq<nat> := tree.dl[..];
    for bits := 0 to MAX_BITS + 1
      invariant tree.dl[..] == dl0
      invariant forall b :: 0 <= b < bits ==> s.blCount[b] == 0
    {
      s.blCount[bits] := 0;
    }
    tree.dl[s.heap[s.heapMax]] := 0;
    assert tree.dl[..] == dl0[root := 0];
    StartPass(tree.desc, s.heap[..], s.heapMax, tree.fc[..], dl0, h, root, tree.maxCode, s.blCount[..]);
  }

  lemma StartShape(heap: seq<nat>, lo: nat, w: seq<nat>, dl: seq<nat>, h: History, root: nat, maxCode: int)
    requires Built(heap, lo, w, dl, h, root) && IsMax(h.leaves, maxCode) && maxCode < h.elems
    ensures Shape(heap, lo, h.elems, h.leaves, maxCode, w)
    ensures lo < |heap| && heap[lo] == root < |dl| && root >= h.elems
  {
    hide Greedy, Recorded, Fathers, Active, Layout, Kinds, LeavesIn, Decreasing;
    BuiltLayout(heap, lo, w, dl, h, root);
    AllLeaves(heap, lo, w, dl, h, root, maxCode);
    RootIsLast(h, w, root);
  }

  lemma StartPass(desc: StaticDesc, heap: seq<nat>, lo: nat, w: seq<nat>, dl: seq<nat>, h: History, root: nat,
                  maxCode: int, cnt: seq<nat>)
    requires DescOk(desc) && h.elems == desc.elems
    requires Built(heap, lo, w, dl, h, root) && Shape(heap, lo, h.elems, h.leaves, maxCode, w) && root < |dl|
    requires |cnt| == MAX_BITS + 1 && forall b :: 0 <= b <= MAX_BITS ==> cnt[b] == 0
    ensures PassState(desc, heap, lo, h.leaves, maxCode, w, dl[root := 0], cnt, lo + 1, 0, 0, 0)
  {
    hide Greedy, Recorded, Fathers, Active, Kinds, LeavesIn, Decreasing, FathersFrom, Distinct, FatherBefore, Accounted;
    FathersStart(heap, lo, w, dl, h, root);
    AccountNone(desc, w, dl[root := 0], cnt);
    LeavesNone(heap, lo + 1, maxCode);
  }
}
