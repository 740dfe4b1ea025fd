/** The second half of gen_bitlen (deps/libz/trees.c), needed when lengths were
    cut: repair the counts, then hand the lengths out again. */
module RepairLengths {
  import opened Bits
  import opened Optimality
  import opened TreeBuilder
  import opened HeapLayout
  import opened BitLengths
  import opened LengthPass

  // ---- Repairing the counts ----

  /** The Kraft sum exceeds 1 by overflow / 2 units of 2^-max, and enough codes
      of length max are left to take that many away. */
  ghost predicate Excess(cnt: seq<nat>, max: nat, overflow: nat, total: nat) {
    && 1 <= max <= MAX_BITS && |cnt| == MAX_BITS + 1
    && overflow % 2 == 0 && CountKraft(cnt, max, max) == Pow2(max) + overflow / 2
    && Total(cnt, max) == total <= Pow2(max) && cnt[max] >= overflow / 2 + 1
    && forall k :: 0 <= k <= MAX_BITS && (k == 0 || k > max) ==> cnt[k] == 0
  }

  lemma ExcessTurn(cnt: seq<nat>, max: nat, overflow: nat, total: nat, b: nat)
    requires Excess(cnt, max, overflow, total) && overflow > 0 && 1 <= b < max && cnt[b] > 0
    ensures cnt[max] > 0 && overflow >= 2 && Excess(Repaired(cnt, max, b), max, overflow - 2, total)
  {
    RepairTurn(cnt, max, b);
    hide CountKraft, Total, Pow2, Repaired;
  }

  lemma ExcessShort(cnt: seq<nat>, max: nat, overflow: nat, total: nat)
    requires Excess(cnt, max, overflow, total) && overflow > 0
    ensures max >= 2 && exists b :: 1 <= b < max && cnt[b] > 0
  {
    hide CountKraft, Total, Pow2;
    var b := SomeShort(cnt, max);
  }

  method RepairCounts(s: DeflateState, max: nat, overflow0: nat, ghost total: nat)
    requires s.Valid() && overflow0 > 0 && Excess(s.blCount[..], max, overflow0, total)
    modifies s.blCount
    ensures Excess(s.blCount[..], max, 0, total)
  {
    var overflow := overflow0;
    while overflow > 0
      invariant Excess(s.blCount[..], max, overflow, total)
      decreases overflow
    {
      hide CountKraft, Total, Pow2;
      ghost var cnt: seq<nat> := s.blCount[..];
      ExcessShort(cnt, max, overflow, total);
      var bits := max - 1;
      while s.blCount[bits] == 0
        invariant 1 <= bits < max && s.blCount[..] == cnt
        invariant exists b :: 1 <= b <= bits && cnt[b] > 0
        decreases bits
      {
        bits := bits - 1;
      }
      ExcessTurn(cnt, max, overflow, total, bits);
      s.blCount[bits] := s.blCount[bits] - 1;
      s.blCount[bits + 1] := s.blCount[bits + 1] + 2;
      s.blCount[max] := s.blCount[max] - 1;
      assert s.blCount[..] == Repaired(cnt, max, bits);
      overflow := overflow - 2;
    }
  }

  // ---- Handing out the lengths ----

  /** Counts longer than bits are used up; n codes of length bits remain. */
  ghost predicate Assigned(cnt: seq<nat>, done: set<nat>, l: seq<nat>, bits: nat, n: nat) {
    && |cnt| == MAX_BITS + 1 && bits <= MAX_BITS && n <= cnt[bits]
    && forall b :: 0 <= b <= MAX_BITS ==>
      LengthCount(done, l, b) == (if b > bits then cnt[b] else if b == bits then cnt[b] - n else 0)
  }

  lemma AssignOne(cnt: seq<nat>, done: set<nat>, l: seq<nat>, bits: nat, n: nat, m: nat)
    requires Assigned(cnt, done, l, bits, n) && n > 0 && m !in done && m < |l|
    ensures Assigned(cnt, done + {m}, l[m := bits], bits, n - 1)
  {
    hide LengthCount;
    var done', l' := done + {m}, l[m := bits];
    forall b | 0 <= b <= MAX_BITS
      ensures LengthCount(done', l', b) == LengthCount(done, l, b) + (if b == bits then 1 else 0)
    {
      CountAdd(done, l, m, bits, b);
    }
  }

  lemma AssignStart(cnt: seq<nat>, l: seq<nat>, max: nat)
    requires |cnt| == MAX_BITS + 1 && max <= MAX_BITS && forall b :: max < b <= MAX_BITS ==> cnt[b] == 0
    ensures Assigned(cnt, {}, l, max, cnt[max])
  {
    hide LengthCount;
    forall b | 0 <= b <= MAX_BITS ensures LengthCount({}, l, b) == 0 { CountNone(l, b); }
  }

  lemma {:induction false} TotalLess(c: seq<nat>, cnt: seq<nat>, p: nat, b: nat)
    requires b < |c| == |cnt| && 1 <= p < |c| && c[p] < cnt[p]
    requires forall k :: 1 <= k <= b ==> c[k] <= cnt[k]
    ensures Total(c, b) <= Total(cnt, b) && (p <= b ==> Total(c, b) < Total(cnt, b))
  {
    if b > 0 { TotalLess(c, cnt, p, b - 1); }
  }

  /** While counts remain, leaves remain. */
  lemma RoomLeft(cnt: seq<nat>, done: set<nat>, l: seq<nat>, bits: nat, n: nat, max: nat)
    requires Assigned(cnt, done, l, bits, n) && n > 0 && 1 <= bits <= max <= MAX_BITS && Between(done, l, 1, max)
    ensures |done| < Total(cnt, max)
  {
    hide LengthCount, CountKraft, Total;
    var c := CountsOfSet(done, l, max);
    TotalLess(c, cnt, bits, max);
  }

  lemma CountsOfSet(s: set<nat>, l: seq<nat>, max: nat) returns (c: seq<nat>)
    requires 1 <= max <= MAX_BITS && Between(s, l, 1, max)
    ensures Tally(c, s, l) && Total(c, max) == |s|
  {
    c := CountsOf(s, l, max, |l|);
    SizeIs(s, |l|);
  }

  lemma AllAssigned(cnt: seq<nat>, done: set<nat>, leaves: set<nat>, l: seq<nat>, max: nat)
    requires Assigned(cnt, done, l, 0, 0) && cnt[0] == 0 && 1 <= max <= MAX_BITS && Between(done, l, 1, max)
    requires done <= leaves && |leaves| == Total(cnt, max)
    ensures done == leaves && Tally(cnt, leaves, l)
  {
    hide LengthCount, CountKraft, Total;
    var c := CountsOfSet(done, l, max);
    assert c == cnt;
    SubsetSize(done, leaves);
  }

  lemma SubsetSize(a: set<nat>, b: set<nat>)
    requires a <= b
    ensures |a| <= |b| && (|a| == |b| ==> a == b)
  {
    DisjointSize(a, b - a);
    assert a + (b - a) == b;
    if |a| == |b| { assert b - a == {}; }
  }

  /** Less frequent symbols never have shorter codes. */
  ghost predicate Monotone(s: set<nat>, w: seq<nat>, l: seq<nat>) {
    forall x, y :: x in s && y in s && x < |w| && y < |w| && x < |l| && y < |l| && w[x] < w[y] ==> l[x] >= l[y]
  }

  /** Leaves from index h of the heap array on have been given length bits or
      more, n of them are still due; opt is the cost of all lengths. */
  ghost predicate Handing(heap: seq<nat>, lo: nat, elems: nat, leaves: set<nat>, maxCode: int, w: seq<nat>,
                          l: seq<nat>, cnt: seq<nat>, max: nat, h: nat, bits: nat, n: nat) {
    && Shape(heap, lo, elems, leaves, maxCode, w) && |l| == |w| && lo < h <= HEAP_SIZE
    && bits <= max && 1 <= max <= MAX_BITS && |cnt| == MAX_BITS + 1 && cnt[0] == 0 && |leaves| == Total(cnt, max)
    && var done := LeavesIn(heap, h, HEAP_SIZE, maxCode);
    && Assigned(cnt, done, l, bits, n) && Between(done, l, bits, max) && Between(done, l, 1, max)
    && Monotone(done, w, l)
  }

  lemma HandingMore(heap: seq<nat>, lo: nat, elems: nat, leaves: set<nat>, maxCode: int, w: seq<nat>,
                    l: seq<nat>, cnt: seq<nat>, max: nat, h: nat, bits: nat, n: nat)
    requires Handing(heap, lo, elems, leaves, maxCode, w, l, cnt, max, h, bits, n) && n > 0 && bits > 0
    ensures h > lo + 1 && heap[h - 1] < |l|
  {
    hide LeavesIn, Assigned, Total, Monotone, Layout, Decreasing;
    RoomLeft(cnt, LeavesIn(heap, h, HEAP_SIZE, maxCode), l, bits, n, max);
  }

  /** A leaf before the ones done is at least as frequent. */
  lemma Heavier(heap: seq<nat>, lo: nat, maxCode: int, w: seq<nat>, h: nat)
    requires Decreasing(heap, lo, w) && |heap| == HEAP_SIZE && lo < h <= HEAP_SIZE
    ensures heap[h - 1] < |w|
    ensures forall x :: x in LeavesIn(heap, h, HEAP_SIZE, maxCode) ==> x < |w| && w[heap[h - 1]] >= w[x]
  {
  }

  lemma MonotoneAdd(s: set<nat>, w: seq<nat>, l: seq<nat>, m: nat, bits: nat, max: nat)
    requires Monotone(s, w, l) && m !in s && m < |w| == |l| && Between(s, l, bits, max) && bits <= max
    requires forall x :: x in s ==> x < |w| && w[m] >= w[x]
    ensures Monotone(s + {m}, w, l[m := bits])
    ensures Between(s + {m}, l[m := bits], bits, max)
  {
  }

  lemma BeforeFirst(heap: seq<nat>, lo: nat, elems: nat, maxCode: int, h: nat)
    requires Layout(heap, lo, elems) && lo + 1 < h <= HEAP_SIZE
    ensures heap[h - 1] !in LeavesIn(heap, h, HEAP_SIZE, maxCode)
    ensures heap[h - 1] > maxCode ==> LeavesIn(heap, h - 1, HEAP_SIZE, maxCode) == LeavesIn(heap, h, HEAP_SIZE, maxCode)
    ensures heap[h - 1] <= maxCode ==>
      LeavesIn(heap, h - 1, HEAP_SIZE, maxCode) == LeavesIn(heap, h, HEAP_SIZE, maxCode) + {heap[h - 1]}
  {
    LeavesBefore(heap, lo, h, HEAP_SIZE, maxCode);
    hide LeavesIn;
  }

  lemma HandingSkip(heap: seq<nat>, lo: nat, elems: nat, leaves: set<nat>, maxCode: int, w: seq<nat>,
                    l: seq<nat>, cnt: seq<nat>, max: nat, h: nat, bits: nat, n: nat)
    requires Handing(heap, lo, elems, leaves, maxCode, w, l, cnt, max, h, bits, n) && h > lo + 1
    requires heap[h - 1] > maxCode
    ensures Handing(heap, lo, elems, leaves, maxCode, w, l, cnt, max, h - 1, bits, n)
  {
    hide LeavesIn, Assigned, Total, Monotone, Layout, Decreasing, Between;
    BeforeFirst(heap, lo, elems, maxCode, h);
  }

  lemma HandingOne(heap: seq<nat>, lo: nat, elems: nat, leaves: set<nat>, maxCode: int, w: seq<nat>,
                   l: seq<nat>, cnt: seq<nat>, max: nat, h: nat, bits: nat, n: nat)
    requires Handing(heap, lo, elems, leaves, maxCode, w, l, cnt, max, h, bits, n) && h > lo + 1 && n > 0 && bits > 0
    requires heap[h - 1] <= maxCode
    ensures heap[h - 1] < |l| && heap[h - 1] in leaves
    ensures Handing(heap, lo, elems, leaves, maxCode, w, l[heap[h - 1] := bits], cnt, max, h - 1, bits, n - 1)
  {
    hide LeavesIn, Assigned, Total, Monotone, Layout, Decreasing, Between;
    var m, done := heap[h - 1], LeavesIn(heap, h, HEAP_SIZE, maxCode);
    BeforeFirst(heap, lo, elems, maxCode, h);
    Heavier(heap, lo, maxCode, w, h);
    AssignOne(cnt, done, l, bits, n, m);
    MonotoneAdd(done, w, l, m, bits, max);
    Loosen(done + {m}, l[m := bits], bits, max);
  }

  lemma Loosen(s: set<nat>, l: seq<nat>, bits: nat, max: nat)
    requires Between(s, l, bits, max)
    ensures bits > 0 ==> Between(s, l, 1, max)
  {
  }

  lemma HandingNext(heap: seq<nat>, lo: nat, elems: nat, leaves: set<nat>, maxCode: int, w: seq<nat>,
                    l: seq<nat>, cnt: seq<nat>, max: nat, h: nat, bits: nat)
    requires Handing(heap, lo, elems, leaves, maxCode, w, l, cnt, max, h, bits, 0) && bits > 0
    ensures Handing(heap, lo, elems, leaves, maxCode, w, l, cnt, max, h, bits - 1, cnt[bits - 1])
  {
    hide LeavesIn, Total, Monotone, Layout, Decreasing, Kinds, LengthCount;
  }

  lemma HandingStart(heap: seq<nat>, lo: nat, elems: nat, leaves: set<nat>, maxCode: int, w: seq<nat>,
                     l: seq<nat>, cnt: seq<nat>, max: nat)
    requires Shape(heap, lo, elems, leaves, maxCode, w) && |l| == |w| && Excess(cnt, max, 0, |leaves|)
    ensures Handing(heap, lo, elems, leaves, maxCode, w, l, cnt, max, HEAP_SIZE, max, cnt[max])
  {
    hide Total, Distinct, FatherBefore, Decreasing, Kinds, LengthCount, CountKraft;
    LeavesNone(heap, HEAP_SIZE, maxCode);
    AssignStart(cnt, l, max);
  }

  lemma HandingDone(heap: seq<nat>, lo: nat, elems: nat, leaves: set<nat>, maxCode: int, w: seq<nat>,
                    l: seq<nat>, cnt: seq<nat>, max: nat, h: nat)
    requires Handing(heap, lo, elems, leaves, maxCode, w, l, cnt, max, h, 0, 0)
    ensures Tally(cnt, leaves, l) && Between(leaves, l, 1, max) && Monotone(leaves, w, l)
  {
    var done := LeavesIn(heap, h, HEAP_SIZE, maxCode);
    assert done <= LeavesIn(heap, lo + 1, HEAP_SIZE, maxCode);
    hide LeavesIn, Total, Monotone, Layout, Decreasing, Kinds, LengthCount;
    AllAssigned(cnt, done, leaves, l, max);
  }

  lemma HandingBounds(heap: seq<nat>, lo: nat, elems: nat, leaves: set<nat>, maxCode: int, w: seq<nat>,
                      l: seq<nat>, cnt: seq<nat>, max: nat, h: nat, bits: nat, n: nat)
    requires Handing(heap, lo, elems, leaves, maxCode, w, l, cnt, max, h, bits, n)
    ensures h <= HEAP_SIZE && bits <= MAX_BITS && |cnt| == MAX_BITS + 1 && cnt[0] == 0
  {
  }

  method HandOut(s: DeflateState, tree: Tree, ghost leaves: set<nat>)
    requires s.Valid() && tree.Valid() && s.Apart(tree)
    requires Shape(s.heap[..], s.heapMax, tree.desc.elems, leaves, tree.maxCode, tree.fc[..])
    requires tree.desc.maxLength <= MAX_BITS && Excess(s.blCount[..], tree.desc.maxLength, 0, |leaves|)
    modifies tree.dl, s`optLen
    ensures Tally(s.blCount[..], leaves, tree.dl[..]) && Between(leaves, tree.dl[..], 1, tree.desc.maxLength)
    ensures Monotone(leaves, tree.fc[..], tree.dl[..])
    ensures SameUnused(old(tree.dl[..]), tree.dl[..], tree.desc.elems, leaves)
    ensures s.optLen - Cost(leaves, tree.fc[..], tree.dl[..]) == old(s.optLen - Cost(leaves, tree.fc[..], tree.dl[..]))
  {
    hide Handing, Shape, Excess, Tally, Between, Monotone, Cost;
    ghost var w, c := tree.fc[..], s.blCount[..];
    HandingStart(s.heap[..], s.heapMax, tree.desc.elems, leaves, tree.maxCode, w, tree.dl[..], c, tree.desc.maxLength);
    var h := HEAP_SIZE;
    var bits: nat := tree.desc.maxLength;
    HandingBounds(s.heap[..], s.heapMax, tree.desc.elems, leaves, tree.maxCode, w, tree.dl[..], c, tree.desc.maxLength,
      h, bits, c[bits]);
    while bits != 0
      invariant bits <= MAX_BITS
      invariant Handing(s.heap[..], s.heapMax, tree.desc.elems, leaves, tree.maxCode, tree.fc[..], tree.dl[..],
                  s.blCount[..], tree.desc.maxLength, h, bits, s.blCount[bits])
      invariant SameUnused(old(tree.dl[..]), tree.dl[..], tree.desc.elems, leaves)
      invariant s.optLen - Cost(leaves, tree.fc[..], tree.dl[..])
        == old(s.optLen - Cost(leaves, tree.fc[..], tree.dl[..]))
    {
      h := HandOutLength(s, tree, leaves, h, bits);
      HandingNext(s.heap[..], s.heapMax, tree.desc.elems, leaves, tree.maxCode, w, tree.dl[..], c, tree.desc.maxLength,
        h, bits);
      bits := bits - 1;
    }
    HandingDone(s.heap[..], s.heapMax, tree.desc.elems, leaves, tree.maxCode, w, tree.dl[..], c, tree.desc.maxLength,
      h);
  }

  method HandOutLength(s: DeflateState, tree: Tree, ghost leaves: set<nat>, h0: nat, bits: nat) returns (h: nat)
    requires s.Valid() && tree.Valid() && s.Apart(tree) && 0 < bits <= MAX_BITS
    requires Handing(s.heap[..], s.heapMax, tree.desc.elems, leaves, tree.maxCode, tree.fc[..], tree.dl[..],
               s.blCount[..], tree.desc.maxLength, h0, bits, s.blCount[bits])
    modifies tree.dl, s`optLen
    ensures Handing(s.heap[..], s.heapMax, tree.desc.elems, leaves, tree.maxCode, tree.fc[..], tree.dl[..],
              s.blCount[..], tree.desc.maxLength, h, bits, 0)
    ensures SameUnused(old(tree.dl[..]), tree.dl[..], tree.desc.elems, leaves)
    ensures s.optLen - Cost(leaves, tree.fc[..], tree.dl[..]) == old(s.optLen - Cost(leaves, tree.fc[..], tree.dl[..]))
  {
    hide Handing, Cost;
    h := h0;
    var n: nat := s.blCount[bits];
    ghost var w, c := tree.fc[..], s.blCount[..];
    HandingBounds(s.heap[..], s.heapMax, tree.desc.elems, leaves, tree.maxCode, w, tree.dl[..], c, tree.desc.maxLength,
      h, bits, n);
    while n != 0
      invariant h <= HEAP_SIZE
      invariant Handing(s.heap[..], s.heapMax, tree.desc.elems, leaves, tree.maxCode, tree.fc[..], tree.dl[..],
                  s.blCount[..], tree.desc.maxLength, h, bits, n)
      invariant SameUnused(old(tree.dl[..]), tree.dl[..], tree.desc.elems, leaves)
      invariant s.optLen - Cost(leaves, tree.fc[..], tree.dl[..])
        == old(s.optLen - Cost(leaves, tree.fc[..], tree.dl[..]))
      decreases h
    {
      ghost var l: seq<nat> := tree.dl[..];
      HandingMore(s.heap[..], s.heapMax, tree.desc.elems, leaves, tree.maxCode, w, l, c, tree.desc.maxLength, h, bits,
        n);
      h := h - 1;
      var m := s.heap[h];
      if m > tree.maxCode {
        HandingSkip(s.heap[..], s.heapMax, tree.desc.elems, leaves, tree.maxCode, w, l, c, tree.desc.maxLength, h + 1,
          bits, n);
        continue;
      }
      HandingOne(s.heap[..], s.heapMax, tree.desc.elems, leaves, tree.maxCode, w, l, c, tree.desc.maxLength, h + 1,
        bits, n);
      CostSet(leaves, w, l, m, bits);
      if tree.dl[m] != bits {
        s.optLen := s.optLen + (bits - tree.dl[m]) * tree.fc[m];
        tree.dl[m] := bits;
      }
      assert tree.dl[..] == l[m := bits];
      n := n - 1;
    }
  }
}
