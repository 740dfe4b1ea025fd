/** gen_bitlen (deps/libz/trees.c): the lengths of the leaves, cut to the longest
    length allowed and then repaired so that they form a complete code. */
module LengthPass {
  import opened Optimality
  import opened TreeBuilder
  import opened HeapLayout
  import opened BitLengths
  import opened FirstPass

  // ---- What the statistics add up to ----

  /** Extra bits of every symbol. */
  function ExtraBits(desc: StaticDesc, n: nat): (x: seq<nat>)
    requires DescOk(desc)
    ensures |x| == n
  {
    seq(n, i requires 0 <= i < n => if desc.base <= i < desc.elems then desc.extra[i - desc.base] else 0)
  }

  function StaticLengths(desc: StaticDesc, n: nat): (x: seq<nat>)
    requires DescOk(desc) && desc.stree != []
    ensures |x| == n
  {
    seq(n, i requires 0 <= i < n => if i < |desc.stree| then desc.stree[i] else 0)
  }

  /** Bits of the block when the symbols of s have lengths l, extra bits included. */
  function LeafBits(desc: StaticDesc, s: set<nat>, w: seq<nat>, l: seq<nat>): int
    requires DescOk(desc) && |w| == |l|
  {
    Cost(s, w, l) + Cost(s, w, ExtraBits(desc, |w|))
  }

  function StaticLeafBits(desc: StaticDesc, s: set<nat>, w: seq<nat>): int
    requires DescOk(desc)
  {
    if desc.stree == [] then 0 else LeafBits(desc, s, w, StaticLengths(desc, |w|))
  }

  lemma CostAdd(s: set<nat>, w: seq<nat>, l: seq<nat>, n: nat, bits: nat)
    requires |w| == |l| && n < |l| && n !in s
    ensures Cost(s, w, l[n := bits]) == Cost(s, w, l)
    ensures Cost(s + {n}, w, l[n := bits]) == Cost(s, w, l) + w[n] * bits
  {
    var f: seq<int> := Products(w, l[n := bits]);
    SumAdd(s, f, |w|, n);
    SumSame(s, f, Products(w, l), |w|);
  }

  lemma CostNone(w: seq<nat>, l: seq<nat>)
    requires |w| == |l|
    ensures Cost({}, w, l) == 0
  {
    SumEmpty(Products(w, l), |w|);
  }

  lemma CostSet(s: set<nat>, w: seq<nat>, l: seq<nat>, p: nat, v: nat)
    requires |w| == |l| && p < |l| && p in s
    ensures Cost(s, w, l[p := v]) == Cost(s, w, l) + (v - l[p]) * w[p]
  {
    var f: seq<int> := Products(w, l[p := v]);
    assert f == Products(w, l)[p := w[p] * v];
    SumUpdate(s, Products(w, l), |w|, p, w[p] * v);
  }

  lemma TallySkip(cnt: seq<nat>, s: set<nat>, l: seq<nat>, n: nat, bits: nat)
    requires Tally(cnt, s, l) && n !in s && n < |l|
    ensures Tally(cnt, s, l[n := bits])
  {
    forall b | 0 <= b <= MAX_BITS
      ensures cnt[b] == LengthCount(s, l[n := bits], b)
    {
      SumSame(s, HasLength(l[n := bits], b), HasLength(l, b), |l|);
    }
  }

  lemma BlockAdd(desc: StaticDesc, s: set<nat>, w: seq<nat>, l: seq<nat>, n: nat, bits: nat)
    requires DescOk(desc) && |w| == |l| && n < desc.elems && n < |l| && n !in s
    ensures LeafBits(desc, s + {n}, w, l[n := bits])
         == LeafBits(desc, s, w, l) + w[n] * (bits + if n >= desc.base then desc.extra[n - desc.base] else 0)
  {
    var x := ExtraBits(desc, |w|);
    CostAdd(s, w, l, n, bits);
    CostAdd(s, w, x, n, x[n]);
    assert x[n := x[n]] == x;
    hide Cost;
    assert w[n] * (bits + x[n]) == w[n] * bits + w[n] * x[n];
  }

  /** The heap array from the root on, and the leaves in it. */
  ghost predicate Shape(heap: seq<nat>, lo: nat, elems: nat, leaves: set<nat>, maxCode: int, w: seq<nat>) {
    && |heap| == HEAP_SIZE && Layout(heap, lo, elems) && Kinds(heap, lo, elems, leaves, maxCode)
    && LeavesIn(heap, lo + 1, HEAP_SIZE, maxCode) == leaves
    && Decreasing(heap, lo, w) && |w| == 2 * elems + 1 && 0 <= maxCode < elems
  }

  /** The statistics of the leaves done so far, and their bits. */
  ghost predicate Accounted(desc: StaticDesc, done: set<nat>, w: seq<nat>, l: seq<nat>, cnt: seq<nat>, opt: int,
                            stat: int) {
    && DescOk(desc) && |w| == |l|
    && Tally(cnt, done, l) && opt == LeafBits(desc, done, w, l) && stat == StaticLeafBits(desc, done, w)
  }

  lemma AccountNone(desc: StaticDesc, w: seq<nat>, l: seq<nat>, cnt: seq<nat>)
    requires DescOk(desc) && |w| == |l| && |cnt| == MAX_BITS + 1 && forall b :: 0 <= b <= MAX_BITS ==> cnt[b] == 0
    ensures Accounted(desc, {}, w, l, cnt, 0, 0)
  {
    TallyNone(cnt, l);
    CostNone(w, l);
    CostNone(w, ExtraBits(desc, |w|));
    if desc.stree != [] { CostNone(w, StaticLengths(desc, |w|)); }
  }

  lemma AccountLeaf(desc: StaticDesc, done: set<nat>, w: seq<nat>, l: seq<nat>, cnt: seq<nat>, opt: int, stat: int,
                    n: nat, bits: nat)
    requires Accounted(desc, done, w, l, cnt, opt, stat) && n !in done && n < desc.elems && n < |l| && bits <= MAX_BITS
    ensures var xbits := if n >= desc.base then desc.extra[n - desc.base] else 0;
            Accounted(desc, done + {n}, w, l[n := bits], cnt[bits := cnt[bits] + 1], opt + w[n] * (bits + xbits),
              stat + if desc.stree == [] then 0 else w[n] * (desc.stree[n] + xbits))
  {
    hide Tally, LeafBits;
    TallyAdd(cnt, done, l, n, bits);
    BlockAdd(desc, done, w, l, n, bits);
    if desc.stree != [] {
      var x := StaticLengths(desc, |w|);
      BlockAdd(desc, done, w, x, n, x[n]);
      assert x[n := x[n]] == x;
    }
  }

  lemma AccountSkip(desc: StaticDesc, done: set<nat>, w: seq<nat>, l: seq<nat>, cnt: seq<nat>, opt: int, stat: int,
                    n: nat, bits: nat)
    requires Accounted(desc, done, w, l, cnt, opt, stat) && n !in done && n < |l|
    ensures Accounted(desc, done, w, l[n := bits], cnt, opt, stat)
  {
    TallySkip(cnt, done, l, n, bits);
    CostAdd(done, w, l, n, bits);
  }

  // ---- The first pass ----

  /** All that holds while the nodes before index i of the heap array are done. */
  ghost predicate PassState(desc: StaticDesc, heap: seq<nat>, lo: nat, leaves: set<nat>, maxCode: int, w: seq<nat>,
                            l: seq<nat>, cnt: seq<nat>, i: nat, overflow: nat, opt: int, stat: int) {
    && Shape(heap, lo, desc.elems, leaves, maxCode, w) && |l| == |w| && lo < i <= HEAP_SIZE
    && 1 <= desc.maxLength <= MAX_BITS
    && Passing(heap, lo, l, desc.elems, desc.maxLength, i, overflow)
    && Accounted(desc, LeavesIn(heap, lo + 1, i, maxCode), w, l, cnt, opt, stat)
  }

  lemma PassFacts(desc: StaticDesc, heap: seq<nat>, lo: nat, leaves: set<nat>, maxCode: int, w: seq<nat>,
                  l: seq<nat>, cnt: seq<nat>, i: nat, overflow: nat, opt: int, stat: int)
    requires PassState(desc, heap, lo, leaves, maxCode, w, l, cnt, i, overflow, opt, stat) && i < HEAP_SIZE
    ensures |heap| == HEAP_SIZE && heap[i] < |l| && l[heap[i]] < |l| && l[l[heap[i]]] <= desc.maxLength
    ensures 1 <= desc.maxLength <= MAX_BITS && DescOk(desc) && |cnt| == MAX_BITS + 1 && maxCode < desc.elems <= |w|
    ensures heap[i] <= maxCode <==> heap[i] in leaves
    ensures heap[i] > maxCode ==> heap[i] >= desc.elems
  {
    hide Layout, Decreasing, Passing, LeavesIn, Accounted;
    PassStep(heap, lo, l, desc.elems, desc.maxLength, i, overflow);
    AccountFacts(desc, LeavesIn(heap, lo + 1, i, maxCode), w, l, cnt, opt, stat);
  }

  /** What the first pass gives node i. */
  ghost predicate Measured(desc: StaticDesc, heap: seq<nat>, l: seq<nat>, i: nat, bits: nat, cut: nat)
    requires i < |heap| && heap[i] < |l| && l[heap[i]] < |l|
  {
    && bits == Cut(l[l[heap[i]]] + 1, desc.maxLength) <= MAX_BITS
    && cut == if l[l[heap[i]]] + 1 > desc.maxLength then 1 else 0
  }

  lemma PassInner(desc: StaticDesc, heap: seq<nat>, lo: nat, leaves: set<nat>, maxCode: int, w: seq<nat>,
                  l: seq<nat>, cnt: seq<nat>, i: nat, overflow: nat, opt: int, stat: int, bits: nat, cut: nat)
    requires PassState(desc, heap, lo, leaves, maxCode, w, l, cnt, i, overflow, opt, stat)
    requires i < HEAP_SIZE == |heap| && heap[i] < |l| && l[heap[i]] < |l|
    requires Measured(desc, heap, l, i, bits, cut) && heap[i] > maxCode
    ensures PassState(desc, heap, lo, leaves, maxCode, w, l[heap[i] := bits], cnt, i + 1, overflow + cut, opt, stat)
  {
    hide Layout, Decreasing, Passing, LeavesIn, Accounted;
    PassStep(heap, lo, l, desc.elems, desc.maxLength, i, overflow);
    NextLeaf(heap, lo, desc.elems, maxCode, i);
    AccountSkip(desc, LeavesIn(heap, lo + 1, i, maxCode), w, l, cnt, opt, stat, heap[i], bits);
  }

  lemma PassLeaf(desc: StaticDesc, heap: seq<nat>, lo: nat, leaves: set<nat>, maxCode: int, w: seq<nat>, l: seq<nat>,
                 cnt: seq<nat>, i: nat, overflow: nat, opt: int, stat: int, bits: nat, cut: nat, xbits: nat)
    requires PassState(desc, heap, lo, leaves, maxCode, w, l, cnt, i, overflow, opt, stat)
    requires DescOk(desc) && maxCode < desc.elems <= |w| && |cnt| == MAX_BITS + 1
    requires i < HEAP_SIZE == |heap| && heap[i] < |l| && l[heap[i]] < |l|
    requires Measured(desc, heap, l, i, bits, cut) && heap[i] <= maxCode
    requires xbits == if heap[i] >= desc.base then desc.extra[heap[i] - desc.base] else 0
    ensures PassState(desc, heap, lo, leaves, maxCode, w, l[heap[i] := bits], cnt[bits := cnt[bits] + 1], i + 1,
              overflow + cut, opt + w[heap[i]] * (bits + xbits),
              stat + if desc.stree == [] then 0 else w[heap[i]] * (desc.stree[heap[i]] + xbits))
  {
    hide Layout, Decreasing, Passing, LeavesIn, Accounted;
    PassStep(heap, lo, l, desc.elems, desc.maxLength, i, overflow);
    NextLeaf(heap, lo, desc.elems, maxCode, i);
    AccountLeaf(desc, LeavesIn(heap, lo + 1, i, maxCode), w, l, cnt, opt, stat, heap[i], bits);
  }

  lemma AccountFacts(desc: StaticDesc, done: set<nat>, w: seq<nat>, l: seq<nat>, cnt: seq<nat>, opt: int, stat: int)
    requires Accounted(desc, done, w, l, cnt, opt, stat)
    ensures DescOk(desc) && |cnt| == MAX_BITS + 1 && |l| == |w|
  {
  }

  lemma NextLeaf(heap: seq<nat>, lo: nat, elems: nat, maxCode: int, i: nat)
    requires Layout(heap, lo, elems) && lo < i < HEAP_SIZE
    ensures heap[i] !in LeavesIn(heap, lo + 1, i, maxCode)
    ensures heap[i] > maxCode ==> LeavesIn(heap, lo + 1, i + 1, maxCode) == LeavesIn(heap, lo + 1, i, maxCode)
    ensures heap[i] <= maxCode ==>
      LeavesIn(heap, lo + 1, i + 1, maxCode) == LeavesIn(heap, lo + 1, i, maxCode) + {heap[i]}
  {
    LeavesNext(heap, lo, lo + 1, i, maxCode);
    hide LeavesIn;
  }

  /** The first pass: set every length from the father's, and count. */
  method MeasureNodes(s: DeflateState, tree: Tree, ghost leaves: set<nat>) returns (overflow: nat)
    requires s.Valid() && tree.Valid() && s.Apart(tree) && tree.desc.maxLength <= MAX_BITS
    requires PassState(tree.desc, s.heap[..], s.heapMax, leaves, tree.maxCode, tree.fc[..], tree.dl[..], s.blCount[..],
               s.heapMax + 1, 0, 0, 0)
    modifies s.blCount, tree.dl, s`optLen, s`staticLen
    ensures SameUnused(old(tree.dl[..]), tree.dl[..], tree.desc.elems, leaves)
    ensures PassState(tree.desc, s.heap[..], s.heapMax, leaves, tree.maxCode, tree.fc[..], tree.dl[..], s.blCount[..],
              HEAP_SIZE, overflow, s.optLen - old(s.optLen), s.staticLen - old(s.staticLen))
  {
    hide PassState;
    PassBounds(tree.desc, s.heap[..], s.heapMax, leaves, tree.maxCode, tree.fc[..], tree.dl[..], s.blCount[..],
      s.heapMax + 1, 0, 0, 0);
    overflow := 0;
    for h := s.heapMax + 1 to HEAP_SIZE
      invariant SameUnused(old(tree.dl[..]), tree.dl[..], tree.desc.elems, leaves)
      invariant PassState(tree.desc, s.heap[..], s.heapMax, leaves, tree.maxCode, tree.fc[..], tree.dl[..],
                  s.blCount[..], h, overflow, s.optLen - old(s.optLen), s.staticLen - old(s.staticLen))
    {
      overflow := MeasureNode(s, tree, leaves, h, overflow, old(s.optLen), old(s.staticLen));
    }
  }

  lemma PassBounds(desc: StaticDesc, heap: seq<nat>, lo: nat, leaves: set<nat>, maxCode: int, w: seq<nat>,
                   l: seq<nat>, cnt: seq<nat>, i: nat, overflow: nat, opt: int, stat: int)
    requires PassState(desc, heap, lo, leaves, maxCode, w, l, cnt, i, overflow, opt, stat)
    ensures lo < i <= HEAP_SIZE
  {
  }

  method MeasureNode(s: DeflateState, tree: Tree, ghost leaves: set<nat>, h: nat, overflow0: nat,
                   ghost opt0: int, ghost stat0: int) returns (overflow: nat)
    requires s.Valid() && tree.Valid() && s.Apart(tree) && h < HEAP_SIZE
    requires PassState(tree.desc, s.heap[..], s.heapMax, leaves, tree.maxCode, tree.fc[..], tree.dl[..], s.blCount[..],
               h, overflow0, s.optLen - opt0, s.staticLen - stat0)
    modifies s.blCount, tree.dl, s`optLen, s`staticLen
    ensures SameUnused(old(tree.dl[..]), tree.dl[..], tree.desc.elems, leaves)
    ensures PassState(tree.desc, s.heap[..], s.heapMax, leaves, tree.maxCode, tree.fc[..], tree.dl[..], s.blCount[..],
              h + 1, overflow, s.optLen - opt0, s.staticLen - stat0)
  {
    hide PassState;
    ghost var l: seq<nat>, cnt: seq<nat>, opt, stat := tree.dl[..], s.blCount[..], s.optLen - opt0, s.staticLen - stat0;
    PassFacts(tree.desc, s.heap[..], s.heapMax, leaves, tree.maxCode, tree.fc[..], l, cnt, h, overflow0, opt, stat);
    var n := s.heap[h];
    var bits := tree.dl[tree.dl[n]] + 1;
    overflow := overflow0;
    if bits > tree.desc.maxLength { bits, overflow := tree.desc.maxLength, overflow + 1; }
    tree.dl[n] := bits;
    assert tree.dl[..] == l[n := bits];
    if n > tree.maxCode {
      PassInner(tree.desc, s.heap[..], s.heapMax, leaves, tree.maxCode, tree.fc[..], l, cnt, h, overflow0, opt, stat,
        bits, overflow - overflow0);
      return;
    }
    s.blCount[bits] := s.blCount[bits] + 1;
    assert s.blCount[..] == cnt[bits := cnt[bits] + 1];
    ghost var xbits := CountBits(s, tree.desc, n, bits, tree.fc[n]);
    PassLeaf(tree.desc, s.heap[..], s.heapMax, leaves, tree.maxCode, tree.fc[..], l, cnt, h, overflow0, opt, stat,
      bits, overflow - overflow0, xbits);
  }

  /** Add f occurrences of leaf n to opt_len and static_len. */
  method CountBits(s: DeflateState, desc: StaticDesc, n: nat, bits: nat, f: nat) returns (ghost x: nat)
    requires DescOk(desc) && n < desc.elems
    modifies s`optLen, s`staticLen
    ensures x == if n >= desc.base then desc.extra[n - desc.base] else 0
    ensures s.optLen == old(s.optLen) + f * (bits + x)
    ensures s.staticLen == old(s.staticLen) + if desc.stree == [] then 0 else f * (desc.stree[n] + x)
  {
    var xbits := 0;
    if n >= desc.base { xbits := desc.extra[n - desc.base]; }
    x := xbits;
    s.optLen := s.optLen + f * (bits + xbits);
    if desc.stree != [] { s.staticLen := s.staticLen + f * (desc.stree[n] + xbits); }
  }
}
