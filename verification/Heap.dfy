/** The priority queue of build_tree: heap[1..len], sons of heap[k] at
    heap[2k] and heap[2k+1], ordered by frequency and then by depth. */
module Heap {

  /** The macro smaller: frequency first, depth as tie breaker. */
  predicate Smaller(w: seq<nat>, d: seq<nat>, n: nat, m: nat)
    requires n < |w| && m < |w| && n < |d| && m < |d|
  {
    w[n] < w[m] || (w[n] == w[m] && d[n] <= d[m])
  }

  ghost predicate NodesOk(h: seq<nat>, len: nat, w: seq<nat>, d: seq<nat>) {
    len < |h| && forall i :: 1 <= i <= len ==> h[i] < |w| && h[i] < |d|
  }

  /** No son of a node at index k or later is smaller than its father. */
  ghost predicate HeapFrom(h: seq<nat>, len: nat, w: seq<nat>, d: seq<nat>, k: nat)
    requires NodesOk(h, len, w, d)
  {
    forall i :: 2 <= i <= len && i / 2 >= k ==> Smaller(w, d, h[i / 2], h[i])
  }

  /** The same except at the sons of k, with the father of k no greater than them. */
  ghost predicate HeapExcept(h: seq<nat>, len: nat, w: seq<nat>, d: seq<nat>, k0: nat, k: nat)
    requires NodesOk(h, len, w, d)
  {
    && (forall i :: 2 <= i <= len && i / 2 >= k0 && i / 2 != k ==> Smaller(w, d, h[i / 2], h[i]))
    && (k / 2 >= k0 && k / 2 >= 1 ==> forall i :: 2 <= i <= len && i / 2 == k ==> Smaller(w, d, h[k / 2], h[i]))
  }

  lemma SwapKeepsMultiset(s: seq<nat>, i: nat, j: nat, lo: nat, hi: nat)
    requires lo <= i < hi <= |s| && lo <= j < hi
    ensures multiset(s[i := s[j]][j := s[i]][lo..hi]) == multiset(s[lo..hi])
  {
    var t: seq<nat> := s[lo..hi];
    assert s[i := s[j]][j := s[i]][lo..hi] == t[i - lo := s[j]][j - lo := s[i]];
  }

  ghost predicate SameOutside(h0: seq<nat>, h1: seq<nat>, lo: nat, hi: nat) {
    |h0| == |h1| && forall i :: 0 <= i < |h0| && !(lo <= i <= hi) ==> h1[i] == h0[i]
  }

  /** One step down: j is the smaller son of k, and smaller than v. */
  lemma StepDown(c: seq<nat>, len: nat, w: seq<nat>, d: seq<nat>, k0: nat, k: nat, j: nat)
    requires NodesOk(c, len, w, d) && HeapExcept(c, len, w, d, k0, k)
    requires 1 <= k0 <= k && j / 2 == k && 2 <= j <= len
    requires Smaller(w, d, c[j], c[k])
    requires forall i :: 2 <= i <= len && i / 2 == k ==> Smaller(w, d, c[j], c[i])
    ensures var c' := c[k := c[j]][j := c[k]];
            NodesOk(c', len, w, d) && HeapExcept(c', len, w, d, k0, j)
  {
    var c' := c[k := c[j]][j := c[k]];
    forall i | 2 <= i <= len && i / 2 >= k0 && i / 2 != j
      ensures Smaller(w, d, c'[i / 2], c'[i])
    {
    }
  }

  /** c is h0 with the hole at k filled by the node being moved down. */
  ghost predicate Sifting(h0: seq<nat>, c: seq<nat>, len: nat, w: seq<nat>, d: seq<nat>, k0: nat, k: nat) {
    && 1 <= k0 <= k <= len && NodesOk(c, len, w, d) && HeapExcept(c, len, w, d, k0, k)
    && SameOutside(h0, c, k0, len) && multiset(c[1..len + 1]) == multiset(h0[1..len + 1])
  }

  lemma SiftStep(h0: seq<nat>, c: seq<nat>, len: nat, w: seq<nat>, d: seq<nat>, k0: nat, k: nat, j: nat)
    requires Sifting(h0, c, len, w, d, k0, k) && j / 2 == k && 2 <= j <= len
    requires Smaller(w, d, c[j], c[k])
    requires forall i :: 2 <= i <= len && i / 2 == k ==> Smaller(w, d, c[j], c[i])
    ensures Sifting(h0, c[k := c[j]][j := c[k]], len, w, d, k0, j)
  {
    StepDown(c, len, w, d, k0, k, j);
    SwapKeepsMultiset(c, k, j, 1, len + 1);
  }

  /** Neither son is smaller: the hole is where the node belongs. */
  lemma SiftDone(h0: seq<nat>, c: seq<nat>, len: nat, w: seq<nat>, d: seq<nat>, k0: nat, k: nat)
    requires Sifting(h0, c, len, w, d, k0, k)
    requires forall i :: 2 <= i <= len && i / 2 == k ==> Smaller(w, d, c[k], c[i])
    ensures HeapFrom(c, len, w, d, k0)
  {
  }

  lemma SiftStart(h: seq<nat>, len: nat, w: seq<nat>, d: seq<nat>, k0: nat)
    requires NodesOk(h, len, w, d) && 1 <= k0 <= len && HeapFrom(h, len, w, d, k0 + 1)
    ensures Sifting(h, h, len, w, d, k0, k0)
  {
  }

  lemma SiftFacts(h0: seq<nat>, c: seq<nat>, len: nat, w: seq<nat>, d: seq<nat>, k0: nat, k: nat)
    requires Sifting(h0, c, len, w, d, k0, k)
    ensures 1 <= k0 <= k <= len && NodesOk(c, len, w, d) && SameOutside(h0, c, k0, len)
    ensures |c| == |h0| && multiset(c[1..len + 1]) == multiset(h0[1..len + 1])
  {
  }

  lemma SmallerTrans(c: seq<nat>, len: nat, w: seq<nat>, d: seq<nat>, k: nat, j: nat)
    requires NodesOk(c, len, w, d) && 1 <= k <= len && 1 <= j <= len && Smaller(w, d, c[k], c[j])
    requires forall i :: 2 <= i <= len && i / 2 == k ==> Smaller(w, d, c[j], c[i])
    ensures forall i :: 2 <= i <= len && i / 2 == k ==> Smaller(w, d, c[k], c[i])
  {
  }

  method SmallerSon(heap: array<nat>, len: nat, fc: array<nat>, depth: array<nat>, k: nat) returns (j: nat)
    requires 2 * k <= len && 1 <= k && len < heap.Length
    requires forall i :: 2 <= i <= len && i / 2 == k ==> heap[i] < fc.Length && heap[i] < depth.Length
    ensures j / 2 == k && 2 <= j <= len
    ensures forall i :: 2 <= i <= len && i / 2 == k ==> Smaller(fc[..], depth[..], heap[j], heap[i])
  {
    j := 2 * k;
    assert forall i :: 2 <= i <= len && i / 2 == k ==> i == 2 * k || i == 2 * k + 1;
    if j < len && Smaller(fc[..], depth[..], heap[j + 1], heap[j]) { j := j + 1; }
  }

  method PqDownHeap(heap: array<nat>, len: nat, fc: array<nat>, depth: array<nat>, k0: nat)
    requires heap != fc && heap != depth && 1 <= k0 <= len
    requires NodesOk(heap[..], len, fc[..], depth[..])
    requires HeapFrom(heap[..], len, fc[..], depth[..], k0 + 1)
    modifies heap
    ensures NodesOk(heap[..], len, fc[..], depth[..])
    ensures HeapFrom(heap[..], len, fc[..], depth[..], k0)
    ensures multiset(heap[1..len + 1]) == old(multiset(heap[1..len + 1]))
    ensures SameOutside(old(heap[..]), heap[..], k0, len)
  {
    hide Sifting, HeapExcept, HeapFrom, SameOutside;
    var k := k0;
    SiftStart(heap[..], len, fc[..], depth[..], k0);
    var v := heap[k];
    var j := 2 * k;
    ghost var w, d, h0 := fc[..], depth[..], heap[..];
    ghost var c := h0;
    while j <= len
      invariant j == 2 * k && fc[..] == w && depth[..] == d
      invariant Sifting(h0, c, len, w, d, k0, k)
      invariant 1 <= k <= len < |c| == heap.Length && v == c[k] && forall i :: 0 <= i < |c| && i != k ==>
        heap[i] == c[i]
      decreases len - k
    {
      SiftFacts(h0, c, len, w, d, k0, k);
      j := SmallerSon(heap, len, fc, depth, k);
      if Smaller(fc[..], depth[..], v, heap[j]) {
        SmallerTrans(c, len, w, d, k, j);
        break;
      }
      SiftStep(h0, c, len, w, d, k0, k, j);
      heap[k] := heap[j];
      c := c[k := c[j]][j := c[k]];
      k := j;
      j := 2 * j;
    }
    SiftDone(h0, c, len, w, d, k0, k);
    SiftFacts(h0, c, len, w, d, k0, k);
    heap[k] := v;
    assert heap[..] == c;
    assert heap[1..len + 1] == c[1..len + 1];
  }

  /** The root is the smallest. */
  lemma {:induction false} RootSmallest(h: seq<nat>, len: nat, w: seq<nat>, d: seq<nat>, i: nat)
    requires NodesOk(h, len, w, d) && HeapFrom(h, len, w, d, 1) && 1 <= i <= len
    ensures Smaller(w, d, h[1], h[i])
  {
    if i > 1 { RootSmallest(h, len, w, d, i / 2); }
  }
}
