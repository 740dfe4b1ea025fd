/** The merged nodes in the heap array, from the root at index lo to the lightest
    node at the end: each node once, after its father (deps/libz/trees.c). */
module HeapLayout {
  import opened Merges
  import opened TreeBuilder

  /** The father of the node at index i. */
  function Father(elems: nat, i: nat): nat
    requires i < HEAP_SIZE
  {
    elems + (HEAP_SIZE - 1 - i) / 2
  }

  ghost predicate FatherBefore(heap: seq<nat>, lo: nat, elems: nat, i: nat)
    requires i < HEAP_SIZE == |heap|
  {
    exists p :: lo <= p < i && heap[p] == Father(elems, i)
  }

  ghost predicate Distinct(heap: seq<nat>, lo: nat) {
    forall i, j :: lo <= i < j < |heap| ==> heap[i] != heap[j]
  }

  ghost predicate Layout(heap: seq<nat>, lo: nat, elems: nat) {
    && |heap| == HEAP_SIZE && lo + 2 < HEAP_SIZE && HEAP_SIZE - 1 - lo <= 2 * elems
    && Distinct(heap, lo)
    && forall i :: lo < i < HEAP_SIZE ==> FatherBefore(heap, lo, elems, i)
  }

  /** The leaves among the nodes at indices a to b - 1. */
  function LeavesIn(heap: seq<nat>, a: nat, b: nat, maxCode: int): set<nat>
    requires b <= |heap|
  {
    set i | a <= i < b && heap[i] <= maxCode :: heap[i]
  }

  lemma LeavesNext(heap: seq<nat>, lo: nat, a: nat, b: nat, maxCode: int)
    requires Distinct(heap, lo) && lo <= a <= b < |heap|
    ensures heap[b] !in LeavesIn(heap, a, b, maxCode)
    ensures LeavesIn(heap, a, b + 1, maxCode)
         == LeavesIn(heap, a, b, maxCode) + if heap[b] <= maxCode then {heap[b]} else {}
  {
  }

  lemma LeavesBefore(heap: seq<nat>, lo: nat, a: nat, b: nat, maxCode: int)
    requires Distinct(heap, lo) && lo < a <= b <= |heap|
    ensures heap[a - 1] !in LeavesIn(heap, a, b, maxCode)
    ensures LeavesIn(heap, a - 1, b, maxCode)
         == LeavesIn(heap, a, b, maxCode) + if heap[a - 1] <= maxCode then {heap[a - 1]} else {}
  {
  }

  lemma LeavesNone(heap: seq<nat>, a: nat, maxCode: int)
    requires a <= |heap|
    ensures LeavesIn(heap, a, a, maxCode) == {}
  {
  }

  /** A node that is not the root is merged at some later turn. */
  lemma {:induction false} MergedLater(h: History, root: nat, t: nat, x: nat) returns (u: nat)
    requires t <= |h.pairs| && OneRoot(h, root) && x in Active(h, t) && x != root
    ensures t <= u < |h.pairs| && (h.pairs[u].0 == x || h.pairs[u].1 == x)
    decreases |h.pairs| - t
  {
    if t == |h.pairs| { assert false; }
    if h.pairs[t].0 == x || h.pairs[t].1 == x {
      u := t;
    } else {
      assert x in Active(h, t + 1);
      u := MergedLater(h, root, t + 1, x);
    }
  }

  /** The node at index i was merged at turn (HEAP_SIZE - 1 - i) / 2. */
  ghost predicate MergedAt(h: History, x: nat, t: nat) {
    t < |h.pairs| && (h.pairs[t].0 == x || h.pairs[t].1 == x)
  }

  lemma PositionMerged(heap: seq<nat>, h: History, i: nat)
    requires |heap| == HEAP_SIZE && Recorded(heap, h) && HEAP_SIZE - 2 * |h.pairs| <= i < HEAP_SIZE
    ensures MergedAt(h, heap[i], (HEAP_SIZE - 1 - i) / 2)
    ensures heap[i] == if i % 2 == 0 then h.pairs[(HEAP_SIZE - 1 - i) / 2].0 else h.pairs[(HEAP_SIZE - 1 - i) / 2].1
  {
    var t := (HEAP_SIZE - 1 - i) / 2;
    assert i == HEAP_SIZE - 1 - 2 * t || i == HEAP_SIZE - 2 - 2 * t;
  }

  lemma MergedOnce(h: History, w: seq<nat>, x: nat, t: nat, u: nat)
    requires Greedy(h, w) && MergedAt(h, x, t) && MergedAt(h, x, u)
    ensures t == u
  {
    Undo(h, w, t);
    Undo(h, w, u);
    if t < u { Gone(h, w, t, u); }
    if u < t { Gone(h, w, u, t); }
  }

  lemma BuiltDistinct(heap: seq<nat>, lo: nat, w: seq<nat>, dl: seq<nat>, h: History, root: nat)
    requires Built(heap, lo, w, dl, h, root)
    ensures Distinct(heap, lo)
  {
    hide Active, Fathers, Decreasing, Greedy, Recorded;
    forall i, j | lo <= i < j < |heap|
      ensures heap[i] != heap[j]
    {
      if heap[i] == heap[j] {
        var u := (HEAP_SIZE - 1 - j) / 2;
        PositionMerged(heap, h, j);
        if i == lo {
          Undo(h, w, u);
          Gone(h, w, u, |h.pairs|);
        } else {
          PositionMerged(heap, h, i);
          MergedOnce(h, w, heap[i], (HEAP_SIZE - 1 - i) / 2, u);
          Undo(h, w, u);
        }
      }
    }
  }

  lemma FatherPosition(heap: seq<nat>, lo: nat, w: seq<nat>, dl: seq<nat>, h: History, root: nat, i: nat)
    requires Built(heap, lo, w, dl, h, root) && lo < i < HEAP_SIZE
    ensures FatherBefore(heap, lo, h.elems, i)
  {
    hide Active, Fathers, Decreasing, Greedy;
    var t := (HEAP_SIZE - 1 - i) / 2;
    var x := h.elems + t;
    Undo(h, w, t);
    if x == root {
      assert heap[lo] == x;
    } else {
      var u := MergedLater(h, root, t + 1, x);
      assert heap[HEAP_SIZE - 1 - 2 * u] == h.pairs[u].0 && heap[HEAP_SIZE - 2 - 2 * u] == h.pairs[u].1;
    }
  }

  lemma BuiltLayout(heap: seq<nat>, lo: nat, w: seq<nat>, dl: seq<nat>, h: History, root: nat)
    requires Built(heap, lo, w, dl, h, root) && |h.pairs| <= h.elems
    ensures Layout(heap, lo, h.elems)
  {
    hide FatherBefore, Greedy, Recorded, Fathers, Decreasing, Distinct;
    BuiltDistinct(heap, lo, w, dl, h, root);
    forall i | lo < i < HEAP_SIZE ensures FatherBefore(heap, lo, h.elems, i) {
      FatherPosition(heap, lo, w, dl, h, root, i);
    }
  }

  lemma LeafInHeap(heap: seq<nat>, lo: nat, w: seq<nat>, dl: seq<nat>, h: History, root: nat, maxCode: int, x: nat)
    requires Built(heap, lo, w, dl, h, root) && IsMax(h.leaves, maxCode) && x in h.leaves
    ensures x in LeavesIn(heap, lo + 1, HEAP_SIZE, maxCode)
  {
    assert Active(h, 0) == h.leaves;
    hide Active, Fathers, Decreasing;
    RootIsLast(h, w, root);
    var u := MergedLater(h, root, 0, x);
    var i := if h.pairs[u].0 == x then HEAP_SIZE - 1 - 2 * u else HEAP_SIZE - 2 - 2 * u;
    assert heap[i] == x;
  }

  lemma RootIsLast(h: History, w: seq<nat>, root: nat)
    requires Greedy(h, w) && OneRoot(h, root) && |h.pairs| > 0
    ensures root == h.elems + |h.pairs| - 1
  {
    Undo(h, w, |h.pairs| - 1);
  }

  /** Below elems there are only leaves, and they go up to maxCode. */
  ghost predicate Kinds(heap: seq<nat>, lo: nat, elems: nat, leaves: set<nat>, maxCode: int) {
    forall i :: lo <= i < |heap| ==>
      heap[i] <= 2 * elems && (heap[i] < elems <==> heap[i] in leaves) && (heap[i] <= maxCode <==> heap[i] in leaves)
  }

  /** The nodes up to maxCode after the root are the leaves. */
  lemma AllLeaves(heap: seq<nat>, lo: nat, w: seq<nat>, dl: seq<nat>, h: History, root: nat, maxCode: int)
    requires Built(heap, lo, w, dl, h, root) && IsMax(h.leaves, maxCode) && maxCode < h.elems
    ensures Kinds(heap, lo, h.elems, h.leaves, maxCode)
    ensures LeavesIn(heap, lo + 1, HEAP_SIZE, maxCode) == h.leaves
  {
    hide Active, Fathers, Decreasing, Recorded;
    forall x | x in h.leaves ensures x in LeavesIn(heap, lo + 1, HEAP_SIZE, maxCode) {
      LeafInHeap(heap, lo, w, dl, h, root, maxCode, x);
    }
    RootIsLast(h, w, root);
    forall i | lo < i < HEAP_SIZE ensures heap[i] <= 2 * h.elems && (heap[i] < h.elems ==> heap[i] in h.leaves) {
      var t := (HEAP_SIZE - 1 - i) / 2;
      PositionMerged(heap, h, i);
      Undo(h, w, t);
      ActiveBound(h, t, heap[i]);
    }
  }
}
