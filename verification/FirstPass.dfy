/** The first pass of gen_bitlen (deps/libz/trees.c): lengths from the root
    down, cut to max; and what the number of cut nodes means. */
module FirstPass {
  import opened Optimality
  import opened Merges
  import opened TreeBuilder
  import opened HeapLayout
  import opened BitLengths

  function Cut(d: nat, max: nat): nat { if d > max then max else d }

  ghost predicate LengthOk(heap: seq<nat>, l: seq<nat>, elems: nat, max: nat, i: nat)
    requires i < HEAP_SIZE == |heap|
  {
    && heap[i] < |l| && Father(elems, i) < |l| && l[Father(elems, i)] <= max
    && l[heap[i]] == Cut(l[Father(elems, i)] + 1, max)
  }

  /** The root and the nodes before index i have their lengths. */
  ghost predicate LengthsTo(heap: seq<nat>, lo: nat, l: seq<nat>, elems: nat, max: nat, i: nat) {
    && |heap| == HEAP_SIZE && lo < i <= HEAP_SIZE && heap[lo] < |l| && l[heap[lo]] == 0
    && forall j :: lo < j < i ==> LengthOk(heap, l, elems, max, j)
  }

  /** The nodes from index i on still have their fathers. */
  ghost predicate FathersFrom(heap: seq<nat>, l: seq<nat>, elems: nat, i: nat) {
    && |heap| == HEAP_SIZE
    && forall j :: i <= j < HEAP_SIZE ==> heap[j] < |l| && l[heap[j]] == Father(elems, j)
  }

  lemma FathersStart(heap: seq<nat>, lo: nat, w: seq<nat>, dl: seq<nat>, h: History, root: nat)
    requires Built(heap, lo, w, dl, h, root) && Layout(heap, lo, h.elems)
    ensures FathersFrom(heap, dl[root := 0], h.elems, lo + 1)
    ensures LengthsTo(heap, lo, dl[root := 0], h.elems, 0, lo + 1)
  {
    hide Active, Decreasing, Recorded, Greedy, FatherBefore;
    forall j | lo + 1 <= j < HEAP_SIZE
      ensures heap[j] < |dl| && heap[j] != root && dl[heap[j]] == Father(h.elems, j)
    {
      PositionMerged(heap, h, j);
      assert IsFather(dl, h, (HEAP_SIZE - 1 - j) / 2);
    }
  }

  /** The length of the father of node i is known and will not change. */
  lemma FatherKnown(heap: seq<nat>, lo: nat, l: seq<nat>, elems: nat, max: nat, i: nat)
    requires Layout(heap, lo, elems) && LengthsTo(heap, lo, l, elems, max, i) && i < HEAP_SIZE
    requires heap[i] < |l|
    ensures Father(elems, i) < |l| && Father(elems, i) != heap[i] && l[Father(elems, i)] <= max
    ensures forall j :: lo < j < i ==> Father(elems, j) != heap[i]
  {
    forall j | lo < j < i
      ensures Father(elems, j) != heap[i]
    {
      assert FatherBefore(heap, lo, elems, j);
    }
    assert FatherBefore(heap, lo, elems, i);
    var p :| lo <= p < i && heap[p] == Father(elems, i);
    if p > lo { assert LengthOk(heap, l, elems, max, p); }
  }

  lemma LengthsStep(heap: seq<nat>, lo: nat, l: seq<nat>, elems: nat, max: nat, i: nat)
    requires Layout(heap, lo, elems) && LengthsTo(heap, lo, l, elems, max, i) && i < HEAP_SIZE
    requires FathersFrom(heap, l, elems, i)
    ensures heap[i] < |l| && l[heap[i]] == Father(elems, i) < |l| && l[Father(elems, i)] <= max
    ensures var l' := l[heap[i] := Cut(l[Father(elems, i)] + 1, max)];
            LengthsTo(heap, lo, l', elems, max, i + 1) && FathersFrom(heap, l', elems, i + 1)
  {
    hide FatherBefore;
    FatherKnown(heap, lo, l, elems, max, i);
    var l' := l[heap[i] := Cut(l[Father(elems, i)] + 1, max)];
    forall j | lo < j < i + 1
      ensures LengthOk(heap, l', elems, max, j)
    {
      if j < i { assert LengthOk(heap, l, elems, max, j); }
    }
  }

  /** How many of the nodes before index i were cut. */
  function CutCount(l: seq<nat>, elems: nat, max: nat, lo: nat, i: nat): nat
    requires lo < i <= HEAP_SIZE
    requires forall j :: lo < j < i ==> Father(elems, j) < |l|
  {
    if i == lo + 1 then 0
    else CutCount(l, elems, max, lo, i - 1) + (if l[Father(elems, i - 1)] + 1 > max then 1 else 0)
  }

  lemma {:induction false} CutSame(l: seq<nat>, l': seq<nat>, elems: nat, max: nat, lo: nat, i: nat)
    requires lo < i <= HEAP_SIZE && |l'| == |l|
    requires forall j :: lo < j < i ==> Father(elems, j) < |l| && l'[Father(elems, j)] == l[Father(elems, j)]
    ensures CutCount(l', elems, max, lo, i) == CutCount(l, elems, max, lo, i)
  {
    if i > lo + 1 { CutSame(l, l', elems, max, lo, i - 1); }
  }

  lemma FathersInside(heap: seq<nat>, lo: nat, l: seq<nat>, elems: nat, max: nat, i: nat)
    requires LengthsTo(heap, lo, l, elems, max, i)
    ensures forall j :: lo < j < i ==> Father(elems, j) < |l|
  {
    forall j | lo < j < i ensures Father(elems, j) < |l| { assert LengthOk(heap, l, elems, max, j); }
  }

  /** The state of the first pass: nodes before index i are done. */
  ghost predicate Passing(heap: seq<nat>, lo: nat, l: seq<nat>, elems: nat, max: nat, i: nat, overflow: nat) {
    && LengthsTo(heap, lo, l, elems, max, i) && FathersFrom(heap, l, elems, i)
    && (forall j :: lo < j < i ==> Father(elems, j) < |l|)
    && overflow == CutCount(l, elems, max, lo, i)
  }

  lemma PassStep(heap: seq<nat>, lo: nat, l: seq<nat>, elems: nat, max: nat, i: nat, overflow: nat)
    requires Layout(heap, lo, elems) && Passing(heap, lo, l, elems, max, i, overflow) && i < HEAP_SIZE
    ensures heap[i] < |l| && l[heap[i]] < |l| && l[l[heap[i]]] <= max
    ensures var d := l[l[heap[i]]] + 1;
            Passing(heap, lo, l[heap[i] := Cut(d, max)], elems, max, i + 1, overflow + if d > max then 1 else 0)
  {
    hide FatherBefore, LengthOk;
    LengthsStep(heap, lo, l, elems, max, i);
    FatherKnown(heap, lo, l, elems, max, i);
    var l' := l[heap[i] := Cut(l[Father(elems, i)] + 1, max)];
    CutSame(l, l', elems, max, lo, i);
    FathersInside(heap, lo, l', elems, max, i + 1);
  }

  // ---- At the end ----

  lemma PassGivesDepths(heap: seq<nat>, lo: nat, w: seq<nat>, dl: seq<nat>, h: History, root: nat, l: seq<nat>,
                        max: nat)
    requires Built(heap, lo, w, dl, h, root) && LengthsTo(heap, lo, l, h.elems, max, HEAP_SIZE) && |l| == |w|
    ensures Depths(h, l, root, max, 0)
  {
    hide Active, Decreasing, Greedy, Fathers;
    forall u | 0 <= u < |h.pairs|
      ensures h.elems + |h.pairs| <= |l| && DepthOk(h, l, max, u)
    {
      var i, j := HEAP_SIZE - 1 - 2 * u, HEAP_SIZE - 2 - 2 * u;
      assert LengthOk(heap, l, h.elems, max, i) && LengthOk(heap, l, h.elems, max, j);
      assert heap[i] == h.pairs[u].0 && heap[j] == h.pairs[u].1;
    }
  }

  /** Counting cut nodes one by one or pair by pair. */
  lemma {:induction false} CutsAreOverflow(h: History, l: seq<nat>, max: nat, lo: nat, t: nat)
    requires h.elems + |h.pairs| <= |l| && t <= |h.pairs| && lo == HEAP_SIZE - 1 - 2 * |h.pairs|
    requires forall j :: lo < j < HEAP_SIZE ==> Father(h.elems, j) < |l|
    ensures CutCount(l, h.elems, max, lo, HEAP_SIZE - 2 * t) == Overflow(h, l, max, t)
    decreases |h.pairs| - t
  {
    if t < |h.pairs| {
      CutsAreOverflow(h, l, max, lo, t + 1);
      var i := HEAP_SIZE - 2 * t;
      assert Father(h.elems, i - 1) == Father(h.elems, i - 2) == h.elems + t;
      assert CutCount(l, h.elems, max, lo, i - 1)
        == CutCount(l, h.elems, max, lo, i - 2) + (if l[h.elems + t] + 1 > max then 1 else 0);
    }
  }

  /** When nodes were cut, more leaves and subtrees have the maximal length than
      the Kraft sum is in excess of 1. */
  lemma {:induction false} ManyLongest(h: History, w: seq<nat>, l: seq<nat>, root: nat, max: nat, t: nat)
    requires Greedy(h, w) && OneRoot(h, root) && |l| == |w| && Depths(h, l, root, max, t) && max > 0
    ensures Overflow(h, l, max, t) % 2 == 0
    ensures LengthCount(Active(h, t), l, max) >= Overflow(h, l, max, t) / 2
    ensures Overflow(h, l, max, t) > 0 ==> LengthCount(Active(h, t), l, max) >= Overflow(h, l, max, t) / 2 + 1
    decreases |h.pairs| - t
  {
    hide Active, LengthCount;
    if t == |h.pairs| {
      CountNonneg(Active(h, t), l, max);
    } else {
      DepthsTail(h, l, root, max, t);
      ManyLongest(h, w, l, root, max, t + 1);
      UndoCount(h, w, l, max, t);
      Undo(h, w, t);
      if l[h.elems + t] == max { CountPresent(Active(h, t + 1), l, max, h.elems + t); }
    }
  }

  lemma DepthsTail(h: History, l: seq<nat>, root: nat, max: nat, t: nat)
    requires Depths(h, l, root, max, t) && t < |h.pairs|
    ensures Depths(h, l, root, max, t + 1) && DepthOk(h, l, max, t)
  {
  }

  lemma CountNonneg(s: set<nat>, l: seq<nat>, b: nat)
    ensures LengthCount(s, l, b) >= 0
  {
    SumNonneg(s, HasLength(l, b), |l|);
  }

  lemma CountPresent(s: set<nat>, l: seq<nat>, b: nat, x: nat)
    requires x in s && x < |l| && l[x] == b
    ensures LengthCount(s, l, b) >= 1
  {
    SumNonneg(s, HasLength(l, b), |l|);
  }

  lemma UndoCount(h: History, w: seq<nat>, l: seq<nat>, max: nat, t: nat)
    requires Greedy(h, w) && t < |h.pairs| && |l| == |w| && DepthOk(h, l, max, t)
    ensures LengthCount(Active(h, t), l, max) == LengthCount(Active(h, t + 1), l, max)
            + (if l[h.elems + t] == max then 1 else if l[h.elems + t] + 1 == max then 2 else 0)
  {
    Undo(h, w, t);
    SumMerge(Active(h, t), HasLength(l, max), h.pairs[t].0, h.pairs[t].1, h.elems + t);
  }
}
