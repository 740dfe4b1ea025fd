/** The history of a Huffman construction: which pairs of nodes were merged, in
    order.  Merge number t makes node elems + t. */
module Merges {
  import opened Bits
  import opened Optimality

  datatype History = History(leaves: set<nat>, elems: nat, pairs: seq<(nat, nat)>)

  /** The roots of the forest after t merges. */
  function Active(h: History, t: nat): set<nat>
    requires t <= |h.pairs|
  {
    if t == 0 then h.leaves
    else Active(h, t - 1) - {h.pairs[t - 1].0, h.pairs[t - 1].1} + {h.elems + t - 1}
  }

  /** Merge t takes two lightest roots and weighs their sum. */
  ghost predicate MergeOk(h: History, w: seq<nat>, t: nat)
    requires t < |h.pairs|
  {
    && Lightest(Active(h, t), w, h.pairs[t].0, h.pairs[t].1)
    && h.elems + t < |w| && w[h.elems + t] == w[h.pairs[t].0] + w[h.pairs[t].1]
  }

  ghost predicate Greedy(h: History, w: seq<nat>) {
    && (forall x :: x in h.leaves ==> x < h.elems)
    && h.elems + |h.pairs| <= |w|
    && forall t :: 0 <= t < |h.pairs| ==> MergeOk(h, w, t)
  }

  lemma {:induction false} ActiveBound(h: History, t: nat, x: nat)
    requires t <= |h.pairs| && (forall y :: y in h.leaves ==> y < h.elems) && x in Active(h, t)
    ensures x < h.elems + t && (x < h.elems ==> x in h.leaves)
  {
    if t > 0 && x != h.elems + t - 1 { ActiveBound(h, t - 1, x); }
  }

  /** A merged node is never a root again. */
  lemma {:induction false} Gone(h: History, w: seq<nat>, t: nat, u: nat)
    requires Greedy(h, w) && t < u <= |h.pairs|
    ensures h.pairs[t].0 !in Active(h, u) && h.pairs[t].1 !in Active(h, u)
  {
    assert MergeOk(h, w, t);
    ActiveBound(h, t, h.pairs[t].0);
    ActiveBound(h, t, h.pairs[t].1);
    if t + 1 < u { Gone(h, w, t, u - 1); }
  }

  lemma {:induction false} ActivePrefix(h: History, h': History, t: nat)
    requires h'.leaves == h.leaves && h'.elems == h.elems && h.pairs <= h'.pairs && t <= |h.pairs|
    ensures Active(h', t) == Active(h, t)
  {
    if t > 0 { ActivePrefix(h, h', t - 1); }
  }

  /** Undoing merge t. */
  lemma Undo(h: History, w: seq<nat>, t: nat)
    requires Greedy(h, w) && t < |h.pairs|
    ensures var (n, m) := h.pairs[t];
            && n in Active(h, t) && m in Active(h, t) && n != m && h.elems + t !in Active(h, t)
            && Active(h, t + 1) == Active(h, t) - {n, m} + {h.elems + t}
            && n < h.elems + t && m < h.elems + t && n !in Active(h, t + 1) && m !in Active(h, t + 1)
  {
    assert MergeOk(h, w, t);
    ActiveBound(h, t, h.pairs[t].0);
    ActiveBound(h, t, h.pairs[t].1);
    if h.elems + t in Active(h, t) { ActiveBound(h, t, h.elems + t); }
  }

  // ---- Heights ----

  /** The height of the tree below a node. */
  function Height(h: History, x: nat): nat
    decreases x
  {
    if x < h.elems || x - h.elems >= |h.pairs| then 0
    else
      var (n, m) := h.pairs[x - h.elems];
      if n < x && m < x then 1 + Larger(Height(h, n), Height(h, m)) else 0
  }

  function Larger(a: nat, b: nat): nat { if a >= b then a else b }

  /** Later merges do not change the trees that are there. */
  lemma {:induction false} HeightPrefix(h: History, h': History, x: nat)
    requires h'.leaves == h.leaves && h'.elems == h.elems && h.pairs <= h'.pairs && x < h.elems + |h.pairs|
    ensures Height(h', x) == Height(h, x)
    decreases x
  {
    if x >= h.elems {
      var (n, m) := h.pairs[x - h.elems];
      if n < x && m < x {
        HeightPrefix(h, h', n);
        HeightPrefix(h, h', m);
      }
    }
  }

  // ---- Optimality ----

  /** The weights of the nodes made by merges t and later. */
  function MergedWeight(h: History, w: seq<nat>, t: nat): nat
    requires t <= |h.pairs| && h.elems + |h.pairs| <= |w|
    decreases |h.pairs| - t
  {
    if t == |h.pairs| then 0 else w[h.elems + t] + MergedWeight(h, w, t + 1)
  }

  ghost predicate OneRoot(h: History, root: nat) {
    Active(h, |h.pairs|) == {root}
  }

  lemma {:induction false} GreedyLowerBound(h: History, w: seq<nat>, root: nat, t: nat)
    requires Greedy(h, w) && OneRoot(h, root) && t <= |h.pairs|
    ensures LowerBound(Active(h, t), w, MergedWeight(h, w, t))
    decreases |h.pairs| - t
  {
    if t == |h.pairs| {
      forall l: seq<nat>, m: nat | |l| == |w| && IsCode(Active(h, t), l, m)
        ensures Cost(Active(h, t), w, l) >= 0
      {
        SumNonneg(Active(h, t), Products(w, l), |w|);
      }
    } else {
      GreedyLowerBound(h, w, root, t + 1);
      Undo(h, w, t);
      assert MergeOk(h, w, t);
      MergeStep(Active(h, t), w, h.pairs[t].0, h.pairs[t].1, h.elems + t, MergedWeight(h, w, t + 1));
    }
  }

  /** l gives every node one more than its father, but at most max. */
  ghost predicate Depths(h: History, l: seq<nat>, root: nat, max: nat, t: nat) {
    && t <= |h.pairs| && h.elems + |h.pairs| <= |l| && root < |l| && l[root] == 0
    && forall u :: t <= u < |h.pairs| ==> DepthOk(h, l, max, u)
  }

  ghost predicate DepthOk(h: History, l: seq<nat>, max: nat, u: nat)
    requires u < |h.pairs| && h.elems + |h.pairs| <= |l|
  {
    var d := if l[h.elems + u] + 1 > max then max else l[h.elems + u] + 1;
    && h.pairs[u].0 < |l| && h.pairs[u].1 < |l| && l[h.elems + u] <= max
    && l[h.pairs[u].0] == d && l[h.pairs[u].1] == d
  }

  /** Below the height of the root, no node of s is deeper than its own tree allows,
      and one is as deep. */
  ghost predicate Spans(h: History, l: seq<nat>, root: nat, s: set<nat>) {
    && (forall x :: x in s ==> x < |l| && l[x] + Height(h, x) <= Height(h, root))
    && exists x :: x in s && x < |l| && l[x] + Height(h, x) == Height(h, root)
  }

  /** When no length is cut, the longest code is as long as the tree is high. */
  lemma {:induction false} LongestIsHeight(h: History, w: seq<nat>, l: seq<nat>, root: nat, max: nat, t: nat)
    requires Greedy(h, w) && OneRoot(h, root) && |l| == |w| && Depths(h, l, root, max, t) && Overflow(h, l, max, t) == 0
    ensures Spans(h, l, root, Active(h, t))
    decreases |h.pairs| - t
  {
    if t == |h.pairs| {
      assert root in Active(h, t);
    } else {
      LongestIsHeight(h, w, l, root, max, t + 1);
      assert DepthOk(h, l, max, t);
      Undo(h, w, t);
      SpansDown(h, l, root, Active(h, t + 1), h.pairs[t].0, h.pairs[t].1, h.elems + t, Active(h, t));
    }
  }

  /** A tree that is no higher than max is not cut. */
  lemma {:induction false} LowIsUncut(h: History, w: seq<nat>, l: seq<nat>, root: nat, max: nat, t: nat)
    requires Greedy(h, w) && OneRoot(h, root) && |l| == |w| && Depths(h, l, root, max, t) && Height(h, root) <= max
    ensures Overflow(h, l, max, t) == 0
    decreases |h.pairs| - t
  {
    if t < |h.pairs| {
      LowIsUncut(h, w, l, root, max, t + 1);
      LongestIsHeight(h, w, l, root, max, t + 1);
      Undo(h, w, t);
      assert h.elems + t in Active(h, t + 1) && Height(h, h.elems + t) >= 1;
    }
  }

  lemma SpansDown(h: History, l: seq<nat>, root: nat, s: set<nat>, n: nat, m: nat, node: nat, s': set<nat>)
    requires Spans(h, l, root, s) && node in s && s == s' - {n, m} + {node} && n in s' && m in s' && n < |l| && m < |l|
    requires node < |l|
    requires h.elems <= node < h.elems + |h.pairs| && h.pairs[node - h.elems] == (n, m) && n < node && m < node
    requires l[n] == l[m] == l[node] + 1
    ensures Spans(h, l, root, s')
  {
    var x :| x in s && x < |l| && l[x] + Height(h, x) == Height(h, root);
    var y := if x != node then x else if Height(h, n) >= Height(h, m) then n else m;
    assert Height(h, node) == 1 + Larger(Height(h, n), Height(h, m));
    hide Height;
    assert y in s' && l[y] + Height(h, y) == Height(h, root);
    forall z | z in s' ensures z < |l| && l[z] + Height(h, z) <= Height(h, root) {
      if z != n && z != m { assert z in s; }
    }
  }

  /** The number of nodes whose depth was cut down to max. */
  function Overflow(h: History, l: seq<nat>, max: nat, t: nat): nat
    requires t <= |h.pairs| && h.elems + |h.pairs| <= |l|
    decreases |h.pairs| - t
  {
    if t == |h.pairs| then 0
    else Overflow(h, l, max, t + 1) + (if l[h.elems + t] + 1 > max then 2 else 0)
  }

  lemma UndoKraft(h: History, w: seq<nat>, l: seq<nat>, max: nat, t: nat)
    requires Greedy(h, w) && t < |h.pairs| && |l| == |w| && DepthOk(h, l, max, t)
    ensures Kraft(Active(h, t), l, max)
         == Kraft(Active(h, t + 1), l, max) + (if l[h.elems + t] + 1 > max then 1 else 0)
  {
    Undo(h, w, t);
    SumMerge(Active(h, t), Units(l, max), h.pairs[t].0, h.pairs[t].1, h.elems + t);
  }

  /** Overflow is twice the Kraft excess, in units of 2^-max. */
  lemma {:induction false} OverflowIsExcess(h: History, w: seq<nat>, l: seq<nat>, root: nat, max: nat, t: nat)
    requires Greedy(h, w) && OneRoot(h, root) && |l| == |w| && Depths(h, l, root, max, t)
    ensures 2 * Kraft(Active(h, t), l, max) == 2 * Pow2(max) + Overflow(h, l, max, t)
    decreases |h.pairs| - t
  {
    if t == |h.pairs| {
      RootKraft(l, root, max, |l|);
    } else {
      OverflowIsExcess(h, w, l, root, max, t + 1);
      assert DepthOk(h, l, max, t);
      UndoKraft(h, w, l, max, t);
    }
  }

  lemma {:induction false} RootKraft(l: seq<nat>, root: nat, max: nat, n: nat)
    requires root < |l| && l[root] == 0 && n <= |l|
    ensures Sum({root}, Units(l, max), n) == if root < n then Pow2(max) else 0
  {
    if n > 0 { RootKraft(l, root, max, n - 1); }
  }

  /** Without overflow the lengths cost exactly the merged weights. */
  lemma {:induction false} DepthCost(h: History, w: seq<nat>, l: seq<nat>, root: nat, max: nat, t: nat)
    requires Greedy(h, w) && OneRoot(h, root) && |l| == |w| && Depths(h, l, root, max, t)
    requires Overflow(h, l, max, t) == 0
    ensures Cost(Active(h, t), w, l) == MergedWeight(h, w, t)
    decreases |h.pairs| - t
  {
    if t == |h.pairs| {
      SumSame({root}, Products(w, l), seq(|w|, i => 0), |w|);
      SumZero({root}, |w|, |w|);
    } else {
      DepthCost(h, w, l, root, max, t + 1);
      assert DepthOk(h, l, max, t) && MergeOk(h, w, t);
      Undo(h, w, t);
      var (n, m) := h.pairs[t];
      SumMerge(Active(h, t), Products(w, l), n, m, h.elems + t);
      OneMore(w[n], w[m], l[h.elems + t]);
    }
  }

  lemma OneMore(a: nat, b: nat, d: nat)
    ensures a * (d + 1) + b * (d + 1) == (a + b) * d + (a + b)
  {
  }

  lemma {:induction false} SumZero(s: set<nat>, k: nat, n: nat)
    requires n <= k
    ensures Sum(s, seq(k, i => 0), n) == 0
  {
    if n > 0 { SumZero(s, k, n - 1); }
  }

  /** When no length is cut, no prefix code for the leaves costs less. */
  lemma Optimal(h: History, w: seq<nat>, l: seq<nat>, root: nat, max: nat)
    requires Greedy(h, w) && OneRoot(h, root) && |l| == |w| && Depths(h, l, root, max, 0)
    requires Overflow(h, l, max, 0) == 0
    ensures LowerBound(h.leaves, w, Cost(h.leaves, w, l))
    ensures Kraft(h.leaves, l, max) == Pow2(max)
  {
    GreedyLowerBound(h, w, root, 0);
    DepthCost(h, w, l, root, max, 0);
    OverflowIsExcess(h, w, l, root, max, 0);
  }
}
