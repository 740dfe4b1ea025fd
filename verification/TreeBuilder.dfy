/** build_tree up to the point where frequencies and fathers are set
    (deps/libz/trees.c): collecting the leaves, the heap, and the merges. */
module TreeBuilder {
  import opened Bits
  import opened Optimality
  import opened Merges
  import opened Heap

  const HEAP_SIZE: nat := 573

  /** extra bits start at symbol base; stree gives the lengths of the static tree, if any. */
  datatype StaticDesc = StaticDesc(stree: seq<nat>, extra: seq<nat>, base: nat, elems: nat, maxLength: nat)

  ghost predicate DescOk(desc: StaticDesc) {
    && 3 <= desc.elems && 2 * desc.elems < HEAP_SIZE
    && (desc.stree != [] ==> desc.elems <= |desc.stree|)
    && desc.elems <= desc.base + |desc.extra|
    && 1 <= desc.maxLength <= 15 && desc.elems <= Pow2(desc.maxLength)
    && forall i :: 0 <= i < |desc.extra| && desc.base + i < 3 ==> desc.extra[i] == 0
  }

  /** A dynamic tree: fc holds a frequency and later a code, dl the father's
      index and later the code length. */
  class Tree {
    const fc: array<nat>
    const dl: array<nat>
    const desc: StaticDesc
    var maxCode: int

    constructor (desc: StaticDesc)
      requires DescOk(desc)
      ensures Valid() && fresh(fc) && fresh(dl) && this.desc == desc
      ensures forall n :: 0 <= n < fc.Length ==> fc[n] == 0
    {
      this.desc := desc;
      fc := new nat[2 * desc.elems + 1](i => 0);
      dl := new nat[2 * desc.elems + 1](i => 0);
      maxCode := -1;
    }

    ghost predicate Valid() {
      DescOk(desc) && fc != dl && fc.Length == dl.Length == 2 * desc.elems + 1
    }
  }

  // ---- The leaves ----

  /** The symbols below n that occur. */
  function Used(f: seq<nat>, n: nat): set<nat>
    requires n <= |f|
  {
    set x | 0 <= x < n && f[x] != 0
  }

  lemma ClearedStep(f: seq<nat>, l: seq<nat>, n: nat)
    requires Cleared(f, l, n) && n < |f| && n < |l|
    ensures f[n] != 0 ==> Cleared(f, l, n + 1)
    ensures Cleared(f, l[n := 0], n + 1)
  {
  }

  /** What is known of the arrays when symbol n is looked at. */
  lemma CollectFacts(s: DeflateState, tree: Tree, n: nat)
    requires s.Valid() && tree.Valid() && s.Apart(tree) && n < tree.desc.elems
    ensures n < tree.fc.Length && n < tree.dl.Length && n + 1 < HEAP_SIZE && tree.fc != s.heap && tree.fc != s.depth
    ensures tree.dl != s.heap && tree.dl != s.depth && tree.fc != tree.dl
  {
  }

  lemma UsedStep(f: seq<nat>, n: nat)
    requires n < |f|
    ensures n !in Used(f, n)
    ensures f[n] != 0 ==> Used(f, n + 1) == Used(f, n) + {n} && IsMax(Used(f, n) + {n}, n)
    ensures f[n] == 0 ==> Used(f, n + 1) == Used(f, n)
  {
    if f[n] != 0 {
      assert Used(f, n + 1) == Used(f, n) + {n};
    } else {
      assert Used(f, n + 1) == Used(f, n);
    }
  }

  lemma UsedForced(f: seq<nat>, elems: nat, x: nat)
    requires x < elems <= |f| && f[x] == 0
    ensures Used(f[x := 1], elems) == Used(f, elems) + {x}
  {
  }

  /** The symbol forced in when fewer than two occur: the one after the only
      one that occurs if that is 0 or 1, else 0. */
  function ForcedSymbol(maxCode: int): nat
    requires maxCode >= -1
  {
    if maxCode < 2 then maxCode + 1 else 0
  }

  ghost predicate IsMax(s: set<nat>, m: int) {
    (s == {} ==> m == -1) && (s != {} ==> m >= 0 && m in s) && forall x :: x in s ==> x <= m
  }

  /** The symbols in forced, which did not occur, were given frequency 1 to make
      two; with two or more symbols nothing was forced. */
  ghost predicate Forcing(f: seq<nat>, f': seq<nat>, elems: nat, forced: set<nat>) {
    && |f| == |f'| && elems <= |f|
    && (forall x :: x in forced ==> x < 3 && x < elems && f[x] == 0)
    && (forall x :: 0 <= x < |f| ==> f'[x] == if x in forced then 1 else f[x])
    && |forced| <= 2 && (forced != {} ==> |Used(f, elems)| + |forced| <= 2)
  }

  lemma UsedBound(f: seq<nat>, elems: nat)
    requires elems <= |f|
    ensures forall x :: x in Used(f, elems) ==> x < elems
    ensures Forcing(f, f, elems, {})
  {
  }

  lemma ForcingStep(f: seq<nat>, f': seq<nat>, elems: nat, forced: set<nat>, x: nat)
    requires Forcing(f, f', elems, forced) && x < 3 <= elems && x !in Used(f', elems) && |Used(f', elems)| < 2
    ensures f'[x] == 0 && x !in forced && |forced + {x}| == |forced| + 1
    ensures Used(f'[x := 1], elems) == Used(f', elems) + {x}
    ensures |Used(f'[x := 1], elems)| == |Used(f', elems)| + 1
    ensures Forcing(f, f'[x := 1], elems, forced + {x})
  {
    UsedForced(f', elems, x);
    UsedWithForced(f, f', elems, forced);
    DisjointSize(Used(f, elems), forced);
    hide Used;
  }

  lemma UsedWithForced(f: seq<nat>, f': seq<nat>, elems: nat, forced: set<nat>)
    requires Forcing(f, f', elems, forced)
    ensures Used(f', elems) == Used(f, elems) + forced && Used(f, elems) !! forced
  {
  }

  lemma DisjointSize(a: set<nat>, b: set<nat>)
    requires a !! b
    ensures |a + b| == |a| + |b|
  {
  }

  /** Bits of the static codes of the symbols in s. */
  function StaticBits(desc: StaticDesc, s: set<nat>): int
    requires DescOk(desc)
  {
    if desc.stree == [] then 0 else Sum(s, desc.stree, desc.elems)
  }

  lemma {:induction false} StaticNone(desc: StaticDesc, n: nat)
    requires DescOk(desc)
    ensures StaticBits(desc, {}) == 0
  {
    if desc.stree != [] { SumEmpty(desc.stree, desc.elems); }
  }

  lemma {:induction false} SumEmpty(f: seq<int>, n: nat)
    requires n <= |f|
    ensures Sum({}, f, n) == 0
  {
    if n > 0 { SumEmpty(f, n - 1); }
  }

  lemma StaticAdd(desc: StaticDesc, s: set<nat>, x: nat)
    requires DescOk(desc) && x !in s && x < desc.elems
    ensures StaticBits(desc, s + {x}) == StaticBits(desc, s) + if desc.stree == [] then 0 else desc.stree[x]
  {
    if desc.stree != [] { SumAdd(s, desc.stree, desc.elems, x); }
  }

  lemma ForcedIsNew(s: set<nat>, m: int, len: nat)
    requires IsMax(s, m) && |s| == len < 2
    ensures ForcedSymbol(m) !in s && ForcedSymbol(m) < 3
    ensures IsMax(s + {ForcedSymbol(m)}, if m < 2 then m + 1 else m)
  {
    if s != {} {
      var r := s - {m};
      assert |r| == 0;
      assert s == {m};
    }
  }

  /** heap[1..len] holds the nodes of s, each once. */
  ghost predicate Holds(h: seq<nat>, len: nat, s: set<nat>) {
    len < |h| && multiset(h[1..len + 1]) == multiset(s)
  }

  /** The queue before the first merge: the symbols of s, all of depth 0. */
  ghost predicate Queued(h: seq<nat>, len: nat, d: seq<nat>, s: set<nat>, maxCode: int) {
    && |h| == |d| == HEAP_SIZE && Holds(h, len, s) && IsMax(s, maxCode)
    && forall x :: x in s ==> x < |d| && d[x] == 0
  }

  /** Symbols below n that do not occur have length 0. */
  ghost predicate Cleared(f: seq<nat>, l: seq<nat>, n: nat) {
    n <= |f| && n <= |l| && forall x :: 0 <= x < n && f[x] == 0 ==> l[x] == 0
  }

  lemma QueuedNone(h: seq<nat>, d: seq<nat>, f: seq<nat>)
    requires |h| == |d| == HEAP_SIZE
    ensures Queued(h, 0, d, Used(f, 0), -1)
  {
    assert h[1..1] == [];
  }

  lemma QueuedFacts(h: seq<nat>, len: nat, d: seq<nat>, s: set<nat>, m: int)
    requires Queued(h, len, d, s, m)
    ensures |s| == len && IsMax(s, m)
  {
    HoldsCount(h, len, s);
  }

  lemma HoldsAdd(h: seq<nat>, len: nat, s: set<nat>, x: nat)
    requires Holds(h, len, s) && x !in s && len + 1 < |h|
    ensures Holds(h[len + 1 := x], len + 1, s + {x})
  {
    var h' := h[len + 1 := x];
    assert h'[1..len + 2] == h[1..len + 1] + [x];
  }

  lemma HoldsCount(h: seq<nat>, len: nat, s: set<nat>)
    requires Holds(h, len, s)
    ensures |s| == len
  {
    assert |multiset(h[1..len + 1])| == len;
  }

  lemma HoldsIn(h: seq<nat>, len: nat, s: set<nat>, i: nat)
    requires Holds(h, len, s) && 1 <= i <= len
    ensures h[i] in s
  {
    assert h[1..len + 1][i - 1] == h[i];
    assert h[i] in multiset(h[1..len + 1]);
  }

  lemma HoldsAt(h: seq<nat>, len: nat, s: set<nat>, x: nat) returns (i: nat)
    requires Holds(h, len, s) && x in s
    ensures 1 <= i <= len && h[i] == x
  {
    assert x in multiset(h[1..len + 1]);
    var j :| 0 <= j < len && h[1..len + 1][j] == x;
    i := j + 1;
  }

  // ---- pqremove and the new node ----

  /** heap[1] := heap[len--] */
  lemma HoldsPop(h: seq<nat>, len: nat, s: set<nat>)
    requires Holds(h, len, s) && 1 <= len
    ensures h[1] in s
    ensures len > 1 ==> Holds(h[1 := h[len]], len - 1, s - {h[1]})
  {
    HoldsIn(h, len, s, 1);
    if len > 1 {
      var h' := h[1 := h[len]];
      assert h[1..len + 1] == [h[1]] + h[2..len] + [h[len]];
      assert h'[1..len] == [h[len]] + h[2..len];
      assert multiset(s - {h[1]}) == multiset(s) - multiset{h[1]};
    }
  }

  lemma PopReady(h: seq<nat>, len: nat, s: set<nat>, w: seq<nat>, d: seq<nat>)
    requires Holds(h, len, s) && 2 <= len && NodesOk(h, len, w, d) && HeapFrom(h, len, w, d, 1)
    ensures var h' := h[1 := h[len]];
            Holds(h', len - 1, s - {h[1]}) && NodesOk(h', len - 1, w, d) && HeapFrom(h', len - 1, w, d, 2)
  {
    HoldsPop(h, len, s);
    HeapBelowRoot(h, len, h[1 := h[len]], len - 1, w, d);
  }

  lemma HoldsReplace(h: seq<nat>, len: nat, s: set<nat>, x: nat)
    requires Holds(h, len, s) && 1 <= len && x !in s
    ensures h[1] in s && Holds(h[1 := x], len, s - {h[1]} + {x})
  {
    HoldsIn(h, len, s, 1);
    var h' := h[1 := x];
    assert h[1..len + 1] == [h[1]] + h[2..len + 1];
    assert h'[1..len + 1] == [x] + h[2..len + 1];
    assert multiset(s - {h[1]}) == multiset(s) - multiset{h[1]};
  }

  /** Putting a node that is not in the queue at the root. */
  lemma ReplaceReady(h: seq<nat>, h': seq<nat>, len: nat, s: set<nat>, w: seq<nat>, d: seq<nat>,
                     node: nat, w': seq<nat>, d': seq<nat>)
    requires Holds(h, len, s) && 1 <= len && NodesOk(h, len, w, d) && HeapFrom(h, len, w, d, 1)
    requires node !in s && node < |w| == |w'| && node < |d| == |d'|
    requires forall x :: 0 <= x < |w| && x != node ==> w'[x] == w[x]
    requires forall x :: 0 <= x < |d| && x != node ==> d'[x] == d[x]
    requires |h'| == |h| && h'[1] == node && forall i :: 2 <= i <= len ==> h'[i] == h[i]
    ensures Holds(h', len, s - {h[1]} + {node}) && NodesOk(h', len, w', d') && HeapFrom(h', len, w', d', 2)
  {
    HoldsReplace(h, len, s, node);
    assert h'[1..len + 1] == h[1 := node][1..len + 1];
    forall i | 1 <= i <= len ensures h[i] != node { HoldsIn(h, len, s, i); }
  }

  lemma HoldsMoved(h: seq<nat>, h': seq<nat>, len: nat, s: set<nat>)
    requires Holds(h, len, s) && |h'| == |h| && multiset(h'[1..len + 1]) == multiset(h[1..len + 1])
    ensures Holds(h', len, s)
  {
  }

  lemma LightestIn(s: set<nat>, w: seq<nat>, n: nat, m: nat, h: History)
    requires Lightest(s, w, n, m) && Greedy(h, w) && s == Active(h, |h.pairs|)
    ensures n in s && m in s && n < h.elems + |h.pairs| && m < h.elems + |h.pairs|
    ensures (n < h.elems ==> n in h.leaves) && (m < h.elems ==> m in h.leaves)
  {
    ActiveBound(h, |h.pairs|, n);
    ActiveBound(h, |h.pairs|, m);
  }

  /** With n and m recorded and node at the root, the queue holds s and is in
      order below the root. */
  ghost predicate Joined(h: seq<nat>, len: nat, max: nat, w: seq<nat>, d: seq<nat>, n: nat, m: nat, node: nat,
                         s: set<nat>) {
    && max + 1 < |h| && 1 < |h| && n < |w| && m < |w| && node < |w| && n < |d| && m < |d| && node < |d|
    && var h' := h[max + 1 := n][max := m][1 := node];
       var w', d' := w[node := w[n] + w[m]], d[node := (if d[n] >= d[m] then d[n] else d[m]) + 1];
       Holds(h', len, s) && NodesOk(h', len, w', d') && HeapFrom(h', len, w', d', 2)
  }

  lemma JoinReady(h: seq<nat>, len: nat, max: nat, s: set<nat>, w: seq<nat>, d: seq<nat>, n: nat, m: nat, node: nat)
    requires Holds(h, len, s) && 1 <= len < max && max + 1 < |h| && NodesOk(h, len, w, d) && HeapFrom(h, len, w, d, 1)
    requires node !in s && node < |w| && node < |d| && n < |w| && m < |w| && n < |d| && m < |d|
    ensures Joined(h, len, max, w, d, n, m, node, s - {h[1]} + {node})
  {
    ReplaceReady(h, h[max + 1 := n][max := m][1 := node], len, s, w, d, node,
      w[node := w[n] + w[m]], d[node := (if d[n] >= d[m] then d[n] else d[m]) + 1]);
  }

  /** Changing the root leaves the rest of the heap in order. */
  lemma HeapBelowRoot(h: seq<nat>, len: nat, h': seq<nat>, len': nat, w: seq<nat>, d: seq<nat>)
    requires NodesOk(h, len, w, d) && HeapFrom(h, len, w, d, 1)
    requires 1 <= len' <= len && |h'| == |h| && NodesOk(h', len', w, d)
    requires forall i :: 2 <= i <= len' ==> h'[i] == h[i]
    ensures HeapFrom(h', len', w, d, 2)
  {
  }

  /** The first node popped and the next one at the root are the two lightest. */
  lemma TwoLightest(h0: seq<nat>, len: nat, h1: seq<nat>, w: seq<nat>, d: seq<nat>, s: set<nat>)
    requires 2 <= len && Holds(h0, len, s) && NodesOk(h0, len, w, d) && HeapFrom(h0, len, w, d, 1)
    requires Holds(h1, len - 1, s - {h0[1]}) && NodesOk(h1, len - 1, w, d) && HeapFrom(h1, len - 1, w, d, 1)
    ensures Lightest(s, w, h0[1], h1[1])
    ensures w[h0[1]] <= w[h1[1]]
  {
    HoldsIn(h0, len, s, 1);
    HoldsIn(h1, len - 1, s - {h0[1]}, 1);
    forall x | x in s
      ensures x < |w| && w[h0[1]] <= w[x] && (x != h0[1] ==> w[h1[1]] <= w[x])
    {
      var i := HoldsAt(h0, len, s, x);
      RootSmallest(h0, len, w, d, i);
      if x != h0[1] {
        var j := HoldsAt(h1, len - 1, s - {h0[1]}, x);
        RootSmallest(h1, len - 1, w, d, j);
      }
    }
  }

  // ---- One merge ----

  function Fib(n: nat): nat {
    if n < 2 then n else Fib(n - 1) + Fib(n - 2)
  }

  /** The merged nodes stand in the heap array from the end, lightest last. */
  ghost predicate Recorded(heap: seq<nat>, h: History) {
    && 2 * |h.pairs| < |heap|
    && forall t :: 0 <= t < |h.pairs| ==>
      heap[|heap| - 1 - 2 * t] == h.pairs[t].0 && heap[|heap| - 2 - 2 * t] == h.pairs[t].1
  }

  ghost predicate Fathers(dl: seq<nat>, h: History) {
    forall t :: 0 <= t < |h.pairs| ==> IsFather(dl, h, t)
  }

  ghost predicate IsFather(dl: seq<nat>, h: History, t: nat)
    requires t < |h.pairs|
  {
    var (n, m) := h.pairs[t];
    n < |dl| && m < |dl| && dl[n] == h.elems + t && dl[m] == h.elems + t
  }

  /** From index lo on, nodes stand in order of decreasing frequency. */
  ghost predicate Decreasing(heap: seq<nat>, lo: nat, w: seq<nat>) {
    && (forall i :: lo <= i < |heap| ==> heap[i] < |w|)
    && forall i, j :: lo <= i <= j < |heap| ==> w[heap[i]] >= w[heap[j]]
  }

  /** Every root weighs at least floor, the weight of the last node merged, and
      enough for its depth. */
  ghost predicate Grown(s: set<nat>, w: seq<nat>, d: seq<nat>, floor: nat) {
    forall x :: x in s ==> x < |w| && x < |d| && GrownAt(w, d, floor, x)
  }

  ghost predicate GrownAt(w: seq<nat>, d: seq<nat>, floor: nat, x: nat)
    requires x < |w| && x < |d|
  {
    w[x] >= floor && w[x] >= Fib(d[x] + 2) && (d[x] > 0 ==> floor >= Fib(d[x] + 1))
  }

  /** depth holds the heights of the trees. */
  ghost predicate Measured(s: set<nat>, d: seq<nat>, h: History) {
    forall x :: x in s ==> x < |d| && d[x] == Height(h, x)
  }

  lemma MeasuredStep(s: set<nat>, d: seq<nat>, h: History, w: seq<nat>, n: nat, m: nat)
    requires Measured(s, d, h) && s == Active(h, |h.pairs|) && Greedy(h, w) && n in s && m in s
    requires h.elems + |h.pairs| < |d|
    ensures n < |d| && m < |d|
    ensures var node := h.elems + |h.pairs|;
      Measured(s - {n, m} + {node}, d[node := (if d[n] >= d[m] then d[n] else d[m]) + 1],
        h.(pairs := h.pairs + [(n, m)]))
  {
    var node, h' := h.elems + |h.pairs|, h.(pairs := h.pairs + [(n, m)]);
    forall x | x in s ensures x < node && Height(h', x) == Height(h, x) {
      ActiveBound(h, |h.pairs|, x);
      HeightPrefix(h, h', x);
    }
    assert Height(h', node) == 1 + Larger(Height(h', n), Height(h', m));
    hide Height, Active;
  }

  ghost predicate Combining(heap: seq<nat>, len: nat, max: nat, w: seq<nat>, d: seq<nat>, dl: seq<nat>, h: History,
                            floor: nat) {
    && |heap| == |d| == HEAP_SIZE && |w| == |dl| == 2 * h.elems + 1
    && 1 <= len && len + |h.pairs| == |h.leaves| <= h.elems && 2 * h.elems < HEAP_SIZE
    && max == HEAP_SIZE - 2 * |h.pairs|
    && Greedy(h, w) && Holds(heap, len, Active(h, |h.pairs|))
    && NodesOk(heap, len, w, d) && HeapFrom(heap, len, w, d, 1)
    && Recorded(heap, h) && Fathers(dl, h)
    && Decreasing(heap, max, w) && (|h.pairs| > 0 ==> w[heap[max]] == floor)
    && Grown(Active(h, |h.pairs|), w, d, floor) && Measured(Active(h, |h.pairs|), d, h)
  }

  lemma GreedyExtend(h: History, w: seq<nat>, n: nat, m: nat)
    requires Greedy(h, w) && h.elems + |h.pairs| < |w|
    requires Lightest(Active(h, |h.pairs|), w, n, m)
    ensures Greedy(h.(pairs := h.pairs + [(n, m)]), w[h.elems + |h.pairs| := w[n] + w[m]])
    ensures Active(h.(pairs := h.pairs + [(n, m)]), |h.pairs| + 1)
         == Active(h, |h.pairs|) - {n, m} + {h.elems + |h.pairs|}
  {
    var k := |h.pairs|;
    var h' := h.(pairs := h.pairs + [(n, m)]);
    var w' := w[h.elems + k := w[n] + w[m]];
    forall t | 0 <= t <= k
      ensures Active(h', t) == Active(h, t)
      ensures forall x :: x in Active(h, t) ==> x < h.elems + t
    {
      ActivePrefix(h, h', t);
      forall x | x in Active(h, t) ensures x < h.elems + t { ActiveBound(h, t, x); }
    }
    forall t | 0 <= t < k + 1
      ensures MergeOk(h', w', t)
    {
      if t < k { assert MergeOk(h, w, t); }
    }
  }

  lemma FibGrows(a: nat, b: nat)
    requires a <= b
    ensures Fib(a) <= Fib(b)
  {
    if a < b { FibGrows(a, b - 1); }
  }

  /** The new root is heavy enough for its depth. */
  lemma GrownNode(w: seq<nat>, d: seq<nat>, floor: nat, n: nat, m: nat)
    requires n < |w| && m < |w| && n < |d| && m < |d|
    requires GrownAt(w, d, floor, n) && GrownAt(w, d, floor, m) && w[n] <= w[m]
    ensures var e := (if d[n] >= d[m] then d[n] else d[m]) + 1;
            w[n] + w[m] >= Fib(e + 2) && w[m] >= Fib(e + 1)
  {
    var e := (if d[n] >= d[m] then d[n] else d[m]) + 1;
    assert Fib(e + 2) == Fib(e + 1) + Fib(e);
    assert Fib(2) == 1 && Fib(1) == 1;
  }

  lemma GrownStep(s: set<nat>, w: seq<nat>, d: seq<nat>, floor: nat, n: nat, m: nat, node: nat)
    requires Grown(s, w, d, floor) && Lightest(s, w, n, m) && w[n] <= w[m] && node !in s && node < |w| && node < |d|
    ensures var e := (if d[n] >= d[m] then d[n] else d[m]) + 1;
            Grown(s - {n, m} + {node}, w[node := w[n] + w[m]], d[node := e], w[m])
  {
    GrownNode(w, d, floor, n, m);
    var e := (if d[n] >= d[m] then d[n] else d[m]) + 1;
    var w', d' := w[node := w[n] + w[m]], d[node := e];
    forall x | x in s - {n, m} + {node}
      ensures x < |w'| && x < |d'| && GrownAt(w', d', w[m], x)
    {
      if x != node { assert GrownAt(w, d, floor, x); }
    }
  }

  lemma TotalStep(s: set<nat>, w: seq<nat>, n: nat, m: nat, node: nat)
    requires Lightest(s, w, n, m) && node !in s && node < |w|
    ensures Sum(s - {n, m} + {node}, w[node := w[n] + w[m]], |w|) == Sum(s, w, |w|)
  {
    var w' := w[node := w[n] + w[m]];
    SumUpdate(s, w, |w|, node, w[n] + w[m]);
    SumMerge(s, w', n, m, node);
  }

  lemma FibOver()
    ensures Fib(25) == 75025
  {
    assert Fib(10) == 55 && Fib(11) == 89;
    assert Fib(20) == 6765 && Fib(21) == 10946;
  }

  /** Neither the 16-bit frequency nor the byte-sized depth of a new node wraps. */
  lemma NoWrap(s: set<nat>, w: seq<nat>, d: seq<nat>, floor: nat, n: nat, m: nat)
    requires Grown(s, w, d, floor) && Lightest(s, w, n, m) && Sum(s, w, |w|) < 0x10000
    ensures w[n] + w[m] < 0x10000
    ensures d[n] <= 22 && d[m] <= 22
  {
    hide Fib;
    SumAdd(s - {n}, w, |w|, n);
    assert s - {n} + {n} == s;
    SumNonneg(s - {n}, w, |w|);
    SumNonneg(s, w, |w|);
    Shallow(w[n], d[n]);
    Shallow(w[m], d[m]);
  }

  /** A tree of depth d weighs at least Fib(d + 2). */
  lemma Shallow(w: nat, d: nat)
    requires w >= Fib(d + 2) && w < 0x10000
    ensures d <= 22
  {
    FibOver();
    hide Fib;
    if d > 22 { FibGrows(25, d + 2); }
  }

  /** Entries that a merge writes outside the queue. */
  lemma RecordedStep(heap: seq<nat>, heap': seq<nat>, h: History, n: nat, m: nat)
    requires Recorded(heap, h) && |heap'| == |heap| && 2 * |h.pairs| + 2 < |heap|
    requires heap'[|heap| - 1 - 2 * |h.pairs|] == n && heap'[|heap| - 2 - 2 * |h.pairs|] == m
    requires forall i :: |heap| - 2 * |h.pairs| <= i < |heap| ==> heap'[i] == heap[i]
    ensures Recorded(heap', h.(pairs := h.pairs + [(n, m)]))
  {
  }

  lemma FathersStep(dl: seq<nat>, w: seq<nat>, h: History, n: nat, m: nat)
    requires Fathers(dl, h) && Greedy(h, w) && n < |dl| && m < |dl| && n != m
    requires n in Active(h, |h.pairs|) && m in Active(h, |h.pairs|)
    ensures Fathers(dl[n := h.elems + |h.pairs|][m := h.elems + |h.pairs|], h.(pairs := h.pairs + [(n, m)]))
  {
    var k := |h.pairs|;
    var dl' := dl[n := h.elems + k][m := h.elems + k];
    var h' := h.(pairs := h.pairs + [(n, m)]);
    forall t | 0 <= t < |h'.pairs|
      ensures IsFather(dl', h', t)
    {
      if t < k {
        assert IsFather(dl, h, t);
        Gone(h, w, t, k);
      }
    }
  }

  lemma DecreasingStep(heap: seq<nat>, heap': seq<nat>, lo: nat, w: seq<nat>, node: nat, v: nat, n: nat, m: nat)
    requires Decreasing(heap, lo, w) && 2 <= lo <= |heap| == |heap'| && n < |w| && m < |w|
    requires heap'[lo - 1] == n && heap'[lo - 2] == m && w[n] <= w[m] && node < |w|
    requires forall i :: lo <= i < |heap| ==> heap'[i] == heap[i] && heap[i] != node
    requires n != node && m != node
    requires lo < |heap| ==> w[heap[lo]] <= w[n]
    ensures Decreasing(heap', lo - 2, w[node := v])
  {
  }

  /** All that one turn of the loop does to the arrays. */
  ghost predicate MergeTurn(heap: seq<nat>, len: nat, max: nat, w: seq<nat>, d: seq<nat>, dl: seq<nat>, h: History,
                            n: nat, m: nat, heap': seq<nat>, w': seq<nat>, d': seq<nat>, dl': seq<nat>)
  {
    var node := h.elems + |h.pairs|;
    && n < |w| && m < |w| && node < |w| && |w| == |dl| && n < |d| && m < |d| && node < |d|
    && w' == w[node := w[n] + w[m]]
    && d' == d[node := (if d[n] >= d[m] then d[n] else d[m]) + 1]
    && dl' == dl[n := node][m := node]
    && |heap'| == |heap| && 2 <= max <= |heap| && len <= max - 2
    && heap'[max - 1] == n && heap'[max - 2] == m
    && (forall i :: max <= i < |heap| ==> heap'[i] == heap[i])
  }

  lemma TurnMoved(heap: seq<nat>, len: nat, max: nat, w: seq<nat>, d: seq<nat>, dl: seq<nat>, h: History, n: nat,
                  m: nat, heap2: seq<nat>, heap3: seq<nat>, w': seq<nat>, d': seq<nat>, dl': seq<nat>)
    requires MergeTurn(heap, len, max, w, d, dl, h, n, m, heap2, w', d', dl') && len >= 1
    requires SameOutside(heap2, heap3, 1, len - 1)
    ensures MergeTurn(heap, len, max, w, d, dl, h, n, m, heap3, w', d', dl')
  {
  }

  lemma MergeKeeps(heap: seq<nat>, len: nat, max: nat, w: seq<nat>, d: seq<nat>, dl: seq<nat>, h: History, floor: nat,
                   n: nat, m: nat, heap': seq<nat>, w': seq<nat>, d': seq<nat>, dl': seq<nat>)
    requires Combining(heap, len, max, w, d, dl, h, floor) && len >= 2
    requires Lightest(Active(h, |h.pairs|), w, n, m) && w[n] <= w[m]
    requires MergeTurn(heap, len, max, w, d, dl, h, n, m, heap', w', d', dl')
    requires Holds(heap', len - 1, Active(h, |h.pairs|) - {n, m} + {h.elems + |h.pairs|})
    requires NodesOk(heap', len - 1, w', d') && HeapFrom(heap', len - 1, w', d', 1)
    ensures Combining(heap', len - 1, max - 2, w', d', dl', h.(pairs := h.pairs + [(n, m)]), w[m])
  {
    hide Holds, HeapFrom, NodesOk, Fathers, Greedy, Measured, Grown, Recorded, Decreasing, Active, Height, Fib;
    FloorBelow(Active(h, |h.pairs|), w, d, floor, n, m);
    var node := h.elems + |h.pairs|;
    GreedyExtend(h, w, n, m);
    MeasuredStep(Active(h, |h.pairs|), d, h, w, n, m);
    NodeIsNew(h, w);
    GrownStep(Active(h, |h.pairs|), w, d, floor, n, m, node);
    RecordedStep(heap, heap', h, n, m);
    FathersStep(dl, w, h, n, m);
    TailBelow(heap, h, w, max);
    DecreasingStep(heap, heap', max, w, node, w[n] + w[m], n, m);
  }

  lemma FloorBelow(s: set<nat>, w: seq<nat>, d: seq<nat>, floor: nat, n: nat, m: nat)
    requires Grown(s, w, d, floor) && Lightest(s, w, n, m)
    ensures n in s && m in s && n != m && n < |w| && m < |w| && floor <= w[n]
  {
    assert GrownAt(w, d, floor, n);
    hide Fib;
  }

  lemma NodeIsNew(h: History, w: seq<nat>)
    requires Greedy(h, w)
    ensures h.elems + |h.pairs| !in Active(h, |h.pairs|)
  {
    if h.elems + |h.pairs| in Active(h, |h.pairs|) { ActiveBound(h, |h.pairs|, h.elems + |h.pairs|); }
  }

  /** Nodes that were merged are older than the next one. */
  lemma TailBelow(heap: seq<nat>, h: History, w: seq<nat>, max: nat)
    requires Greedy(h, w) && Recorded(heap, h) && max == |heap| - 2 * |h.pairs|
    ensures forall i :: max <= i < |heap| ==> heap[i] < h.elems + |h.pairs|
  {
    forall i | max <= i < |heap|
      ensures heap[i] < h.elems + |h.pairs|
    {
      var t := (|heap| - 1 - i) / 2;
      assert i == |heap| - 1 - 2 * t || i == |heap| - 2 - 2 * t;
      Undo(h, w, t);
    }
  }

  // ---- The construction ----

  /** What the merges leave behind: the history, recorded in the heap array from
      heapMax on with the root first, and the fathers. */
  ghost predicate Built(heap: seq<nat>, heapMax: nat, w: seq<nat>, dl: seq<nat>, h: History, root: nat) {
    && |heap| == HEAP_SIZE && heapMax == HEAP_SIZE - 1 - 2 * |h.pairs| && heap[heapMax] == root
    && |w| == |dl| == 2 * h.elems + 1 && 0 < |h.pairs| && root < |w| && |h.pairs| < |h.leaves| <= h.elems
    && Greedy(h, w) && OneRoot(h, root) && Recorded(heap, h) && Fathers(dl, h)
    && Decreasing(heap, heapMax, w)
  }

  lemma LeavesInOrder(h: seq<nat>, len: nat, w: seq<nat>, d: seq<nat>)
    requires NodesOk(h, len, w, d)
    ensures HeapFrom(h, len, w, d, len / 2 + 1)
  {
  }

  /** The root has the frequency total, which bounds its depth, the height of the tree. */
  ghost predicate DeepEnough(w: seq<nat>, d: seq<nat>, root: nat, h: History, total: int) {
    root < |w| && root < |d| && total == w[root] >= Fib(d[root] + 2) && d[root] == Height(h, root) <= 22
  }

  ghost predicate SameBelow(f: seq<nat>, f': seq<nat>, elems: nat) {
    |f| == |f'| && elems <= |f| && forall x :: 0 <= x < elems ==> f'[x] == f[x]
  }

  ghost predicate SameUnused(l: seq<nat>, l': seq<nat>, elems: nat, leaves: set<nat>) {
    |l| == |l'| && elems <= |l| && forall x :: 0 <= x < elems && x !in leaves ==> l'[x] == l[x]
  }

  lemma {:induction false} SumOne(x: nat, f: seq<int>, n: nat)
    requires n <= |f| && x < |f|
    ensures Sum({x}, f, n) == if x < n then f[x] else 0
  {
    if n > 0 { SumOne(x, f, n - 1); }
  }

  lemma LastActive(heap: seq<nat>, s: set<nat>)
    requires Holds(heap, 1, s)
    ensures s == {heap[1]}
  {
    HoldsIn(heap, 1, s, 1);
    HoldsCount(heap, 1, s);
    var r := s - {heap[1]};
    assert |r| == 0;
  }

  /** The root goes in front of the recorded nodes, and is the heaviest. */
  lemma RootFirst(heap: seq<nat>, max: nat, w: seq<nat>, h: History, root: nat, floor: nat)
    requires Recorded(heap, h) && Decreasing(heap, max, w) && root < |w|
    requires 1 < max < |heap| && w[heap[max]] == floor <= w[root] && max == |heap| - 2 * |h.pairs|
    ensures Recorded(heap[max - 1 := root], h) && Decreasing(heap[max - 1 := root], max - 1, w)
  {
  }

  lemma LastRoot(heap: seq<nat>, max: nat, w: seq<nat>, d: seq<nat>, dl: seq<nat>, h: History, floor: nat)
    requires Combining(heap, 1, max, w, d, dl, h, floor) && |h.pairs| > 0
    requires Sum(Active(h, |h.pairs|), w, |w|) < 0x10000
    ensures max > 1 && Built(heap[max - 1 := heap[1]], max - 1, w, dl, h, heap[1])
    ensures DeepEnough(w, d, heap[1], h, Sum(Active(h, |h.pairs|), w, |w|))
  {
    hide Sum, Fib, Height, Greedy, Recorded, Fathers, Decreasing, Holds, NodesOk, HeapFrom, Active;
    var root := heap[1];
    LastActive(heap, Active(h, |h.pairs|));
    assert OneRoot(h, root);
    assert GrownAt(w, d, floor, root);
    SumOne(root, w, |w|);
    Shallow(w[root], d[root]);
    RootFirst(heap, max, w, h, root, floor);
  }

  lemma HeapSize(heap: seq<nat>, len: nat, max: nat, w: seq<nat>, d: seq<nat>, dl: seq<nat>, h: History, floor: nat)
    requires Combining(heap, len, max, w, d, dl, h, floor)
    ensures |heap| == HEAP_SIZE > 1 && max <= |heap|
  {
    hide Greedy, Holds, NodesOk, HeapFrom, Recorded, Fathers, Decreasing, Grown, Measured, Active;
  }

  lemma LeavesGrown(s: set<nat>, w: seq<nat>, d: seq<nat>)
    requires forall x :: x in s ==> x < |w| && x < |d| && w[x] > 0 && d[x] == 0
    ensures Grown(s, w, d, 0)
  {
    assert Fib(2) == 1;
    hide Fib;
  }

  /** Before the first merge. */
  lemma BeginCombining(heap: seq<nat>, len: nat, w: seq<nat>, d: seq<nat>, dl: seq<nat>, leaves: set<nat>, elems: nat)
    requires |heap| == |d| == HEAP_SIZE && |w| == |dl| == 2 * elems + 1 && 2 * elems < HEAP_SIZE
    requires Holds(heap, len, leaves) && NodesOk(heap, len, w, d) && HeapFrom(heap, len, w, d, 1)
    requires leaves == Used(w, elems) && 1 <= len == |leaves| <= elems
    requires forall x :: x in leaves ==> x < |d| && d[x] == 0
    ensures Combining(heap, len, HEAP_SIZE, w, d, dl, History(leaves, elems, []), 0)
  {
    hide Holds, NodesOk, HeapFrom;
    LeavesGrown(leaves, w, d);
    LeavesMeasured(leaves, d, elems, w);
  }

  lemma LeavesMeasured(leaves: set<nat>, d: seq<nat>, elems: nat, w: seq<nat>)
    requires elems <= |w| && leaves == Used(w, elems) && forall x :: x in leaves ==> x < |d| && d[x] == 0
    ensures Measured(leaves, d, History(leaves, elems, []))
  {
  }

  lemma StartCombining(heap: seq<nat>, len: nat, w: seq<nat>, d: seq<nat>, leaves: set<nat>, elems: nat, maxCode: int)
    requires Queued(heap, len, d, leaves, maxCode) && elems <= |w| && leaves == Used(w, elems)
    ensures Holds(heap, len, leaves) && NodesOk(heap, len, w, d) && |leaves| == len
    ensures forall x :: x in leaves ==> x < |d| && d[x] == 0
  {
    HoldsCount(heap, len, leaves);
    forall i | 1 <= i <= len ensures heap[i] in leaves { HoldsIn(heap, len, leaves, i); }
  }

  class DeflateState {
    const heap: array<nat>
    const depth: array<nat>
    const blCount: array<nat>
    var heapLen: nat
    var heapMax: nat
    var optLen: int
    var staticLen: int

    constructor ()
      ensures Valid() && fresh(heap) && fresh(depth) && fresh(blCount)
    {
      heap := new nat[HEAP_SIZE](i => 0);
      depth := new nat[HEAP_SIZE](i => 0);
      blCount := new nat[16](i => 0);
      heapLen, heapMax, optLen, staticLen := 0, HEAP_SIZE, 0, 0;
    }

    ghost predicate Valid() {
      && heap.Length == depth.Length == HEAP_SIZE && blCount.Length == 16
      && heap != depth && heap != blCount && depth != blCount
    }

    ghost predicate Apart(tree: Tree) {
      && tree.fc != heap && tree.fc != depth && tree.fc != blCount
      && tree.dl != heap && tree.dl != depth && tree.dl != blCount
    }

    /** pqremove: take the smallest node off the queue. */
    method PqRemove(fc: array<nat>, ghost s: set<nat>) returns (top: nat)
      requires Valid() && fc != heap && 2 <= heapLen
      requires Holds(heap[..], heapLen, s)
      requires NodesOk(heap[..], heapLen, fc[..], depth[..]) && HeapFrom(heap[..], heapLen, fc[..], depth[..], 1)
      modifies heap, this`heapLen
      ensures heapLen == old(heapLen) - 1 && top == old(heap[1])
      ensures Holds(heap[..], heapLen, s - {top})
      ensures NodesOk(heap[..], heapLen, fc[..], depth[..]) && HeapFrom(heap[..], heapLen, fc[..], depth[..], 1)
      ensures forall i :: old(heapLen) <= i < heap.Length ==> heap[i] == old(heap[i])
    {
      hide HeapFrom, NodesOk, Smaller;
      top := heap[1];
      PopReady(heap[..], heapLen, s, fc[..], depth[..]);
      heap[1] := heap[heapLen];
      assert heap[..] == old(heap[..])[1 := old(heap[..])[heapLen]];
      heapLen := heapLen - 1;
      PqDownHeap(heap, heapLen, fc, depth, 1);
    }

    /** One turn of the loop that combines the two least frequent nodes. */
    method MergeTwo(tree: Tree, node: nat, ghost h: History, ghost floor: nat)
      returns (ghost h': History, ghost floor': nat)
      requires Valid() && tree.Valid() && Apart(tree)
      requires Combining(heap[..], heapLen, heapMax, tree.fc[..], depth[..], tree.dl[..], h, floor)
      requires heapLen >= 2 && node == h.elems + |h.pairs| && h.elems == tree.desc.elems
      requires Sum(Active(h, |h.pairs|), tree.fc[..], tree.fc.Length) < 0x10000
      modifies heap, depth, tree.fc, tree.dl, this`heapLen, this`heapMax
      ensures Combining(heap[..], heapLen, heapMax, tree.fc[..], depth[..], tree.dl[..], h', floor')
      ensures heapLen == old(heapLen) - 1
      ensures h'.leaves == h.leaves && h'.elems == h.elems && |h'.pairs| == |h.pairs| + 1
      ensures Sum(Active(h', |h'.pairs|), tree.fc[..], tree.fc.Length)
           == old(Sum(Active(h, |h.pairs|), tree.fc[..], tree.fc.Length))
      ensures SameBelow(old(tree.fc[..]), tree.fc[..], h.elems)
      ensures SameUnused(old(tree.dl[..]), tree.dl[..], h.elems, h.leaves)
    {
      hide HeapFrom, NodesOk, Smaller, Greedy, Recorded, Fathers, Decreasing, Grown, Active, Sum, Fib, Lightest, Holds;
      ghost var heap0: seq<nat>, w: seq<nat>, d: seq<nat>, dl: seq<nat> :=
        heap[..], tree.fc[..], depth[..], tree.dl[..];
      var n, m := TakeTwo(tree, node, h, floor);
      JoinNodes(tree, node, n, m);
      Reinsert(tree, heap0, w, d, dl, h, floor, n, m);
      h', floor' := h.(pairs := h.pairs + [(n, m)]), w[m];
      NodeIsNew(h, w);
      TotalStep(Active(h, |h.pairs|), w, n, m, node);
      GreedyExtend(h, w, n, m);
    }

    /** Take off the least frequent node and look at the next. */
    method TakeTwo(tree: Tree, ghost node: nat, ghost h: History, ghost floor: nat) returns (n: nat, m: nat)
      requires Valid() && tree.Valid() && Apart(tree)
      requires Combining(heap[..], heapLen, heapMax, tree.fc[..], depth[..], tree.dl[..], h, floor)
      requires heapLen >= 2 && node == h.elems + |h.pairs|
      requires Sum(Active(h, |h.pairs|), tree.fc[..], tree.fc.Length) < 0x10000
      modifies heap, this`heapLen
      ensures heapLen == old(heapLen) - 1 && n < node && m < node
      ensures (n < h.elems ==> n in h.leaves) && (m < h.elems ==> m in h.leaves)
      ensures tree.fc[n] + tree.fc[m] < 0x10000 && depth[n] <= 22 && depth[m] <= 22 && tree.fc[n] <= tree.fc[m]
      ensures Lightest(Active(h, |h.pairs|), tree.fc[..], n, m)
      ensures forall i :: old(heapLen) <= i < heap.Length ==> heap[i] == old(heap[i])
      ensures Joined(heap[..], heapLen, heapMax - 2, tree.fc[..], depth[..], n, m, node,
        Active(h, |h.pairs|) - {n, m} + {node})
    {
      hide HeapFrom, NodesOk, Smaller, Greedy, Recorded, Fathers, Decreasing, Grown, Active, Sum, Fib, Lightest, Holds;
      ghost var s := Active(h, |h.pairs|);
      ghost var heap0, w, d := heap[..], tree.fc[..], depth[..];
      NodeIsNew(h, w);
      n := PqRemove(tree.fc, s);
      m := heap[1];
      TwoLightest(heap0, heapLen + 1, heap[..], w, d, s);
      LightestIn(s, w, n, m, h);
      NoWrap(s, w, d, floor, n, m);
      JoinReady(heap[..], heapLen, heapMax - 2, s - {n}, w, d, n, m, node);
      assert s - {n} - {m} + {node} == s - {n, m} + {node};
    }

    /** Sift the new node down; the turn of the loop is then complete. */
    method Reinsert(tree: Tree, ghost heap0: seq<nat>, ghost w: seq<nat>, ghost d: seq<nat>, ghost dl: seq<nat>,
                    ghost h: History, ghost floor: nat, ghost n: nat, ghost m: nat)
      requires Valid() && tree.Valid() && Apart(tree) && heapLen >= 1
      requires Combining(heap0, heapLen + 1, heapMax + 2, w, d, dl, h, floor)
      requires Lightest(Active(h, |h.pairs|), w, n, m) && w[n] <= w[m]
      requires MergeTurn(heap0, heapLen + 1, heapMax + 2, w, d, dl, h, n, m, heap[..], tree.fc[..], depth[..],
        tree.dl[..])
      requires Holds(heap[..], heapLen, Active(h, |h.pairs|) - {n, m} + {h.elems + |h.pairs|})
      requires NodesOk(heap[..], heapLen, tree.fc[..], depth[..])
      requires HeapFrom(heap[..], heapLen, tree.fc[..], depth[..], 2)
      modifies heap
      ensures Combining(heap[..], heapLen, heapMax, tree.fc[..], depth[..], tree.dl[..],
                h.(pairs := h.pairs + [(n, m)]), w[m])
    {
      hide HeapFrom, NodesOk, Smaller, Combining, Lightest, Active, MergeTurn, Holds;
      ghost var heap2 := heap[..];
      PqDownHeap(heap, heapLen, tree.fc, depth, 1);
      HoldsMoved(heap2, heap[..], heapLen, Active(h, |h.pairs|) - {n, m} + {h.elems + |h.pairs|});
      TurnMoved(heap0, heapLen + 1, heapMax + 2, w, d, dl, h, n, m, heap2, heap[..], tree.fc[..], depth[..],
        tree.dl[..]);
      MergeKeeps(heap0, heapLen + 1, heapMax + 2, w, d, dl, h, floor, n, m, heap[..], tree.fc[..], depth[..],
        tree.dl[..]);
    }

    /** Record the two nodes, make their father and put it at the root. */
    method JoinNodes(tree: Tree, node: nat, n: nat, m: nat)
      requires Valid() && tree.Valid() && Apart(tree)
      requires n < node && m < node < tree.fc.Length <= HEAP_SIZE && 2 < heapMax <= HEAP_SIZE
      requires tree.fc[n] + tree.fc[m] < 0x10000 && depth[n] <= 22 && depth[m] <= 22
      modifies heap, depth, tree.fc, tree.dl, this`heapMax
      ensures heapMax == old(heapMax) - 2
      ensures heap[..] == old(heap[..])[heapMax + 1 := n][heapMax := m][1 := node]
      ensures tree.fc[..] == old(tree.fc[..])[node := old(tree.fc[n]) + old(tree.fc[m])]
      ensures depth[..] == old(depth[..])[node :=
        (if old(depth[n]) >= old(depth[m]) then old(depth[n]) else old(depth[m])) + 1]
      ensures tree.dl[..] == old(tree.dl[..])[n := node][m := node]
    {
      heapMax := heapMax - 1;
      heap[heapMax] := n;
      heapMax := heapMax - 1;
      heap[heapMax] := m;
      tree.fc[node] := (tree.fc[n] + tree.fc[m]) % 0x10000;
      depth[node] := ((if depth[n] >= depth[m] then depth[n] else depth[m]) + 1) % 0x100;
      tree.dl[n] := node;
      tree.dl[m] := node;
      heap[1] := node;
    }

    /** heap[++heap_len] = node, depth[node] = 0 */
    method Enqueue(node: nat, ghost s: set<nat>, ghost m: int, ghost m': int)
      requires Valid() && Queued(heap[..], heapLen, depth[..], s, m) && IsMax(s + {node}, m')
      requires heapLen + 1 < HEAP_SIZE && node < HEAP_SIZE && node !in s
      modifies heap, depth, this`heapLen
      ensures Queued(heap[..], heapLen, depth[..], s + {node}, m') && heapLen == old(heapLen) + 1
    {
      HoldsAdd(heap[..], heapLen, s, node);
      heapLen := heapLen + 1;
      ghost var h0 := heap[..];
      heap[heapLen] := node;
      assert heap[..] == h0[heapLen := node];
      hide Holds;
      depth[node] := 0;
    }

    /** Put the symbols that occur in the queue. */
    method CollectUsed(tree: Tree)
      requires Valid() && tree.Valid() && Apart(tree)
      modifies heap, depth, tree.dl, tree`maxCode, this`heapLen, this`heapMax
      ensures heapMax == HEAP_SIZE && heapLen <= tree.desc.elems
      ensures Queued(heap[..], heapLen, depth[..], Used(tree.fc[..], tree.desc.elems), tree.maxCode)
      ensures Cleared(tree.fc[..], tree.dl[..], tree.desc.elems)
    {
      hide Used, Queued, Cleared;
      EmptyQueue(tree);
      for n := 0 to tree.desc.elems
        invariant heapLen <= n && heapMax == HEAP_SIZE
        invariant Queued(heap[..], heapLen, depth[..], Used(tree.fc[..], n), tree.maxCode)
        invariant Cleared(tree.fc[..], tree.dl[..], n)
      {
        CollectOne(tree, n);
      }
    }

    method EmptyQueue(tree: Tree)
      requires Valid() && tree.Valid() && Apart(tree)
      modifies tree`maxCode, this`heapLen, this`heapMax
      ensures heapMax == HEAP_SIZE && heapLen == 0
      ensures Queued(heap[..], heapLen, depth[..], Used(tree.fc[..], 0), tree.maxCode)
      ensures Cleared(tree.fc[..], tree.dl[..], 0)
    {
      heapLen, heapMax := 0, HEAP_SIZE;
      tree.maxCode := -1;
      QueuedNone(heap[..], depth[..], tree.fc[..]);
    }

    method CollectOne(tree: Tree, n: nat)
      requires Valid() && tree.Valid() && Apart(tree) && heapLen <= n < tree.desc.elems
      requires Cleared(tree.fc[..], tree.dl[..], n)
      requires Queued(heap[..], heapLen, depth[..], Used(tree.fc[..], n), tree.maxCode)
      modifies heap, depth, tree.dl, tree`maxCode, this`heapLen
      ensures heapLen <= n + 1
      ensures Queued(heap[..], heapLen, depth[..], Used(tree.fc[..], n + 1), tree.maxCode)
      ensures Cleared(tree.fc[..], tree.dl[..], n + 1)
    {
      hide *;
      CollectFacts(this, tree, n);
      UsedStep(tree.fc[..], n);
      ClearedStep(tree.fc[..], tree.dl[..], n);
      if tree.fc[n] != 0 {
        Enqueue(n, Used(tree.fc[..], n), tree.maxCode, n);
        tree.maxCode := n;
      } else {
        tree.dl[n] := 0;
        assert tree.dl[..] == old(tree.dl[..])[n := 0];
      }
    }

    /** Force at least two codes.  The comment in the source says that the forced
        node is 0 or 1; it is 2 when only symbol 1 occurs. */
    method ForceTwo(tree: Tree) returns (ghost forced: set<nat>)
      requires Valid() && tree.Valid() && Apart(tree)
      requires heapMax == HEAP_SIZE && heapLen <= tree.desc.elems
      requires Queued(heap[..], heapLen, depth[..], Used(tree.fc[..], tree.desc.elems), tree.maxCode)
      modifies heap, depth, tree.fc, tree`maxCode, this`heapLen, this`optLen, this`staticLen
      ensures 2 <= heapLen <= tree.desc.elems
      ensures Queued(heap[..], heapLen, depth[..], Used(tree.fc[..], tree.desc.elems), tree.maxCode)
      ensures Forcing(old(tree.fc[..]), tree.fc[..], tree.desc.elems, forced)
      ensures optLen == old(optLen) - |forced|
      ensures staticLen == old(staticLen) - StaticBits(tree.desc, forced)
    {
      forced := {};
      StaticNone(tree.desc, tree.desc.elems);
      UsedBound(tree.fc[..], tree.desc.elems);
      hide Used, Queued, Forcing, StaticBits, Sum;
      while heapLen < 2
        invariant heapLen <= tree.desc.elems
        invariant Queued(heap[..], heapLen, depth[..], Used(tree.fc[..], tree.desc.elems), tree.maxCode)
        invariant Forcing(old(tree.fc[..]), tree.fc[..], tree.desc.elems, forced)
        invariant optLen == old(optLen) - |forced|
        invariant staticLen == old(staticLen) - StaticBits(tree.desc, forced)
        decreases 2 - heapLen
      {
        var node := ForceOne(tree, old(tree.fc[..]), forced);
        StaticAdd(tree.desc, forced, node);
        optLen := optLen - 1;
        if tree.desc.stree != [] { staticLen := staticLen - tree.desc.stree[node]; }
        forced := forced + {node};
      }
    }

    method ForceOne(tree: Tree, ghost f0: seq<nat>, ghost forced: set<nat>) returns (node: nat)
      requires Valid() && tree.Valid() && Apart(tree) && heapLen < 2
      requires Queued(heap[..], heapLen, depth[..], Used(tree.fc[..], tree.desc.elems), tree.maxCode)
      requires Forcing(f0, tree.fc[..], tree.desc.elems, forced)
      modifies heap, depth, tree.fc, tree`maxCode, this`heapLen
      ensures heapLen == old(heapLen) + 1 && node < 3 && node !in forced && |forced + {node}| == |forced| + 1
      ensures Queued(heap[..], heapLen, depth[..], Used(tree.fc[..], tree.desc.elems), tree.maxCode)
      ensures Forcing(f0, tree.fc[..], tree.desc.elems, forced + {node})
    {
      ghost var f1 := tree.fc[..];
      ghost var used := Used(f1, tree.desc.elems);
      QueuedFacts(heap[..], heapLen, depth[..], used, tree.maxCode);
      hide Used, Holds, IsMax, Forcing, StaticBits, Sum, Queued;
      node := ForcedSymbol(tree.maxCode);
      ForcedIsNew(used, tree.maxCode, heapLen);
      ForcingStep(f0, f1, tree.desc.elems, forced, node);
      ghost var m := tree.maxCode;
      if tree.maxCode < 2 { tree.maxCode := tree.maxCode + 1; }
      Enqueue(node, used, m, tree.maxCode);
      tree.fc[node] := 1;
      assert tree.fc[..] == f1[node := 1];
    }

    /** Put the queue in order, from the last father to the root. */
    method Heapify(tree: Tree, ghost s: set<nat>)
      requires Valid() && tree.Valid() && Apart(tree) && heapLen >= 2
      requires Holds(heap[..], heapLen, s) && NodesOk(heap[..], heapLen, tree.fc[..], depth[..])
      modifies heap
      ensures Holds(heap[..], heapLen, s) && NodesOk(heap[..], heapLen, tree.fc[..], depth[..])
      ensures HeapFrom(heap[..], heapLen, tree.fc[..], depth[..], 1)
    {
      var n: nat := heapLen / 2;
      LeavesInOrder(heap[..], heapLen, tree.fc[..], depth[..]);
      hide HeapFrom, NodesOk, Holds;
      while n >= 1
        invariant n <= heapLen / 2
        invariant Holds(heap[..], heapLen, s) && NodesOk(heap[..], heapLen, tree.fc[..], depth[..])
        invariant HeapFrom(heap[..], heapLen, tree.fc[..], depth[..], n + 1)
      {
        ghost var h0 := heap[..];
        PqDownHeap(heap, heapLen, tree.fc, depth, n);
        HoldsMoved(h0, heap[..], heapLen, s);
        n := n - 1;
      }
    }

    /** Combine the two least frequent nodes until one is left. */
    method Combine(tree: Tree, ghost leaves: set<nat>) returns (ghost h: History, ghost root: nat)
      requires Valid() && tree.Valid() && Apart(tree)
      requires heapMax == HEAP_SIZE && 2 <= heapLen <= tree.desc.elems
      requires Queued(heap[..], heapLen, depth[..], leaves, tree.maxCode)
      requires leaves == Used(tree.fc[..], tree.desc.elems)
      requires Sum(leaves, tree.fc[..], tree.fc.Length) < 0x10000
      modifies heap, depth, tree.fc, tree.dl, this`heapLen, this`heapMax
      ensures h.leaves == leaves && h.elems == tree.desc.elems
      ensures Built(heap[..], heapMax, tree.fc[..], tree.dl[..], h, root)
      ensures SameBelow(old(tree.fc[..]), tree.fc[..], h.elems)
      ensures SameUnused(old(tree.dl[..]), tree.dl[..], h.elems, leaves)
      ensures DeepEnough(tree.fc[..], depth[..], root, h, old(Sum(leaves, tree.fc[..], tree.fc.Length)))
    {
      Prepare(tree, leaves);
      h := MergeAll(tree, leaves);
      root := Close(tree, h);
    }

    method Prepare(tree: Tree, ghost leaves: set<nat>)
      requires Valid() && tree.Valid() && Apart(tree)
      requires heapMax == HEAP_SIZE && 2 <= heapLen <= tree.desc.elems
      requires Queued(heap[..], heapLen, depth[..], leaves, tree.maxCode)
      requires leaves == Used(tree.fc[..], tree.desc.elems)
      modifies heap
      ensures Combining(heap[..], heapLen, heapMax, tree.fc[..], depth[..], tree.dl[..],
                History(leaves, tree.desc.elems, []), 0)
    {
      hide Used, HeapFrom, Holds, NodesOk, Queued, Combining;
      StartCombining(heap[..], heapLen, tree.fc[..], depth[..], leaves, tree.desc.elems, tree.maxCode);
      Heapify(tree, leaves);
      BeginCombining(heap[..], heapLen, tree.fc[..], depth[..], tree.dl[..], leaves, tree.desc.elems);
    }

    method MergeAll(tree: Tree, ghost leaves: set<nat>) returns (ghost h: History)
      requires Valid() && tree.Valid() && Apart(tree) && heapLen >= 2
      requires Combining(heap[..], heapLen, heapMax, tree.fc[..], depth[..], tree.dl[..],
                 History(leaves, tree.desc.elems, []), 0)
      requires Sum(leaves, tree.fc[..], tree.fc.Length) < 0x10000
      modifies heap, depth, tree.fc, tree.dl, this`heapLen, this`heapMax
      ensures heapLen == 1 && h.leaves == leaves && h.elems == tree.desc.elems && |h.pairs| > 0
      ensures exists floor: nat ::
        Combining(heap[..], heapLen, heapMax, tree.fc[..], depth[..], tree.dl[..], h, floor)
      ensures Sum(Active(h, |h.pairs|), tree.fc[..], tree.fc.Length) == old(Sum(leaves, tree.fc[..], tree.fc.Length))
      ensures SameBelow(old(tree.fc[..]), tree.fc[..], h.elems)
      ensures SameUnused(old(tree.dl[..]), tree.dl[..], h.elems, leaves)
    {
      h := History(leaves, tree.desc.elems, []);
      ghost var floor := 0;
      var node := tree.desc.elems;
      hide Combining, Sum;
      while heapLen >= 2
        invariant node == h.elems + |h.pairs| && h.elems == tree.desc.elems && h.leaves == leaves
        invariant heapLen >= 1 && (heapLen < 2 ==> |h.pairs| > 0)
        invariant Combining(heap[..], heapLen, heapMax, tree.fc[..], depth[..], tree.dl[..], h, floor)
        invariant Sum(Active(h, |h.pairs|), tree.fc[..], tree.fc.Length)
          == old(Sum(leaves, tree.fc[..], tree.fc.Length))
        invariant SameBelow(old(tree.fc[..]), tree.fc[..], h.elems)
        invariant SameUnused(old(tree.dl[..]), tree.dl[..], h.elems, leaves)
        decreases heapLen
      {
        h, floor := MergeTwo(tree, node, h, floor);
        node := node + 1;
      }
    }

    /** heap[--heap_max] = heap[SMALLEST] */
    method Close(tree: Tree, ghost h: History) returns (ghost root: nat)
      requires Valid() && tree.Valid() && Apart(tree) && heapLen == 1 && |h.pairs| > 0
      requires exists floor: nat ::
        Combining(heap[..], heapLen, heapMax, tree.fc[..], depth[..], tree.dl[..], h, floor)
      requires Sum(Active(h, |h.pairs|), tree.fc[..], tree.fc.Length) < 0x10000
      modifies heap, this`heapMax
      ensures Built(heap[..], heapMax, tree.fc[..], tree.dl[..], h, root)
      ensures DeepEnough(tree.fc[..], depth[..], root, h, Sum(Active(h, |h.pairs|), tree.fc[..], tree.fc.Length))
    {
      hide Combining, Built, DeepEnough, Sum, Active, Height, Fib;
      ghost var floor: nat :| Combining(heap[..], heapLen, heapMax, tree.fc[..], depth[..], tree.dl[..], h, floor);
      HeapSize(heap[..], heapLen, heapMax, tree.fc[..], depth[..], tree.dl[..], h, floor);
      root := heap[1];
      LastRoot(heap[..], heapMax, tree.fc[..], depth[..], tree.dl[..], h, floor);
      heapMax := heapMax - 1;
      heap[heapMax] := heap[1];
      assert heap[..] == old(heap[..])[heapMax := root];
    }
  }
}
