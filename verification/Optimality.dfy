/** Minimum-cost prefix codes.  Codes are represented by their lengths: by the
    Kraft inequality, lengths belong to a prefix code exactly when the sum of
    2^-length is at most 1. */
module Optimality {
  import opened Bits

  // ---- Sums over a set of nodes ----

  function Sum(s: set<nat>, f: seq<int>, n: nat): int
    requires n <= |f|
  {
    if n == 0 then 0 else Sum(s, f, n - 1) + (if n - 1 in s then f[n - 1] else 0)
  }

  lemma {:induction false} SumUpdate(s: set<nat>, f: seq<int>, n: nat, p: nat, v: int)
    requires n <= |f| && p < |f|
    ensures Sum(s, f[p := v], n) == Sum(s, f, n) + (if p in s && p < n then v - f[p] else 0)
  {
    if n > 0 { SumUpdate(s, f, n - 1, p, v); }
  }

  lemma {:induction false} SumAdd(s: set<nat>, f: seq<int>, n: nat, p: nat)
    requires n <= |f| && p !in s && p < |f|
    ensures Sum(s + {p}, f, n) == Sum(s, f, n) + (if p < n then f[p] else 0)
  {
    if n > 0 { SumAdd(s, f, n - 1, p); }
  }

  lemma {:induction false} SumSame(s: set<nat>, f: seq<int>, g: seq<int>, n: nat)
    requires n <= |f| && n <= |g| && forall x :: 0 <= x < n && x in s ==> f[x] == g[x]
    ensures Sum(s, f, n) == Sum(s, g, n)
  {
    if n > 0 { SumSame(s, f, g, n - 1); }
  }

  lemma {:induction false} SumNonneg(s: set<nat>, f: seq<int>, n: nat)
    requires n <= |f| && forall x :: 0 <= x < n && x in s ==> f[x] >= 0
    ensures Sum(s, f, n) >= 0
    ensures forall x :: 0 <= x < n && x in s ==> f[x] <= Sum(s, f, n)
  {
    if n > 0 { SumNonneg(s, f, n - 1); }
  }

  /** Replacing i and j by k. */
  lemma SumMerge(s: set<nat>, f: seq<int>, i: nat, j: nat, k: nat)
    requires i in s && j in s && i != j && k !in s && i < |f| && j < |f| && k < |f|
    ensures Sum(s - {i, j} + {k}, f, |f|) == Sum(s, f, |f|) - f[i] - f[j] + f[k]
  {
    var r := s - {i, j};
    SumAdd(r, f, |f|, i);
    SumAdd(r + {i}, f, |f|, j);
    assert r + {i} + {j} == s;
    SumAdd(r, f, |f|, k);
  }

  // ---- Cost and Kraft sum ----

  function Products(w: seq<nat>, l: seq<nat>): (f: seq<int>)
    requires |w| == |l|
    ensures |f| == |w|
  {
    seq(|w|, i requires 0 <= i < |w| => w[i] * l[i])
  }

  /** Total number of bits: sum of weight times length. */
  function Cost(s: set<nat>, w: seq<nat>, l: seq<nat>): int
    requires |w| == |l|
  {
    Sum(s, Products(w, l), |w|)
  }

  function Units(l: seq<nat>, m: nat): (f: seq<int>)
    ensures |f| == |l|
  {
    seq(|l|, i requires 0 <= i < |l| => if l[i] <= m then Pow2(m - l[i]) else 0)
  }

  /** Sum of 2^-length, in units of 2^-m. */
  function Kraft(s: set<nat>, l: seq<nat>, m: nat): int {
    Sum(s, Units(l, m), |l|)
  }

  ghost predicate WithinBits(s: set<nat>, l: seq<nat>, m: nat) {
    forall x :: x in s ==> x < |l| && l[x] <= m
  }

  /** l gives the nodes of s the lengths of some prefix code of at most m bits. */
  ghost predicate IsCode(s: set<nat>, l: seq<nat>, m: nat) {
    WithinBits(s, l, m) && Kraft(s, l, m) <= Pow2(m)
  }

  /** No prefix code for s costs less than b. */
  ghost predicate LowerBound(s: set<nat>, w: seq<nat>, b: int) {
    forall l: seq<nat>, m: nat :: |l| == |w| && IsCode(s, l, m) ==> Cost(s, w, l) >= b
  }

  // ---- Changing one length ----

  lemma SetLength(s: set<nat>, w: seq<nat>, l: seq<nat>, m: nat, p: nat, v: nat)
    requires |w| == |l| && p in s && WithinBits(s, l, m) && v <= m
    ensures p < |l| && Cost(s, w, l[p := v]) == Cost(s, w, l) + w[p] * v - w[p] * l[p]
    ensures Kraft(s, l[p := v], m) == Kraft(s, l, m) + Pow2(m - v) - Pow2(m - l[p])
    ensures WithinBits(s, l[p := v], m)
  {
    assert Products(w, l[p := v]) == Products(w, l)[p := w[p] * v];
    SumUpdate(s, Products(w, l), |w|, p, w[p] * v);
    assert Units(l[p := v], m) == Units(l, m)[p := Pow2(m - v)];
    SumUpdate(s, Units(l, m), |l|, p, Pow2(m - v));
  }

  lemma {:induction false} HalfUnits(s: set<nat>, l: seq<nat>, m: nat, n: nat)
    requires m > 0 && n <= |l| && forall x :: 0 <= x < n && x in s ==> l[x] <= m - 1
    ensures Sum(s, Units(l, m), n) == 2 * Sum(s, Units(l, m - 1), n)
  {
    if n > 0 { HalfUnits(s, l, m, n - 1); }
  }

  /** A length that only one node has can be shortened: the Kraft sum is odd. */
  lemma {:induction false} OddUnits(s: set<nat>, l: seq<nat>, m: nat, p: nat, n: nat)
    requires m > 0 && n <= |l| && p < |l| && p in s && l[p] == m && WithinBits(s, l, m)
    requires forall x :: x in s && x != p ==> l[x] < m
    ensures Sum(s, Units(l, m), n) % 2 == if p < n then 1 else 0
  {
    if n > 0 { OddUnits(s, l, m, p, n - 1); }
  }

  lemma KraftTwo(s: set<nat>, l: seq<nat>, i: nat, j: nat)
    requires i in s && j in s && i != j && WithinBits(s, l, 0)
    ensures Kraft(s, l, 0) >= 2
  {
    var f := Units(l, 0);
    var r := s - {i};
    SumAdd(r, f, |l|, i);
    assert r + {i} == s;
    SumNonneg(r, f, |l|);
    assert f[i] == f[j] == 1;
  }

  lemma Shorter(a: nat, b: nat, c: nat, d: nat)
    requires a <= b && c <= d
    ensures a * d + b * c <= a * c + b * d
  {
    var x, y := b - a, d - c;
    assert x * y >= 0;
    assert b * d == (a + x) * (c + y) == a * c + a * y + x * c + x * y;
    assert a * d == a * (c + y) == a * c + a * y;
    assert b * c == (a + x) * c == a * c + x * c;
  }

  /** Giving the lighter of two nodes the longer code costs no more. */
  lemma Exchange(s: set<nat>, w: seq<nat>, l: seq<nat>, m: nat, i: nat, p: nat) returns (l': seq<nat>)
    requires |w| == |l| && i in s && p in s && i != p && WithinBits(s, l, m)
    requires w[i] <= w[p] && l[i] <= l[p]
    ensures l' == l[i := l[p]][p := l[i]] && WithinBits(s, l', m)
    ensures Cost(s, w, l') <= Cost(s, w, l) && Kraft(s, l', m) == Kraft(s, l, m)
  {
    SetLength(s, w, l, m, i, l[p]);
    var l1 := l[i := l[p]];
    SetLength(s, w, l1, m, p, l[i]);
    l' := l1[p := l[i]];
    Shorter(w[i], w[p], l[i], l[p]);
  }

  // ---- The greedy step ----

  ghost predicate Lightest(s: set<nat>, w: seq<nat>, i: nat, j: nat) {
    && i in s && j in s && i != j && (forall x :: x in s ==> x < |w|)
    && forall x :: x in s && x != i && x != j ==> w[i] <= w[x] && w[j] <= w[x]
  }

  lemma MergeDeepest(s: set<nat>, w: seq<nat>, i: nat, j: nat, k: nat, b: int, l: seq<nat>, m: nat)
    requires Lightest(s, w, i, j) && k !in s && k < |w| && w[k] == w[i] + w[j]
    requires LowerBound(s - {i, j} + {k}, w, b)
    requires |l| == |w| && IsCode(s, l, m) && m > 0 && l[i] == m && l[j] == m
    ensures Cost(s, w, l) >= b + w[k]
  {
    var s' := s - {i, j} + {k};
    var l' := l[k := m - 1];
    assert Products(w, l') == Products(w, l)[k := w[k] * (m - 1)];
    SumUpdate(s, Products(w, l), |w|, k, w[k] * (m - 1));
    SumMerge(s, Products(w, l'), i, j, k);
    assert Units(l', m) == Units(l, m)[k := Pow2(1)];
    SumUpdate(s, Units(l, m), |l|, k, Pow2(1));
    SumMerge(s, Units(l', m), i, j, k);
    assert IsCode(s', l', m);
    assert w[k] * (m - 1) == w[i] * m + w[j] * m - w[k];
  }

  lemma MergeTwoDeepest(s: set<nat>, w: seq<nat>, i: nat, j: nat, k: nat, b: int, l: seq<nat>, m: nat, p: nat, q: nat)
    requires Lightest(s, w, i, j) && k !in s && k < |w| && w[k] == w[i] + w[j]
    requires LowerBound(s - {i, j} + {k}, w, b)
    requires |l| == |w| && IsCode(s, l, m) && m > 0
    requires p in s && q in s && p != q && l[p] == m && l[q] == m
    ensures Cost(s, w, l) >= b + w[k]
  {
    var l1 := l;
    if l[i] != m {
      l1 := Exchange(s, w, l, m, i, if p != j then p else q);
    }
    var l2 := l1;
    if l1[j] != m {
      var r := if p != i && l1[p] == m then p else q;
      l2 := Exchange(s, w, l1, m, j, r);
    }
    MergeDeepest(s, w, i, j, k, b, l2, m);
  }

  /** If a code for the merged nodes costs at least b, a code for the original
      nodes costs at least b more than the weight of the two lightest. */
  lemma {:induction false} MergeCode(s: set<nat>, w: seq<nat>, i: nat, j: nat, k: nat, b: int, l: seq<nat>, m: nat)
    requires Lightest(s, w, i, j) && k !in s && k < |w| && w[k] == w[i] + w[j]
    requires LowerBound(s - {i, j} + {k}, w, b)
    requires |l| == |w| && IsCode(s, l, m)
    ensures Cost(s, w, l) >= b + w[k]
    decreases m
  {
    if m == 0 { KraftTwo(s, l, i, j); }
    if p :| p in s && l[p] == m {
      if q :| q in s && q != p && l[q] == m {
        MergeTwoDeepest(s, w, i, j, k, b, l, m, p, q);
      } else {
        var l' := l[p := m - 1];
        OddUnits(s, l, m, p, |l|);
        SetLength(s, w, l, m, p, m - 1);
        HalfUnits(s, l', m, |l|);
        assert w[p] * (m - 1) <= w[p] * m;
        MergeCode(s, w, i, j, k, b, l', m - 1);
      }
    } else {
      HalfUnits(s, l, m, |l|);
      MergeCode(s, w, i, j, k, b, l, m - 1);
    }
  }

  lemma MergeStep(s: set<nat>, w: seq<nat>, i: nat, j: nat, k: nat, b: int)
    requires Lightest(s, w, i, j) && k !in s && k < |w| && w[k] == w[i] + w[j]
    requires LowerBound(s - {i, j} + {k}, w, b)
    ensures LowerBound(s, w, b + w[k])
  {
    forall l: seq<nat>, m: nat | |l| == |w| && IsCode(s, l, m)
      ensures Cost(s, w, l) >= b + w[k]
    {
      MergeCode(s, w, i, j, k, b, l, m);
    }
  }
}
