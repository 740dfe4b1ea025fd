/** build_tree (deps/libz/trees.c): from frequencies to a complete canonical
    code, of least cost unless lengths had to be cut. */
module BuildTrees {
  import opened Bits
  import opened Optimality
  import opened Merges
  import opened TreeBuilder
  import opened BitLengths
  import opened LengthPass
  import opened RepairLengths
  import opened Huffman
  import opened Codes
  import C = Canonical

  // ---- Only the symbols matter ----

  lemma {:induction false} SumPrefix(s: set<nat>, f: seq<int>, n: nat, k: nat)
    requires n <= k <= |f| && forall x :: x in s ==> x < n
    ensures Sum(s, f, k) == Sum(s, f[..n], n)
    decreases k
  {
    if k > n {
      SumPrefix(s, f, n, k - 1);
    } else {
      SumSame(s, f, f[..n], n);
    }
  }

  lemma CostPrefix(s: set<nat>, w: seq<nat>, l: seq<nat>, n: nat)
    requires |w| == |l| && n <= |w| && forall x :: x in s ==> x < n
    ensures Cost(s, w, l) == Cost(s, w[..n], l[..n])
  {
    SumPrefix(s, Products(w, l), n, |w|);
    assert Products(w, l)[..n] == Products(w[..n], l[..n]);
  }

  lemma KraftPrefix(s: set<nat>, l: seq<nat>, m: nat, n: nat)
    requires n <= |l| && forall x :: x in s ==> x < n
    ensures Kraft(s, l, m) == Kraft(s, l[..n], m)
  {
    SumPrefix(s, Units(l, m), n, |l|);
    assert Units(l, m)[..n] == Units(l[..n], m);
  }

  lemma LowerBoundPrefix(s: set<nat>, w: seq<nat>, b: int, n: nat)
    requires LowerBound(s, w, b) && n <= |w| && forall x :: x in s ==> x < n
    ensures LowerBound(s, w[..n], b)
  {
    hide Kraft, Cost;
    forall l: seq<nat>, m: nat | |l| == n && IsCode(s, l, m)
      ensures Cost(s, w[..n], l) >= b
    {
      var l': seq<nat> := l + seq(|w| - n, i => 0);
      assert l'[..n] == l;
      KraftPrefix(s, l', m, n);
      CostPrefix(s, w, l', n);
      assert IsCode(s, l', m);
    }
  }

  // ---- The code of a set of leaves ----

  /** The symbols with a code are those of leaves, and the last is maxCode. */
  ghost predicate CodedSymbols(leaves: set<nat>, l: seq<nat>, maxCode: int, max: nat) {
    && 0 <= maxCode < |l| && IsMax(leaves, maxCode) && max <= C.MAXBITS
    && forall x :: 0 <= x < |l| ==> l[x] <= max && (l[x] > 0 <==> x in leaves)
  }

  lemma {:induction false} SumIsKraft(leaves: set<nat>, l: seq<nat>, maxCode: int, max: nat, n: nat)
    requires CodedSymbols(leaves, l, maxCode, max) && n <= maxCode + 1
    ensures C.Bounded(l[..maxCode + 1], max)
    ensures Sum(leaves, Units(l, max), n) == C.KraftSum(l[..maxCode + 1], max, n)
  {
    if n > 0 { SumIsKraft(leaves, l, maxCode, max, n - 1); }
  }

  lemma LeavesComplete(leaves: set<nat>, l: seq<nat>, maxCode: int, max: nat)
    requires CodedSymbols(leaves, l, maxCode, max) && Kraft(leaves, l, max) == Pow2(max)
    ensures C.Complete(l[..maxCode + 1]) && C.Fits(l[..maxCode + 1])
  {
    hide Pow2, Sum, C.Complete, C.Fits, C.KraftSum, C.Left, C.Count, C.CountIn;
    KraftPrefix(leaves, l, max, maxCode + 1);
    assert Units(l, max)[..maxCode + 1] == Units(l[..maxCode + 1], max);
    SumPrefix(leaves, Units(l, max), maxCode + 1, maxCode + 1);
    SumIsKraft(leaves, l, maxCode, max, maxCode + 1);
    C.KraftCompletes(l[..maxCode + 1], max);
    CompleteFits(l[..maxCode + 1]);
  }

  lemma CompleteFits(lens: seq<nat>)
    requires C.Complete(lens)
    ensures C.Fits(lens)
  {
  }

  lemma {:induction false} CountIsCount(leaves: set<nat>, l: seq<nat>, maxCode: int, max: nat, b: nat, n: nat)
    requires CodedSymbols(leaves, l, maxCode, max) && n <= maxCode + 1 && b > 0
    ensures Sum(leaves, HasLength(l, b), n) == C.CountIn(l[..maxCode + 1], b, n)
  {
    if n > 0 { CountIsCount(leaves, l, maxCode, max, b, n - 1); }
  }

  lemma {:induction false} NoneZero(leaves: set<nat>, l: seq<nat>, n: nat)
    requires n <= |l| && forall x :: 0 <= x < |l| && x in leaves ==> l[x] > 0
    ensures Sum(leaves, HasLength(l, 0), n) == 0
  {
    if n > 0 { NoneZero(leaves, l, n - 1); }
  }

  lemma TallyCounts(leaves: set<nat>, l: seq<nat>, maxCode: int, max: nat, cnt: seq<nat>)
    requires CodedSymbols(leaves, l, maxCode, max) && Tally(cnt, leaves, l)
    ensures Counts(cnt, l[..maxCode + 1])
  {
    hide Sum;
    forall b | 0 <= b <= MAX_BITS
      ensures cnt[b] == C.Count(l[..maxCode + 1], b)
    {
      var f := HasLength(l, b);
      if b == 0 {
        NoneZero(leaves, l, |l|);
      } else {
        SumPrefix(leaves, f, maxCode + 1, |l|);
        SumSame(leaves, f, f[..maxCode + 1], maxCode + 1);
        CountIsCount(leaves, l, maxCode, max, b, maxCode + 1);
      }
    }
  }

  // ---- Cost over all symbols ----

  /** The bits of all symbols below n: a code and its extra bits for every occurrence. */
  function SymbolBits(f: seq<nat>, l: seq<nat>, x: seq<nat>, n: nat): nat
    requires n <= |f| && n <= |l| && n <= |x|
  {
    if n == 0 then 0 else SymbolBits(f, l, x, n - 1) + f[n - 1] * (l[n - 1] + x[n - 1])
  }

  lemma {:induction false} BitsWithForced(leaves: set<nat>, forced: set<nat>, f: seq<nat>, w: seq<nat>, l: seq<nat>,
                                          x: seq<nat>, n: nat)
    requires n <= |f| && n <= |w| == |l| == |x|
    requires forall i :: 0 <= i < n ==> (i in leaves <==> i in forced || f[i] != 0)
    requires forall i :: 0 <= i < n && i in leaves ==> w[i] == if i in forced then 1 else f[i]
    requires forall i :: 0 <= i < n && i in forced ==> f[i] == 0 && x[i] == 0
    ensures Sum(leaves, Products(w, l), n) + Sum(leaves, Products(w, x), n)
      == SymbolBits(f, l, x, n) + Sum(forced, l, n)
  {
    if n > 0 {
      BitsWithForced(leaves, forced, f, w, l, x, n - 1);
      var i := n - 1;
      Times(w[i], l[i], x[i]);
    }
  }

  lemma Times(a: nat, b: nat, c: nat)
    ensures a * (b + c) == a * b + a * c
    ensures a == 0 ==> a * (b + c) == 0
    ensures a == 1 ==> a * b == b && a * c == c
  {
  }

  lemma {:induction false} SumOnes(s: set<nat>, l: seq<nat>, n: nat)
    requires n <= |l| && forall x :: 0 <= x < n && x in s ==> l[x] == 1
    ensures Sum(s, l, n) == SizeBelow(s, n)
  {
    if n > 0 { SumOnes(s, l, n - 1); }
  }

  // ---- Two leaves ----

  lemma OtherLeaf(leaves: set<nat>, a: nat) returns (b: nat)
    requires |leaves| == 2 && a in leaves
    ensures b != a && leaves == {a, b}
  {
    var r := leaves - {a};
    assert |r| == 1;
    b :| b in r;
    var q := r - {b};
    assert |q| == 0;
    assert leaves == q + {a, b};
  }

  lemma PairKraft(l: seq<nat>, max: nat, a: nat, b: nat)
    requires a < |l| && b < |l| && a != b
    ensures Kraft({a, b}, l, max) == Units(l, max)[a] + Units(l, max)[b]
  {
    SumEmpty(Units(l, max), |l|);
    SumAdd({}, Units(l, max), |l|, a);
    SumAdd({a}, Units(l, max), |l|, b);
    assert {} + {a} == {a} && {a} + {b} == {a, b};
  }

  lemma HalfEach(max: nat, p: nat, q: nat)
    requires max >= 1 && 1 <= p <= max && 1 <= q <= max && Pow2(max - p) + Pow2(max - q) == Pow2(max)
    ensures p == 1
  {
    Pow2Monotone(max - p, max - 1);
    Pow2Monotone(max - q, max - 1);
  }

  /** With two leaves both codes are one bit long. */
  lemma TwoLeaves(leaves: set<nat>, l: seq<nat>, max: nat)
    requires |leaves| == 2 && Between(leaves, l, 1, max) && Kraft(leaves, l, max) == Pow2(max) && max >= 1
    ensures forall x :: x in leaves ==> x < |l| && l[x] == 1
  {
    hide Kraft, Pow2;
    forall a | a in leaves ensures l[a] == 1 {
      var b := OtherLeaf(leaves, a);
      PairKraft(l, max, a, b);
      HalfEach(max, l[a], l[b]);
    }
  }

  // ---- The whole construction ----

  function FreqSum(f: seq<nat>, n: nat): nat
    requires n <= |f|
  {
    if n == 0 then 0 else FreqSum(f, n - 1) + f[n - 1]
  }

  lemma {:induction false} ForcedSum(leaves: set<nat>, forced: set<nat>, f: seq<nat>, w: seq<nat>, n: nat)
    requires n <= |f| && n <= |w|
    requires forall i :: 0 <= i < n ==> (i in leaves <==> i in forced || f[i] != 0)
    requires forall i :: 0 <= i < n && i in leaves ==> w[i] == if i in forced then 1 else f[i]
    ensures Sum(leaves, w, n) <= FreqSum(f, n) + SizeBelow(forced, n)
  {
    if n > 0 { ForcedSum(leaves, forced, f, w, n - 1); }
  }

  /** What forcing did: the leaves, and their frequencies w. */
  ghost predicate Forced(f: seq<nat>, w: seq<nat>, leaves: set<nat>, forced: set<nat>) {
    && |f| == |w|
    && (forall x :: x in leaves ==> x < |f|)
    && (forall x :: 0 <= x < |f| ==> (x in leaves <==> x in forced || f[x] != 0))
    && (forall x :: x in forced ==> x < 3 && x < |f| && f[x] == 0)
    && (forall x :: 0 <= x < |f| ==> w[x] == if x in forced then 1 else f[x])
    && |leaves| >= 2 && |forced| <= 2 && (forced != {} ==> |leaves| == 2)
  }

  lemma ForcedFrom(f: seq<nat>, w: seq<nat>, elems: nat, forced: set<nat>, leaves: set<nat>)
    requires Forcing(f, w, elems, forced) && leaves == Used(w, elems) && |leaves| >= 2
    ensures Forced(f[..elems], w[..elems], leaves, forced)
  {
    UsedWithForced(f, w, elems, forced);
    DisjointSize(Used(f, elems), forced);
  }

  lemma ForcedWeight(f: seq<nat>, w: seq<nat>, leaves: set<nat>, forced: set<nat>, elems: nat)
    requires Forcing(f, w, elems, forced) && elems <= |f| && leaves == Used(w, elems) && |leaves| >= 2
    requires FreqSum(f, elems) <= 0x8000
    ensures Sum(leaves, w, |w|) < 0x10000
  {
    ForcedFrom(f, w, elems, forced, leaves);
    hide Used, Sum;
    ForcedSum(leaves, forced, f[..elems], w[..elems], elems);
    FreqSumPrefix(f, elems);
    SizeIs(forced, elems);
    SumPrefix(leaves, w, elems, |w|);
  }

  lemma {:induction false} FreqSumPrefix(f: seq<nat>, n: nat)
    requires n <= |f|
    ensures FreqSum(f[..n], n) == FreqSum(f, n)
  {
    FreqSumSame(f[..n], f, n);
  }

  lemma {:induction false} FreqSumSame(f: seq<nat>, g: seq<nat>, n: nat)
    requires n <= |f| && n <= |g| && forall i :: 0 <= i < n ==> f[i] == g[i]
    ensures FreqSum(f, n) == FreqSum(g, n)
  {
    if n > 0 { FreqSumSame(f, g, n - 1); }
  }

  /** The code that was built: w are the frequencies (forced ones included), l
      the lengths and codes the reversed codes of the symbols. */
  ghost predicate GoodCode(leaves: set<nat>, w: seq<nat>, l: seq<nat>, codes: seq<nat>, maxCode: int, max: nat) {
    && |w| == |l| == |codes| && CodedSymbols(leaves, l, maxCode, max)
    && C.Complete(l[..maxCode + 1]) && Monotone(leaves, w, l)
    && forall x :: x in leaves ==> x <= maxCode && codes[x] == C.RevCode(l[..maxCode + 1], x)
  }

  lemma CodedFrom(leaves: set<nat>, l: seq<nat>, elems: nat, maxCode: int, max: nat)
    requires elems <= |l| && Between(leaves, l, 1, max) && IsMax(leaves, maxCode) && leaves != {} && max <= C.MAXBITS
    requires forall x :: x in leaves ==> x < elems
    requires forall x :: 0 <= x < elems && x !in leaves ==> l[x] == 0
    ensures CodedSymbols(leaves, l[..elems], maxCode, max)
  {
  }

  lemma {:induction false} LengthCountPrefix(leaves: set<nat>, l: seq<nat>, elems: nat, cnt: seq<nat>)
    requires elems <= |l| && Tally(cnt, leaves, l) && forall x :: x in leaves ==> x < elems
    ensures Tally(cnt, leaves, l[..elems])
  {
    hide Sum;
    forall b | 0 <= b <= MAX_BITS
      ensures cnt[b] == LengthCount(leaves, l[..elems], b)
    {
      SumPrefix(leaves, HasLength(l, b), elems, |l|);
      assert HasLength(l, b)[..elems] == HasLength(l[..elems], b);
    }
  }

  lemma LengthsToCode(leaves: set<nat>, w: seq<nat>, l: seq<nat>, elems: nat, maxCode: int, max: nat, cnt: seq<nat>)
    requires GoodLengths(leaves, w, l, max, cnt) && elems <= |l| && IsMax(leaves, maxCode) && leaves != {}
    requires max <= C.MAXBITS
    requires forall x :: x in leaves ==> x < elems
    requires forall x :: 0 <= x < elems && x !in leaves ==> l[x] == 0
    ensures maxCode < elems && l[..elems][..maxCode + 1] == l[..maxCode + 1]
    ensures CodedSymbols(leaves, l[..elems], maxCode, max) && Monotone(leaves, w[..elems], l[..elems])
    ensures C.Fits(l[..maxCode + 1]) && C.Complete(l[..maxCode + 1]) && Counts(cnt, l[..maxCode + 1])
  {
    hide Tally, Kraft, C.Complete, C.Fits, Counts;
    CodedFrom(leaves, l, elems, maxCode, max);
    assert l[..elems][..maxCode + 1] == l[..maxCode + 1];
    KraftPrefix(leaves, l, max, elems);
    LeavesComplete(leaves, l[..elems], maxCode, max);
    LengthCountPrefix(leaves, l, elems, cnt);
    TallyCounts(leaves, l[..elems], maxCode, max, cnt);
  }

  lemma {:induction false} SumTail(s: set<nat>, f: seq<int>, n: nat, k: nat)
    requires n <= k <= |f| && forall x :: x in s ==> x < n
    ensures Sum(s, f, k) == Sum(s, f, n)
  {
    if k > n { SumTail(s, f, n, k - 1); }
  }

  lemma {:induction false} SymbolBitsSame(f: seq<nat>, l: seq<nat>, x: seq<nat>, f': seq<nat>, l': seq<nat>,
                                          x': seq<nat>, n: nat)
    requires n <= |f| && n <= |l| && n <= |x| && n <= |f'| && n <= |l'| && n <= |x'|
    requires forall i :: 0 <= i < n ==> f[i] == f'[i] && l[i] == l'[i] && x[i] == x'[i]
    ensures SymbolBits(f, l, x, n) == SymbolBits(f', l', x', n)
  {
    if n > 0 { SymbolBitsSame(f, l, x, f', l', x', n - 1); }
  }

  /** A forced code costs nothing: its single occurrence is not sent. */
  lemma WithoutForced(desc: StaticDesc, f: seq<nat>, w: seq<nat>, l: seq<nat>, leaves: set<nat>, forced: set<nat>)
    requires DescOk(desc) && |w| == |l| && |w| >= desc.elems && |f| == desc.elems
    requires Forced(f, w[..desc.elems], leaves, forced)
    ensures LeafBits(desc, leaves, w, l)
         == SymbolBits(f, l, ExtraBits(desc, |w|), desc.elems) + Sum(forced, l, desc.elems)
  {
    var n, x := desc.elems, ExtraBits(desc, |w|);
    assert forall i :: 0 <= i < n ==> w[..n][i] == w[i];
    hide Sum, SymbolBits;
    BitsWithForced(leaves, forced, f, w, l, x, n);
    SumTail(leaves, Products(w, l), n, |w|);
    SumTail(leaves, Products(w, x), n, |w|);
  }

  lemma FinalBits(desc: StaticDesc, f: seq<nat>, w: seq<nat>, l: seq<nat>, leaves: set<nat>, forced: set<nat>)
    requires DescOk(desc) && |w| == |l| && |w| >= desc.elems && |f| == desc.elems
    requires Forced(f, w[..desc.elems], leaves, forced)
    requires Between(leaves, l, 1, desc.maxLength) && Kraft(leaves, l, desc.maxLength) == Pow2(desc.maxLength)
    ensures LeafBits(desc, leaves, w, l) - |forced| == SymbolBits(f, l, ExtraBits(desc, |w|), desc.elems)
  {
    hide Sum, SymbolBits, ExtraBits, Kraft, Pow2, LeafBits;
    WithoutForced(desc, f, w, l, leaves, forced);
    SizeIs(forced, desc.elems);
    if forced == {} {
      SumOnes(forced, l, desc.elems);
    } else {
      TwoLeaves(leaves, l, desc.maxLength);
      SumOnes(forced, l, desc.elems);
    }
  }

  lemma FinalStaticBits(desc: StaticDesc, f: seq<nat>, w: seq<nat>, leaves: set<nat>, forced: set<nat>)
    requires DescOk(desc) && |w| >= desc.elems && |f| == desc.elems && desc.stree != []
    requires Forced(f, w[..desc.elems], leaves, forced)
    ensures StaticLeafBits(desc, leaves, w) - StaticBits(desc, forced)
         == SymbolBits(f, desc.stree, ExtraBits(desc, |w|), desc.elems)
  {
    var x, l := ExtraBits(desc, |w|), StaticLengths(desc, |w|);
    assert forall i :: 0 <= i < desc.elems ==> l[i] == desc.stree[i];
    hide Sum, SymbolBits, ExtraBits, LeafBits;
    WithoutForced(desc, f, w, l, leaves, forced);
    SumSame(forced, l, desc.stree, desc.elems);
    SymbolBitsSame(f, l, x, f, desc.stree, x, desc.elems);
  }

  /** What the bits of the symbols of one tree add up to. */
  function StaticSymbolBits(desc: StaticDesc, f: seq<nat>, n: nat): int
    requires DescOk(desc) && desc.elems <= |f| && desc.elems <= n
  {
    if desc.stree == [] then 0 else SymbolBits(f, desc.stree, ExtraBits(desc, n), desc.elems)
  }

  lemma NoStatic(desc: StaticDesc, leaves: set<nat>, forced: set<nat>, w: seq<nat>)
    requires DescOk(desc) && desc.stree == []
    ensures StaticLeafBits(desc, leaves, w) == StaticBits(desc, forced) == 0
  {
  }

  /** Symbols that are not leaves have length 0. */
  ghost predicate Blank(l: seq<nat>, elems: nat, leaves: set<nat>) {
    elems <= |l| && forall x :: 0 <= x < elems && x !in leaves ==> l[x] == 0
  }

  lemma BlankStart(f0: seq<nat>, w: seq<nat>, l: seq<nat>, elems: nat, forced: set<nat>)
    requires Forcing(f0, w, elems, forced) && Cleared(f0, l, elems)
    ensures Blank(l, elems, Used(w, elems))
  {
  }

  lemma BlankKept(l: seq<nat>, l': seq<nat>, elems: nat, leaves: set<nat>)
    requires Blank(l, elems, leaves) && SameUnused(l, l', elems, leaves)
    ensures Blank(l', elems, leaves)
  {
  }

  /** The symbols that occur, and those forced in, are queued. */
  method PlaceLeaves(s: DeflateState, tree: Tree) returns (ghost forced: set<nat>)
    requires s.Valid() && tree.Valid() && s.Apart(tree)
    requires FreqSum(tree.fc[..], tree.desc.elems) <= 0x8000
    modifies s, s.heap, s.depth, tree.fc, tree.dl, tree`maxCode
    ensures s.heapMax == HEAP_SIZE && 2 <= s.heapLen <= tree.desc.elems
    ensures Queued(s.heap[..], s.heapLen, s.depth[..], Used(tree.fc[..], tree.desc.elems), tree.maxCode)
    ensures Forced(old(tree.fc[..])[..tree.desc.elems], tree.fc[..][..tree.desc.elems],
      Used(tree.fc[..], tree.desc.elems), forced)
    ensures Sum(Used(tree.fc[..], tree.desc.elems), tree.fc[..], tree.fc.Length) < 0x10000
    ensures Blank(tree.dl[..], tree.desc.elems, Used(tree.fc[..], tree.desc.elems))
    ensures s.optLen == old(s.optLen) - |forced|
    ensures s.staticLen == old(s.staticLen) - StaticBits(tree.desc, forced)
  {
    hide Queued, Forcing, Cleared, Used, Sum, StaticBits, Forced, Blank, Pow2, FreqSum;
    ghost var f0: seq<nat> := tree.fc[..];
    s.CollectUsed(tree);
    ghost var l: seq<nat> := tree.dl[..];
    forced := s.ForceTwo(tree);
    QueuedFacts(s.heap[..], s.heapLen, s.depth[..], Used(tree.fc[..], tree.desc.elems), tree.maxCode);
    ForcedFrom(f0, tree.fc[..], tree.desc.elems, forced, Used(tree.fc[..], tree.desc.elems));
    ForcedWeight(f0, tree.fc[..], Used(tree.fc[..], tree.desc.elems), forced, tree.desc.elems);
    BlankStart(f0, tree.fc[..], l, tree.desc.elems, forced);
  }

  /** Merge the queue and measure the leaves. */
  method Measure(s: DeflateState, tree: Tree, ghost leaves: set<nat>) returns (overflow: nat, ghost height: nat)
    requires s.Valid() && tree.Valid() && s.Apart(tree)
    requires s.heapMax == HEAP_SIZE && 2 <= s.heapLen <= tree.desc.elems
    requires Queued(s.heap[..], s.heapLen, s.depth[..], leaves, tree.maxCode)
    requires leaves == Used(tree.fc[..], tree.desc.elems)
    requires Sum(leaves, tree.fc[..], tree.fc.Length) < 0x10000 && Blank(tree.dl[..], tree.desc.elems, leaves)
    modifies s, s.heap, s.depth, s.blCount, tree.fc, tree.dl
    ensures IsMax(leaves, tree.maxCode) && Blank(tree.dl[..], tree.desc.elems, leaves)
    ensures tree.fc[..][..tree.desc.elems] == old(tree.fc[..])[..tree.desc.elems]
    ensures GoodLengths(leaves, tree.fc[..], tree.dl[..], tree.desc.maxLength, s.blCount[..])
    ensures overflow == 0 ==> LowerBound(leaves, tree.fc[..], Cost(leaves, tree.fc[..], tree.dl[..]))
    ensures overflow == 0 ==> LongestIs(leaves, tree.dl[..], height)
    ensures overflow == 0 <==> height <= tree.desc.maxLength
    ensures Fib(height + 2) <= old(Sum(leaves, tree.fc[..], tree.fc.Length)) && height <= 22
    ensures s.optLen == old(s.optLen) + LeafBits(tree.desc, leaves, tree.fc[..], tree.dl[..])
    ensures s.staticLen == old(s.staticLen) + StaticLeafBits(tree.desc, leaves, tree.fc[..])
  {
    hide Queued, Used, Sum, Blank, SameBelow, SameUnused, Built, DeepEnough, GoodLengths, LowerBound, Cost, LeafBits,
      StaticLeafBits, IsMax, Pow2, LongestIs, Height, Fib;
    ghost var w: seq<nat>, l: seq<nat> := tree.fc[..], tree.dl[..];
    QueuedFacts(s.heap[..], s.heapLen, s.depth[..], leaves, tree.maxCode);
    UsedMax(w, tree.desc.elems, tree.maxCode);
    ghost var total := Sum(leaves, tree.fc[..], tree.fc.Length);
    ghost var h, root := s.Combine(tree, leaves);
    height := Height(h, root);
    DeepFacts(tree.fc[..], s.depth[..], root, h, total);
    BlankKept(l, tree.dl[..], tree.desc.elems, leaves);
    SamePrefix(w, tree.fc[..], tree.desc.elems);
    ghost var l2: seq<nat> := tree.dl[..];
    overflow := GenBitlen(s, tree, h, root);
    BlankKept(l2, tree.dl[..], tree.desc.elems, leaves);
  }

  lemma DeepFacts(w: seq<nat>, d: seq<nat>, root: nat, h: History, total: int)
    requires DeepEnough(w, d, root, h, total)
    ensures Fib(Height(h, root) + 2) <= total && Height(h, root) <= 22
  {
    hide Height, Fib;
  }

  lemma UsedMax(w: seq<nat>, elems: nat, m: int)
    requires elems <= |w| && IsMax(Used(w, elems), m) && elems > 0
    ensures m < elems
  {
  }

  lemma SamePrefix(f: seq<nat>, f': seq<nat>, elems: nat)
    requires SameBelow(f, f', elems)
    ensures f'[..elems] == f[..elems]
  {
  }

  lemma CodeFrom(leaves: set<nat>, w: seq<nat>, l: seq<nat>, fc: seq<nat>, elems: nat, maxCode: int, max: nat)
    requires elems <= |l| == |w| == |fc| && maxCode < elems && CodedSymbols(leaves, l[..elems], maxCode, max)
    requires C.Complete(l[..maxCode + 1]) && Monotone(leaves, w[..elems], l[..elems])
    requires CodesSet(w, fc, l[..maxCode + 1], maxCode + 1)
    ensures GoodCode(leaves, w[..elems], l[..elems], fc[..elems], maxCode, max)
  {
    hide C.Complete, C.RevCode, Monotone;
    var lens: seq<nat> := l[..maxCode + 1];
    assert l[..elems][..maxCode + 1] == lens;
    forall x | x in leaves
      ensures x <= maxCode && fc[..elems][x] == C.RevCode(lens, x)
    {
      assert l[..elems][x] == lens[x];
    }
  }

  lemma GoodFacts(leaves: set<nat>, w: seq<nat>, l: seq<nat>, max: nat, cnt: seq<nat>)
    requires GoodLengths(leaves, w, l, max, cnt)
    ensures Between(leaves, l, 1, max) && Kraft(leaves, l, max) == Pow2(max)
  {
  }

  lemma CheapestOfSymbols(leaves: set<nat>, w: seq<nat>, l: seq<nat>, elems: nat)
    requires |w| == |l| && elems <= |w| && LowerBound(leaves, w, Cost(leaves, w, l)) && forall x :: x in leaves ==>
      x < elems
    ensures LowerBound(leaves, w[..elems], Cost(leaves, w[..elems], l[..elems]))
  {
    hide Cost, LowerBound;
    LowerBoundPrefix(leaves, w, Cost(leaves, w, l), elems);
    CostPrefix(leaves, w, l, elems);
  }

  /** The code that build_tree promises for the frequencies f. */
  ghost predicate TreeResult(f: seq<nat>, w: seq<nat>, leaves: set<nat>, forced: set<nat>, l: seq<nat>, codes: seq<nat>,
                             maxCode: int, max: nat, overflow: nat) {
    && Forced(f, w, leaves, forced) && GoodCode(leaves, w, l, codes, maxCode, max)
    && (overflow == 0 ==> LowerBound(leaves, w, Cost(leaves, w, l)))
  }

  /** build_tree.  Symbols of forced had to be added; overflow is 0 when no length was cut. */
  method BuildTree(s: DeflateState, tree: Tree)
    returns (ghost w: seq<nat>, ghost leaves: set<nat>, ghost forced: set<nat>, overflow: nat, ghost height: nat)
    requires s.Valid() && tree.Valid() && s.Apart(tree)
    requires FreqSum(tree.fc[..], tree.desc.elems) <= 0x8000
    modifies s, s.heap, s.depth, s.blCount, tree.fc, tree.dl, tree`maxCode
    ensures TreeResult(old(tree.fc[..])[..tree.desc.elems], w, leaves, forced, tree.dl[..][..tree.desc.elems],
              tree.fc[..][..tree.desc.elems], tree.maxCode, tree.desc.maxLength, overflow)
    ensures Sum(leaves, w, |w|) < 0x10000 && Fib(height + 2) <= Sum(leaves, w, |w|) && height <= 22
    ensures overflow == 0 ==> LongestIs(leaves, tree.dl[..][..tree.desc.elems], height)
    ensures overflow == 0 <==> height <= tree.desc.maxLength
    ensures Sum(leaves, w, |w|) < Fib(tree.desc.maxLength + 3) ==> overflow == 0
    ensures s.optLen == old(s.optLen)
      + SymbolBits(old(tree.fc[..])[..tree.desc.elems], tree.dl[..], ExtraBits(tree.desc, tree.dl.Length),
        tree.desc.elems)
    ensures s.staticLen == old(s.staticLen)
      + StaticSymbolBits(tree.desc, old(tree.fc[..])[..tree.desc.elems], tree.dl.Length)
  {
    hide Queued, Used, Sum, Blank, GoodLengths, LowerBound, Cost, LeafBits, StaticLeafBits, IsMax, Pow2, FreqSum,
      Forced, GoodCode, StaticBits, SymbolBits, ExtraBits, CodedSymbols, CodesSet, Monotone, C.Complete, C.Fits,
      Counts, Kraft, Between, LongestIs, Fib;
    ghost var n, max, f := tree.desc.elems, tree.desc.maxLength, tree.fc[..][..tree.desc.elems];
    forced := PlaceLeaves(s, tree);
    leaves := Used(tree.fc[..], n);
    ghost var fc0: seq<nat> := tree.fc[..];
    overflow, height := Measure(s, tree, leaves);
    w := tree.fc[..][..n];
    WeightPrefix(leaves, fc0, n);
    ghost var fc: seq<nat>, l: seq<nat> := tree.fc[..], tree.dl[..];
    LeafFacts(f, w, leaves, forced);
    if overflow == 0 { LongestPrefix(leaves, l, n, height); }
    if height > max { FibGrows(max + 3, height + 2); }
    Finish(tree.desc, f, fc, l, leaves, forced, tree.maxCode, s.blCount[..], overflow);
    GenCodes(tree.fc, tree.dl, tree.maxCode, s.blCount);
    CodeFrom(leaves, fc, l, tree.fc[..], n, tree.maxCode, max);
  }

  lemma WeightPrefix(leaves: set<nat>, w: seq<nat>, n: nat)
    requires n <= |w| && leaves == Used(w, n)
    ensures Sum(leaves, w, |w|) == Sum(leaves, w[..n], |w[..n]|)
  {
    SumPrefix(leaves, w, n, |w|);
  }

  lemma LongestPrefix(leaves: set<nat>, l: seq<nat>, n: nat, height: nat)
    requires LongestIs(leaves, l, height) && n <= |l| && forall x :: x in leaves ==> x < n
    ensures LongestIs(leaves, l[..n], height)
  {
    var x :| x in leaves && x < |l| && l[x] == height;
    assert l[..n][x] == height;
  }

  lemma LeafFacts(f: seq<nat>, w: seq<nat>, leaves: set<nat>, forced: set<nat>)
    requires Forced(f, w, leaves, forced)
    ensures leaves != {} && forall x :: x in leaves ==> x < |f|
  {
  }

  lemma Finish(desc: StaticDesc, f: seq<nat>, w: seq<nat>, l: seq<nat>, leaves: set<nat>, forced: set<nat>,
               maxCode: int, cnt: seq<nat>, overflow: nat)
    requires DescOk(desc) && |f| == desc.elems && |w| == |l| == 2 * desc.elems + 1
    requires Forced(f, w[..desc.elems], leaves, forced) && leaves != {} && forall x :: x in leaves ==> x < desc.elems
    requires GoodLengths(leaves, w, l, desc.maxLength, cnt) && IsMax(leaves, maxCode) && Blank(l, desc.elems, leaves)
    requires overflow == 0 ==> LowerBound(leaves, w, Cost(leaves, w, l))
    ensures 0 <= maxCode < desc.elems && CodedSymbols(leaves, l[..desc.elems], maxCode, desc.maxLength)
    ensures Monotone(leaves, w[..desc.elems], l[..desc.elems])
    ensures C.Fits(l[..maxCode + 1]) && C.Complete(l[..maxCode + 1]) && Counts(cnt, l[..maxCode + 1])
    ensures overflow == 0 ==> LowerBound(leaves, w[..desc.elems], Cost(leaves, w[..desc.elems], l[..desc.elems]))
    ensures LeafBits(desc, leaves, w, l) - |forced| == SymbolBits(f, l, ExtraBits(desc, |w|), desc.elems)
    ensures StaticLeafBits(desc, leaves, w) - StaticBits(desc, forced) == StaticSymbolBits(desc, f, |w|)
  {
    hide Used, Sum, GoodLengths, LowerBound, Cost, LeafBits, StaticLeafBits, Pow2, Forced, StaticBits, SymbolBits,
      ExtraBits, CodedSymbols, Monotone, C.Complete, C.Fits, Counts, Kraft, Between;
    GoodFacts(leaves, w, l, desc.maxLength, cnt);
    LengthsToCode(leaves, w, l, desc.elems, maxCode, desc.maxLength, cnt);
    if overflow == 0 { CheapestOfSymbols(leaves, w, l, desc.elems); }
    FinalBits(desc, f, w, l, leaves, forced);
    if desc.stree != [] {
      FinalStaticBits(desc, f, w, leaves, forced);
    } else {
      NoStatic(desc, leaves, forced, w);
    }
  }
}
