/** Sizes of tables that need no second level (deps/libz/inftrees.c), and the
    tables of the fixed codes (deps/libz/inflate.c: fixedtables). */
module FixedTables {
  import opened Bits
  import opened Canonical
  import opened DecodeTable
  import opened TableGroups
  import opened Inftrees
  import opened FixedCodes
  import opened Machine
  import opened TableDecoding

  lemma {:induction false} NoGroups(lens: seq<nat>, root: nat, g: nat, n: nat)
    requires Bounded(lens, root) && n <= |lens|
    ensures GroupMax(lens, root, g, n) == 0
  {
    if n > 0 { NoGroups(lens, root, g, n - 1); }
  }

  lemma {:induction false} NoSubTables(lens: seq<nat>, root: nat, g: nat)
    requires Bounded(lens, root)
    ensures SubSizes(lens, root, g) == 0
  {
    if g > 0 {
      NoSubTables(lens, root, g - 1);
      NoGroups(lens, root, g - 1, |lens|);
    }
  }

  /** When no code is longer than root, the root table is all. */
  lemma OneLevel(lens: seq<nat>, root: nat)
    requires Bounded(lens, root)
    ensures TableSize(lens, root) == Pow2(root)
  {
    NoSubTables(lens, root, Pow2(root));
  }

  lemma {:induction false} LongestIs(lens: seq<nat>, l: nat, m: nat)
    requires 0 < m <= l && Count(lens, m) > 0 && forall k :: m < k <= l ==> Count(lens, k) == 0
    ensures Longest(lens, l) == m
  {
    if m < l { LongestIs(lens, l - 1, m); }
  }

  lemma {:induction false} ShortestIs(lens: seq<nat>, l: nat, m: nat)
    requires l <= m <= MAXBITS && Count(lens, m) > 0 && forall k :: l <= k < m ==> Count(lens, k) == 0
    ensures Shortest(lens, l) == m
    decreases m - l
  {
    if l < m { ShortestIs(lens, l + 1, m); }
  }

  lemma FixedRoots()
    ensures Longest(FixedLens(), MAXBITS) == 9 && RootBits(FixedLens(), 9) == 9 && TableSize(FixedLens(), 9) == 512
    ensures Longest(FixedDistLens(), MAXBITS) == 5 && RootBits(FixedDistLens(), 5) == 5
    ensures TableSize(FixedDistLens(), 5) == 32
  {
    hide Count, Longest, Shortest, Pow2;
    FixedCounts();
    LongestIs(FixedLens(), MAXBITS, 9);
    ShortestIs(FixedLens(), 1, 7);
    FixedBounds();
    OneLevel(FixedLens(), 9);
    FiveCounts();
    LongestIs(FixedDistLens(), MAXBITS, 5);
    ShortestIs(FixedDistLens(), 1, 5);
    OneLevel(FixedDistLens(), 5);
    TwoPowers();
  }

  lemma TwoPowers()
    ensures Pow2(9) == 512 && Pow2(5) == 32
  {
    assert Pow2(5) == 32;
  }

  lemma FixedBounds()
    ensures Bounded(FixedLens(), 9) && Bounded(FixedDistLens(), 5)
  {
  }

  lemma FiveCounts()
    ensures forall l :: Count(FixedDistLens(), l) == if l == 5 then 32 else 0
  {
    forall l: nat ensures Count(FixedDistLens(), l) == if l == 5 then 32 else 0 { CountFive(l, 32); }
  }

  lemma FixedAcceptable()
    ensures Acceptable(LENS, FixedLens()) && Acceptable(DISTS, FixedDistLens())
    ensures Accepted(LENS, FixedLens()) && Accepted(DISTS, FixedDistLens())
    ensures Complete(FixedLens()) && Complete(FixedDistLens())
  {
    FixedComplete();
    FixedDistComplete();
  }

  /** fixedtables, as BUILDFIXED makes them: 512 entries for literals and lengths, then 32 for distances. */
  method BuildFixed(work: array<nat>) returns (fixed: array<Entry>)
    requires work.Length == 288
    modifies work
    ensures fresh(fixed) && fixed.Length == 1444
    ensures TableFor(LENS, FixedLens(), fixed[..], 0, 9) && TableFor(DISTS, FixedDistLens(), fixed[..], 512, 5)
  {
    hide FixedLens, FixedDistLens, Acceptable, Complete, AllPlaced, Longest, Accepted;
    FixedAcceptable();
    fixed := new Entry[1444](i => INVALID_CODE);
    BuildFixedLens(fixed, work);
    ghost var t: seq<Entry> := fixed[..];
    BuildFixedDists(fixed, work);
    PlacedKept(t, fixed[..], LENS, FixedLens(), 0, 9, 512);
    PlacedWider(fixed[..], LENS, FixedLens(), 0, 9, 512);
    FixedRoots();
  }

  method BuildFixedLens(fixed: array<Entry>, work: array<nat>)
    requires work.Length == 288 && fixed.Length == 1444
    modifies fixed, work
    ensures AllPlaced(fixed[..], LENS, FixedLens(), 0, 9, 512)
  {
    hide FixedLens, FixedDistLens, Acceptable, Complete, AllPlaced, Longest, RootBits, TableSize;
    FixedAcceptable();
    FixedRoots();
    var lens := new nat[288](i => FixedLen(i));
    FixedArray(lens[..]);
    var ret, next, root := InflateTable(LENS, lens[..], fixed, 0, 9, work);
  }

  method BuildFixedDists(fixed: array<Entry>, work: array<nat>)
    requires work.Length == 288 && fixed.Length == 1444
    modifies fixed, work
    ensures forall i :: 0 <= i < 512 ==> fixed[i] == old(fixed[i])
    ensures TableFor(DISTS, FixedDistLens(), fixed[..], 512, 5)
  {
    hide FixedLens, FixedDistLens, Acceptable, Complete, AllPlaced, Longest, RootBits, TableSize, Accepted;
    FixedAcceptable();
    FixedRoots();
    var dlens := new nat[32](i => 5);
    FixedDistArray(dlens[..]);
    var ret, next, root := InflateTable(DISTS, dlens[..], fixed, 512, 5, work);
    PlacedWider(fixed[..], DISTS, FixedDistLens(), 512, 5, 544);
  }

  lemma FixedArray(l: seq<nat>)
    requires |l| == 288 && forall i :: 0 <= i < 288 ==> l[i] == FixedLen(i)
    ensures l == FixedLens() && |l| <= MaxSymbols(LENS)
  {
  }

  lemma FixedDistArray(d: seq<nat>)
    requires |d| == 32 && forall i :: 0 <= i < 32 ==> d[i] == 5
    ensures d == FixedDistLens()
  {
  }

  /** A table is not disturbed by what is written behind it. */
  lemma PlacedKept(t: seq<Entry>, t': seq<Entry>, ty: CodeType, lens: seq<nat>, at: nat, root: nat, end: nat)
    requires |lens| <= MaxSymbols(ty) && AllPlaced(t, ty, lens, at, root, end) && end <= |t|
    requires |t'| == |t| && forall i :: 0 <= i < end ==> t'[i] == t[i]
    ensures AllPlaced(t', ty, lens, at, root, end)
  {
    hide RevCode, EntryOp, EntryVal, Pow2, Low, Shr;
    forall s | 0 <= s < |lens| && lens[s] > 0 ensures Placed(t', ty, lens, at, root, end, s) {
      assert Placed(t, ty, lens, at, root, end, s);
      LowFits(RevCode(lens, s), root);
    }
  }

  lemma LowFits(v: nat, n: nat)
    ensures Low(v, n) < Pow2(n)
  {
  }
}
