/** ENOUGH_LENS and ENOUGH_DISTS (deps/libz/inftrees.h) cannot be smaller: there are
    codes whose tables take exactly that many entries. */
module TightTables {
  import opened Bits
  import opened Canonical
  import opened DecodeTable
  import opened TableGroups
  import opened Inftrees
  import opened TableLimits

  function Run(v: nat, n: nat): (r: seq<nat>)
    ensures |r| == n && forall i :: 0 <= i < n ==> r[i] == v
  {
    seq(n, i => v)
  }

  /** Lengths in ascending order, c[l] of them l. */
  function Ascending(c: seq<nat>): (lens: seq<nat>)
    ensures forall i :: 0 <= i < |lens| ==> lens[i] < |c|
  {
    if c == [] then [] else Ascending(c[..|c| - 1]) + Run(|c| - 1, c[|c| - 1])
  }

  lemma {:induction false} CountJoined(a: seq<nat>, b: seq<nat>, l: nat, n: nat)
    requires n <= |a| + |b|
    ensures CountIn(a + b, l, n) == if n <= |a| then CountIn(a, l, n) else CountIn(a, l, |a|) + CountIn(b, l, n - |a|)
  {
    if n > 0 { CountJoined(a, b, l, n - 1); }
  }

  lemma {:induction false} CountRun(s: seq<nat>, v: nat, l: nat, n: nat)
    requires n <= |s| && forall i :: 0 <= i < |s| ==> s[i] == v
    ensures CountIn(s, l, n) == if l == v then n else 0
  {
    if n > 0 { CountRun(s, v, l, n - 1); }
  }

  lemma {:induction false} AscendingCount(c: seq<nat>, l: nat)
    ensures CountIn(Ascending(c), l, |Ascending(c)|) == if l < |c| then c[l] else 0
  {
    if c != [] {
      hide CountIn, Run;
      var m := |c| - 1;
      var a, b := Ascending(c[..m]), Run(m, c[m]);
      AscendingCount(c[..m], l);
      CountJoined(a, b, l, |a| + |b|);
      CountRun(b, m, l, |b|);
    }
  }

  function Total(c: seq<nat>, n: nat): nat
    requires n <= |c|
  {
    if n == 0 then 0 else Total(c, n - 1) + c[n - 1]
  }

  lemma {:induction false} TotalPrefix(c: seq<nat>, m: nat, n: nat)
    requires n <= m <= |c|
    ensures Total(c[..m], n) == Total(c, n)
  {
    if n > 0 { TotalPrefix(c, m, n - 1); }
  }

  lemma {:induction false} AscendingTotal(c: seq<nat>)
    ensures |Ascending(c)| == Total(c, |c|)
  {
    if c != [] {
      AscendingTotal(c[..|c| - 1]);
      TotalPrefix(c, |c| - 1, |c| - 1);
    }
  }

  /** At every length all but one place of the open group is used. */
  ghost predicate Wasteful(lens: seq<nat>, root: nat) {
    forall l :: root < l < MAXBITS ==> Inside(lens, root, l) + 1 == Pow2(l - root)
  }

  lemma {:induction false} SizesExact(lens: seq<nat>, root: nat, l: nat)
    requires root <= l < MAXBITS && Wasteful(lens, root)
    ensures SubSizes(lens, root, FullGroups(lens, root, l)) + Inside(lens, root, l) + 1 + (l - root)
         == Longer(lens, root, l) + Pow2(l - root)
  {
    hide SubSizes, FullGroups, Inside, Count;
    if l == root {
      NoneBefore(lens, root);
    } else {
      SizesExact(lens, root, l - 1);
      SizesStep(lens, root, l);
      if l - 1 == root { NoneBefore(lens, root); }
    }
  }

  /** Then the bound on the tables is reached. */
  lemma WastefulSize(lens: seq<nat>, root: nat)
    requires Complete(lens) && Wasteful(lens, root) && root + 1 < MAXBITS
    ensures TableSize(lens, root) + 1 + (MAXBITS - root)
         == Pow2(root) + Longer(lens, root, MAXBITS) + Pow2(MAXBITS - root)
  {
    hide SubSizes, FullGroups, Inside, Count, Pow2, Complete, Wasteful;
    SizesExact(lens, root, MAXBITS - 1);
    SizesStep(lens, root, MAXBITS);
    AllFull(lens, root);
    LastWasteful(lens, root);
  }

  lemma LastWasteful(lens: seq<nat>, root: nat)
    requires Complete(lens) && Wasteful(lens, root) && root + 1 < MAXBITS
    ensures Inside(lens, root, MAXBITS - 1) + 1 == Pow2(MAXBITS - 1 - root) && Inside(lens, root, MAXBITS) == 0
    ensures Pow2(MAXBITS - root) == 2 * Pow2(MAXBITS - 1 - root)
  {
    hide Inside, Complete;
    FullEnd(lens);
    hide EndCode;
    InsideIs(lens, root, MAXBITS);
    ShlPow2(root, MAXBITS - root);
    AllFull(lens, root);
  }

  const LENS_COUNTS: seq<nat> := [0, 1, 1, 1, 0, 0, 0, 0, 0, 0, 1, 229, 49, 1, 1, 2]
  const DIST_COUNTS: seq<nat> := [0, 1, 1, 1, 1, 0, 0, 1, 9, 9, 1, 1, 1, 1, 1, 2]

  /** The first code after those of length l, from the counts. */
  function EndOf(c: seq<nat>, l: nat): nat
    requires l < |c|
  {
    if l == 0 then 0 else 2 * EndOf(c, l - 1) + c[l]
  }

  lemma {:induction false} EndsAre(c: seq<nat>, l: nat)
    requires l < |c| && c[0] == 0
    ensures EndCode(Ascending(c), l) == EndOf(c, l) && Longer(Ascending(c), 0, l) == Total(c, l + 1)
  {
    hide EndCode, Ascending, Count;
    CountIs(c, l);
    if l > 0 {
      EndsAre(c, l - 1);
      EndStep(Ascending(c), l);
    } else {
      StartsEmpty(Ascending(c));
    }
  }

  lemma CountIs(c: seq<nat>, l: nat)
    requires l < |c| && c[0] == 0
    ensures Count(Ascending(c), l) == c[l]
  {
    hide CountIn, Ascending;
    AscendingCount(c, l);
  }

  lemma LensEnds()
    ensures |LENS_COUNTS| == 16 && EndOf(LENS_COUNTS, 9) == 448 && EndOf(LENS_COUNTS, 10) == 897
    ensures EndOf(LENS_COUNTS, 11) == 2023 && EndOf(LENS_COUNTS, 12) == 4095 && EndOf(LENS_COUNTS, 13) == 8191
    ensures EndOf(LENS_COUNTS, 14) == 16383 && EndOf(LENS_COUNTS, 15) == 32768
    ensures Total(LENS_COUNTS, 10) == 3 && Total(LENS_COUNTS, 16) == 286
  {
    var c := LENS_COUNTS;
    assert EndOf(c, 3) == 7;
    assert EndOf(c, 6) == 56;
    assert EndOf(c, 9) == 448;
    assert EndOf(c, 12) == 4095;
    assert Total(c, 4) == 3;
    assert Total(c, 7) == 3;
    assert Total(c, 10) == 3;
    assert Total(c, 13) == 282;
  }

  lemma DistEnds()
    ensures |DIST_COUNTS| == 16 && EndOf(DIST_COUNTS, 6) == 60 && EndOf(DIST_COUNTS, 7) == 121
    ensures EndOf(DIST_COUNTS, 8) == 251 && EndOf(DIST_COUNTS, 9) == 511 && EndOf(DIST_COUNTS, 10) == 1023
    ensures EndOf(DIST_COUNTS, 11) == 2047 && EndOf(DIST_COUNTS, 12) == 4095 && EndOf(DIST_COUNTS, 13) == 8191
    ensures EndOf(DIST_COUNTS, 14) == 16383 && EndOf(DIST_COUNTS, 15) == 32768
    ensures Total(DIST_COUNTS, 7) == 4 && Total(DIST_COUNTS, 16) == 30
  {
    var c := DIST_COUNTS;
    assert EndOf(c, 3) == 7;
    assert EndOf(c, 6) == 60;
    assert EndOf(c, 9) == 511;
    assert EndOf(c, 12) == 4095;
    assert Total(c, 4) == 3;
    assert Total(c, 7) == 4;
    assert Total(c, 10) == 23;
    assert Total(c, 13) == 26;
  }

  lemma LowOnes()
    ensures Low(897, 1) == 1 && Low(2023, 2) == 3 && Low(4095, 3) == 7 && Low(8191, 4) == 15 && Low(16383, 5) == 31
    ensures Low(121, 1) == 1 && Low(251, 2) == 3 && Low(511, 3) == 7 && Low(1023, 4) == 15 && Low(2047, 5) == 31
    ensures Low(4095, 6) == 63 && Low(8191, 7) == 127 && Low(16383, 8) == 255
    ensures Pow2(1) == 2 && Pow2(2) == 4 && Pow2(3) == 8 && Pow2(4) == 16 && Pow2(5) == 32 && Pow2(6) == 64
    ensures Pow2(7) == 128 && Pow2(8) == 256
  {
    assert Low(63, 4) == 15 && Low(127, 4) == 15 && Low(127, 5) == 31;
  }

  /** A code given by its counts is complete when they use up all the room. */
  lemma CountsComplete(c: seq<nat>)
    requires |c| == MAXBITS + 1 && c[0] == 0 && EndOf(c, MAXBITS) == Pow2(MAXBITS) && c[MAXBITS] > 0 && c[1] > 0
    ensures Complete(Ascending(c)) && |Ascending(c)| == Total(c, |c|)
    ensures Longest(Ascending(c), MAXBITS) == MAXBITS && Shortest(Ascending(c), 1) == 1
  {
    hide Ascending, EndOf, Pow2, CountIn;
    EndsAre(c, MAXBITS);
    LeftIsFree(Ascending(c), MAXBITS);
    AscendingTotal(c);
    CountIs(c, MAXBITS);
    CountIs(c, 1);
  }

  lemma InsideWhen(c: seq<nat>, root: nat, l: nat)
    requires root <= l < |c| && c[0] == 0
    ensures Inside(Ascending(c), root, l) == Low(EndOf(c, l), l - root)
  {
    hide Ascending, EndOf, Low;
    EndsAre(c, l);
  }

  lemma LensWasteful()
    ensures Wasteful(Ascending(LENS_COUNTS), 9)
  {
    hide Inside, EndOf, Low, Pow2, Ascending;
    LensEnds();
    LowOnes();
    forall l | 9 < l < MAXBITS
      ensures Inside(Ascending(LENS_COUNTS), 9, l) + 1 == Pow2(l - 9)
    {
      InsideWhen(LENS_COUNTS, 9, l);
    }
  }

  lemma DistsWasteful()
    ensures Wasteful(Ascending(DIST_COUNTS), 6)
  {
    hide Inside, EndOf, Low, Pow2, Ascending;
    DistEnds();
    LowOnes();
    forall l | 6 < l < MAXBITS
      ensures Inside(Ascending(DIST_COUNTS), 6, l) + 1 == Pow2(l - 6)
    {
      InsideWhen(DIST_COUNTS, 6, l);
    }
  }

  /** The size of a wasteful table, from the counts. */
  lemma TightSize(c: seq<nat>, root: nat)
    requires |c| == MAXBITS + 1 && c[0] == 0 && EndOf(c, MAXBITS) == Pow2(MAXBITS) && c[MAXBITS] > 0 && c[1] > 0
    requires 1 <= root && root + 1 < MAXBITS && Wasteful(Ascending(c), root)
    ensures Complete(Ascending(c)) && |Ascending(c)| == Total(c, |c|) && RootBits(Ascending(c), root) == root
    ensures TableSize(Ascending(c), root) + 1 + (MAXBITS - root)
         == Pow2(root) + Total(c, |c|) - Total(c, root + 1) + Pow2(MAXBITS - root)
  {
    hide Ascending, EndOf, Pow2, Complete, Wasteful, TableSize, Total, Longest, Shortest;
    CountsComplete(c);
    WastefulSize(Ascending(c), root);
    LongerSplit(Ascending(c), root, MAXBITS);
    EndsAre(c, root);
    EndsAre(c, MAXBITS);
  }

  /** ENOUGH_LENS is reached by a code for 286 symbols. */
  lemma LensReached()
    ensures exists lens :: |lens| == 286 && Acceptable(LENS, lens) && TableSize(lens, RootBits(lens, 9)) == Enough(LENS)
  {
    hide Ascending, EndOf, Pow2, Wasteful, TableSize, Total, RootBits;
    LensEnds();
    Pow2Values();
    Powers();
    LensWasteful();
    TightSize(LENS_COUNTS, 9);
    assert Acceptable(LENS, Ascending(LENS_COUNTS));
  }

  /** ENOUGH_DISTS is reached by a code for 30 symbols. */
  lemma DistsReached()
    ensures exists lens ::
      |lens| == 30 && Acceptable(DISTS, lens) && TableSize(lens, RootBits(lens, 6)) == Enough(DISTS)
  {
    hide Ascending, EndOf, Pow2, Wasteful, TableSize, Total, RootBits;
    DistEnds();
    Pow2Values();
    Powers();
    DistsWasteful();
    TightSize(DIST_COUNTS, 6);
    assert Acceptable(DISTS, Ascending(DIST_COUNTS));
  }
}
