/** The table sizes ENOUGH_LENS and ENOUGH_DISTS (deps/libz/inftrees.h), which zlib
    takes from an exhaustive search over all codes.  Here they follow from the order of
    canonical codes: after the codes of each length at most one group is partly filled,
    and the entries that the tables waste are bounded by how far it is filled. */
module TableLimits {
  import opened Bits
  import opened Canonical
  import opened DecodeTable
  import opened TableGroups
  import opened Inftrees
  import opened FixedTables
  import opened LengthStates

  /** The first code after those of length l, and the groups that are full by then. */
  function EndCode(lens: seq<nat>, l: nat): nat { FirstCode(lens, l) + Count(lens, l) }

  function FullGroups(lens: seq<nat>, root: nat, l: nat): nat
    requires root <= l
  {
    Shr(EndCode(lens, l), l - root)
  }

  /** How far the codes of length l reach into the group that they leave open. */
  function Inside(lens: seq<nat>, root: nat, l: nat): nat
    requires root <= l
  {
    Low(EndCode(lens, l), l - root)
  }

  lemma InsideIs(lens: seq<nat>, root: nat, l: nat)
    requires root <= l
    ensures Shl(FullGroups(lens, root, l), l - root) + Inside(lens, root, l) == EndCode(lens, l)
    ensures Inside(lens, root, l) < Pow2(l - root)
  {
    hide Shl, Shr, Low, Pow2, EndCode;
    Split(EndCode(lens, l), l - root);
  }

  /** A group that the codes of length l fill has a table for l bits. */
  lemma FilledSize(lens: seq<nat>, root: nat, l: nat, g: nat)
    requires root < l && FullGroups(lens, root, l - 1) <= g < FullGroups(lens, root, l)
    ensures SubSize(lens, root, g) == Pow2(l - root)
  {
    hide Shl, Shr, Low, Pow2, GroupMax, FirstCode, Count;
    var k := l - root;
    InsideIs(lens, root, l);
    InsideIs(lens, root, l - 1);
    ShlMonotone(g + 1, FullGroups(lens, root, l), k);
    ShlMonotone(FullGroups(lens, root, l - 1) + 1, g + 1, k - 1);
    ShlAdd(FullGroups(lens, root, l - 1), 1, k - 1);
    ShlOne(k - 1);
    DoubleShl(g + 1, k);
    NextFirst(lens, l);
    GroupWidth(lens, root, g, l);
  }

  lemma DoubleShl(v: nat, k: nat)
    requires k > 0
    ensures Shl(v, k) == 2 * Shl(v, k - 1) && Pow2(k) == 2 * Pow2(k - 1)
  {
  }

  lemma NextFirst(lens: seq<nat>, l: nat)
    requires l > 0
    ensures FirstCode(lens, l) == 2 * EndCode(lens, l - 1)
  {
  }

  /** The tables of the groups from h to g, all filled by the codes of length l. */
  lemma {:induction false} FilledSizes(lens: seq<nat>, root: nat, l: nat, h: nat, g: nat)
    requires root < l && FullGroups(lens, root, l - 1) <= h <= g <= FullGroups(lens, root, l)
    ensures SubSizes(lens, root, g) - Shl(g, l - root) == SubSizes(lens, root, h) - Shl(h, l - root)
  {
    hide Shl, Pow2, SubSize, FullGroups;
    if h < g {
      FilledSizes(lens, root, l, h, g - 1);
      FilledSize(lens, root, l, g - 1);
      ShlAdd(g - 1, 1, l - root);
      ShlOne(l - root);
    }
  }

  /** What the codes of length l add to the tables of the groups that are full. */
  lemma SizesStep(lens: seq<nat>, root: nat, l: nat)
    requires root < l
    ensures SubSizes(lens, root, FullGroups(lens, root, l)) + Inside(lens, root, l)
         == SubSizes(lens, root, FullGroups(lens, root, l - 1)) + Count(lens, l) + 2 * Inside(lens, root, l - 1)
  {
    hide *;
    GroupsGrow(lens, root, l);
    var g, h := FullGroups(lens, root, l), FullGroups(lens, root, l - 1);
    FilledSizes(lens, root, l, h, g);
    InsideIs(lens, root, l);
    InsideIs(lens, root, l - 1);
    DoubleShl(h, l - root);
    EndStep(lens, l);
  }

  lemma EndStep(lens: seq<nat>, l: nat)
    requires l > 0
    ensures EndCode(lens, l) == 2 * EndCode(lens, l - 1) + Count(lens, l)
  {
  }

  lemma GroupsGrow(lens: seq<nat>, root: nat, l: nat)
    requires root < l
    ensures FullGroups(lens, root, l - 1) <= FullGroups(lens, root, l)
  {
    hide *;
    EndStep(lens, l);
    var e := EndCode(lens, l - 1);
    ShrMonotone(2 * e, EndCode(lens, l), l - root);
    ShrDouble(e, l - root);
    GroupsAre(lens, root, l);
    GroupsAre(lens, root, l - 1);
  }

  lemma GroupsAre(lens: seq<nat>, root: nat, l: nat)
    requires root <= l
    ensures FullGroups(lens, root, l) == Shr(EndCode(lens, l), l - root)
  {
  }

  lemma ShrDouble(v: nat, k: nat)
    requires k > 0
    ensures Shr(2 * v, k) == Shr(v, k - 1)
  {
  }

  /** Codes longer than root and at most l. */
  function Longer(lens: seq<nat>, root: nat, l: nat): nat {
    if l <= root then 0 else Longer(lens, root, l - 1) + Count(lens, l)
  }

  /** No group is full before it has a code longer than root. */
  lemma NoneBefore(lens: seq<nat>, root: nat)
    ensures SubSizes(lens, root, FullGroups(lens, root, root)) == 0 && Inside(lens, root, root) == 0
  {
    var e := EndCode(lens, root);
    assert FullGroups(lens, root, root) == e;
    if e > 0 {
      forall t | 0 <= t < |lens| && lens[t] > root
        ensures Group(lens, root, t) >= e
      {
        PastGroup(lens, root, e - 1, root, t);
      }
      SubSizesNone(lens, root, e);
    }
  }

  lemma {:induction false} SizesBound(lens: seq<nat>, root: nat, l: nat)
    requires root <= l
    ensures SubSizes(lens, root, FullGroups(lens, root, l)) + Inside(lens, root, l) + 1 + (l - root)
         <= Longer(lens, root, l) + Pow2(l - root)
  {
    hide SubSizes, FullGroups, Inside, Count;
    if l == root {
      NoneBefore(lens, root);
    } else {
      SizesBound(lens, root, l - 1);
      SizesStep(lens, root, l);
      InsideIs(lens, root, l - 1);
    }
  }

  lemma {:induction false} SizesEven(lens: seq<nat>, root: nat, g: nat)
    ensures SubSizes(lens, root, g) % 2 == 0
  {
    hide GroupMax;
    if g > 0 { SizesEven(lens, root, g - 1); }
  }

  /** A complete code fills all the groups. */
  lemma AllFull(lens: seq<nat>, root: nat)
    requires Complete(lens) && root <= MAXBITS
    ensures FullGroups(lens, root, MAXBITS) == Pow2(root)
    ensures SubSizes(lens, root, Pow2(root)) + 1 + (MAXBITS - root) <= Longer(lens, root, MAXBITS)
      + Pow2(MAXBITS - root)
  {
    hide *;
    FullEnd(lens);
    ShlPow2(root, MAXBITS - root);
    ZeroFits(MAXBITS - root);
    SplitUnique(Pow2(root), 0, MAXBITS - root);
    GroupsAre(lens, root, MAXBITS);
    SizesBound(lens, root, MAXBITS);
  }

  lemma ZeroFits(n: nat)
    ensures 0 < Pow2(n)
  {
  }

  lemma FullEnd(lens: seq<nat>)
    requires Complete(lens)
    ensures EndCode(lens, MAXBITS) == Pow2(MAXBITS) && Left(lens, MAXBITS) == 0
  {
    hide FirstCode, Count, Left, Pow2;
    LeftIsFree(lens, MAXBITS);
  }

  /** Every code of root bits still free takes two longer codes at least. */
  lemma {:induction false} TwoEach(lens: seq<nat>, root: nat, l: nat)
    requires root < l && Left(lens, l) >= 0
    ensures Longer(lens, root, l) + Left(lens, l) >= 2 * Left(lens, root)
  {
    hide Count;
    LeftSign(lens, l - 1, l);
    if root + 1 < l { TwoEach(lens, root, l - 1); } else { assert Longer(lens, root, root) == 0; }
  }

  /** Few short codes leave much room. */
  lemma {:induction false} FewShort(lens: seq<nat>, l: nat)
    ensures var n, e := Longer(lens, 0, l), EndCode(lens, l);
      && (n == 0 ==> e == 0) && (n == 1 ==> 2 * e <= Pow2(l))
      && (n == 2 ==> e == Pow2(l) || 4 * e <= 3 * Pow2(l))
  {
    hide Count, FirstCode, EndCode;
    if l > 0 {
      FewShort(lens, l - 1);
      EndStep(lens, l);
    } else {
      StartsEmpty(lens);
    }
  }

  lemma StartsEmpty(lens: seq<nat>)
    ensures EndCode(lens, 0) == 0 && Longer(lens, 0, 0) == 0
  {
  }

  lemma {:induction false} LongerSplit(lens: seq<nat>, root: nat, l: nat)
    requires root <= l
    ensures Longer(lens, 0, root) + Longer(lens, root, l) == Longer(lens, 0, l)
  {
    hide Count;
    if root < l { LongerSplit(lens, root, l - 1); } else { assert Longer(lens, root, root) == 0; }
  }

  lemma {:induction false} LongerOffset(lens: seq<nat>, l: nat)
    ensures Longer(lens, 0, l) == Offset(lens, l + 1)
  {
    if l > 0 { LongerOffset(lens, l - 1); }
  }

  /** What decides the size: the short codes r and the room that they leave. */
  lemma Budget(lens: seq<nat>, root: nat) returns (r: nat, left: nat)
    requires Complete(lens) && root < MAXBITS
    ensures r == Longer(lens, 0, root) && r + Longer(lens, root, MAXBITS) <= |lens|
    ensures Longer(lens, root, MAXBITS) >= 2 * left && left + EndCode(lens, root) == Pow2(root)
    ensures SubSizes(lens, root, Pow2(root)) + 1 + (MAXBITS - root) <= |lens| - r + Pow2(MAXBITS - root)
    ensures SubSizes(lens, root, Pow2(root)) % 2 == 0
    ensures left == 0 ==> SubSizes(lens, root, Pow2(root)) == 0
  {
    hide *;
    r := Longer(lens, 0, root);
    LeftIsFree(lens, root);
    FullEnd(lens);
    LeftSign(lens, root, MAXBITS);
    left := Left(lens, root);
    EndIs(lens, root);
    TwoEach(lens, root, MAXBITS);
    LongerSplit(lens, root, MAXBITS);
    LongerOffset(lens, MAXBITS);
    OffsetAll(lens);
    AllFull(lens, root);
    SizesEven(lens, root, Pow2(root));
    if left == 0 { NoneOpen(lens, root); }
  }

  lemma EndIs(lens: seq<nat>, l: nat)
    ensures EndCode(lens, l) == FirstCode(lens, l) + Count(lens, l)
  {
  }

  lemma OffsetAll(lens: seq<nat>)
    ensures Offset(lens, MAXBITS + 1) <= |lens|
  {
    OffsetBound(lens, MAXBITS + 1, |lens|);
  }

  lemma NoneOpen(lens: seq<nat>, root: nat)
    requires EndCode(lens, root) == Pow2(root)
    ensures SubSizes(lens, root, Pow2(root)) == 0
  {
    hide EndCode, SubSizes;
    NoneBefore(lens, root);
  }

  /** ENOUGH_LENS - 512. */
  lemma LensBudget(lens: seq<nat>)
    requires Complete(lens) && |lens| <= 286
    ensures SubSizes(lens, 9, Pow2(9)) <= 340 && Longer(lens, 0, 9) >= 2
  {
    hide Complete, SubSizes, Longer, EndCode, Pow2;
    var r, left := Budget(lens, 9);
    FewShort(lens, 9);
    Powers();
  }

  /** ENOUGH_DISTS - 64. */
  lemma DistsBudget(lens: seq<nat>)
    requires Complete(lens) && |lens| <= 30
    ensures SubSizes(lens, 6, Pow2(6)) <= 528 && Longer(lens, 0, 6) >= 2
  {
    hide Complete, SubSizes, Longer, EndCode, Pow2;
    var r, left := Budget(lens, 6);
    FewShort(lens, 6);
    Powers();
  }

  lemma Powers()
    ensures Pow2(6) == 64 && Pow2(9) == 512
  {
  }

  // ---- The sizes that inflate asks for ----

  lemma {:induction false} SomeShort(lens: seq<nat>, l: nat) returns (m: nat)
    requires Longer(lens, 0, l) > 0 && l <= MAXBITS
    ensures 1 <= m <= l && Count(lens, m) > 0 && Shortest(lens, 1) <= m
  {
    hide Count, Shortest;
    if Count(lens, l) > 0 {
      assert l > 0;
      m := l;
      ShortestAtMost(lens, 1, m);
    } else {
      m := SomeShort(lens, l - 1);
    }
  }

  /** The root index is as wide as asked for when short codes exist; with only short
      codes there is one level. */
  lemma RootAsked(lens: seq<nat>, bits: nat)
    requires Bounded(lens, MAXBITS) && Longest(lens, MAXBITS) > 0 && bits <= MAXBITS
    requires Longest(lens, MAXBITS) > bits ==> Longer(lens, 0, bits) > 0
    ensures Longest(lens, MAXBITS) > bits ==> RootBits(lens, bits) == bits
    ensures Longest(lens, MAXBITS) <= bits ==> TableSize(lens, RootBits(lens, bits)) <= Pow2(bits)
  {
    hide Longest, Shortest, TableSize, Bounded;
    ShortestSmall(lens);
    if Longest(lens, MAXBITS) > bits {
      var m := SomeShort(lens, bits);
    } else {
      AllBelow(lens, Longest(lens, MAXBITS));
      OneLevel(lens, RootBits(lens, bits));
      Pow2Monotone(RootBits(lens, bits), bits);
    }
  }

  /** A literal/length table never has more than ENOUGH_LENS entries. */
  lemma EnoughLens(lens: seq<nat>)
    requires |lens| <= 286 && Acceptable(LENS, lens) && Longest(lens, MAXBITS) > 0
    ensures TableSize(lens, RootBits(lens, 9)) <= Enough(LENS)
  {
    hide Longest, RootBits, SubSizes, Left, Longer, Pow2;
    if Longest(lens, MAXBITS) > 9 { LensBudget(lens); }
    RootAsked(lens, 9);
    Powers();
  }

  /** A distance table never has more than ENOUGH_DISTS entries. */
  lemma EnoughDists(lens: seq<nat>)
    requires |lens| <= 30 && Acceptable(DISTS, lens) && Longest(lens, MAXBITS) > 0
    ensures TableSize(lens, RootBits(lens, 6)) <= Enough(DISTS)
  {
    hide Longest, RootBits, SubSizes, Left, Longer, Pow2;
    if Longest(lens, MAXBITS) > 6 { DistsBudget(lens); }
    RootAsked(lens, 6);
    Powers();
  }
}
