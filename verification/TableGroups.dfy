/** Second-level tables: codes longer than root that share their first root
    bits form a group, and each group gets one table as wide as its longest
    code needs. */
module TableGroups {
  import opened Bits
  import opened Canonical

  /** The first root bits of a longer code, most significant first. */
  function Group(lens: seq<nat>, root: nat, s: nat): nat
    requires s < |lens| && lens[s] > root
  {
    Shr(Code(lens, s), lens[s] - root)
  }

  /** The longest code of group g among the symbols below n; 0 if none. */
  function GroupMax(lens: seq<nat>, root: nat, g: nat, n: nat): nat
    requires n <= |lens|
  {
    if n == 0 then 0
    else
      var m := GroupMax(lens, root, g, n - 1);
      if lens[n - 1] > root && Group(lens, root, n - 1) == g && lens[n - 1] > m then lens[n - 1] else m
  }

  function SubSize(lens: seq<nat>, root: nat, g: nat): nat {
    var m := GroupMax(lens, root, g, |lens|);
    if m <= root then 0 else Pow2(m - root)
  }

  /** Entries of the tables for the groups below g. */
  function SubSizes(lens: seq<nat>, root: nat, g: nat): nat {
    if g == 0 then 0 else SubSizes(lens, root, g - 1) + SubSize(lens, root, g - 1)
  }

  /** Entries of the whole two-level table: what ENOUGH has to cover. */
  function TableSize(lens: seq<nat>, root: nat): nat {
    Pow2(root) + SubSizes(lens, root, Pow2(root))
  }

  lemma {:induction false} SubSizesGrow(lens: seq<nat>, root: nat, g: nat, k: nat)
    requires g <= k
    ensures SubSizes(lens, root, g) <= SubSizes(lens, root, k)
  {
    if g < k { SubSizesGrow(lens, root, g, k - 1); }
  }

  ghost predicate InGroup(lens: seq<nat>, root: nat, g: nat, s: nat)
    requires s < |lens|
  {
    lens[s] > root && Group(lens, root, s) == g
  }

  lemma {:induction false} GroupMaxIs(lens: seq<nat>, root: nat, g: nat, n: nat, m: nat, s: nat)
    requires n <= |lens| && s < |lens| && InGroup(lens, root, g, s) && lens[s] == m
    requires forall t :: 0 <= t < |lens| && InGroup(lens, root, g, t) ==> lens[t] <= m
    ensures GroupMax(lens, root, g, n) <= m && (s < n ==> GroupMax(lens, root, g, n) == m)
  {
    if n > 0 {
      GroupMaxIs(lens, root, g, n - 1, m, s);
      assert InGroup(lens, root, g, n - 1) ==> lens[n - 1] <= m;
    }
  }

  lemma {:induction false} GroupMaxNone(lens: seq<nat>, root: nat, g: nat, n: nat)
    requires n <= |lens|
    requires forall t :: 0 <= t < |lens| ==> !InGroup(lens, root, g, t)
    ensures GroupMax(lens, root, g, n) == 0
  {
    if n > 0 {
      GroupMaxNone(lens, root, g, n - 1);
      assert !InGroup(lens, root, g, n - 1);
    }
  }

  lemma {:induction false} SubSizesNone(lens: seq<nat>, root: nat, g: nat)
    requires forall t :: 0 <= t < |lens| && lens[t] > root ==> Group(lens, root, t) >= g
    ensures SubSizes(lens, root, g) == 0
  {
    if g > 0 {
      SubSizesNone(lens, root, g - 1);
      var h := g - 1;
      assert forall t :: 0 <= t < |lens| ==> !InGroup(lens, root, h, t);
      GroupMaxNone(lens, root, h, |lens|);
    }
  }

  /** In canonical order groups only go up. */
  lemma GroupOrder(lens: seq<nat>, root: nat, s: nat, t: nat)
    requires s < |lens| && t < |lens| && root < lens[s] && 0 < lens[s]
    requires lens[s] < lens[t] || (lens[s] == lens[t] && s < t)
    ensures Group(lens, root, s) <= Group(lens, root, t)
  {
    CodeOrder(lens, s, t);
    var d := lens[t] - lens[s];
    ShrShr(Code(lens, t), d, lens[s] - root);
    ShrMonotone(Code(lens, s), Shr(Code(lens, t), d), lens[s] - root);
  }

  lemma GroupBound(lens: seq<nat>, root: nat, s: nat)
    requires Fits(lens) && s < |lens| && lens[s] > root
    ensures Group(lens, root, s) < Pow2(root)
  {
    CodeFits(lens, s);
    ShrBound(Code(lens, s), lens[s] - root, lens[s]);
  }

  /** The root index that a group shares. */
  lemma GroupIndex(lens: seq<nat>, root: nat, s: nat)
    requires s < |lens| && lens[s] > root
    ensures Low(Rev(Code(lens, s), lens[s]), root) == Rev(Group(lens, root, s), root)
  {
    var l, c := lens[s], Code(lens, s);
    CodeIndex(c, l, root);
  }

  lemma CodeIndex(c: nat, l: nat, root: nat)
    requires root <= l
    ensures Low(Rev(c, l), root) == Rev(Shr(c, l - root), root)
  {
    RevHigh(Rev(c, l), root, l);
    RevRev(c, l);
    RevRev(Rev(c, l), root);
    LowLow(c, l - root, l);
    RevLow(Shr(c, l - root), root, root);
  }

  lemma RevInjective(a: nat, b: nat, n: nat)
    requires a < Pow2(n) && b < Pow2(n) && Rev(a, n) == Rev(b, n)
    ensures a == b
  {
    RevRev(a, n);
    RevRev(b, n);
    LowSmall(a, n);
    LowSmall(b, n);
  }

  /** Counting up by one either stays in a group or starts the next. */
  lemma {:induction false} ShrStep(c: nat, m: nat)
    ensures Shr(c + 1, m) == Shr(c, m) || (Shr(c + 1, m) == Shr(c, m) + 1 && c + 1 == Shl(Shr(c + 1, m), m))
  {
    if m > 0 && c % 2 == 1 {
      ShrStep(c / 2, m - 1);
      assert (c + 1) / 2 == c / 2 + 1;
    }
  }

  /** Where the codes of length l end, in the group g and in all. */
  lemma PastGroup(lens: seq<nat>, root: nat, g: nat, l: nat, t: nat)
    requires root <= l && t < |lens| && lens[t] > l
    requires FirstCode(lens, l) + Count(lens, l) >= Shl(g + 1, l - root)
    ensures Group(lens, root, t) > g
  {
    var next := FirstCode(lens, l) + Count(lens, l);
    var d := lens[t] - l;
    FirstCodeGrows(lens, l, lens[t]);
    ShrMonotone(Shl(next, d), Code(lens, t), d);
    SplitUnique(next, 0, d);
    ShrShr(Code(lens, t), d, l - root);
    ShrMonotone(Shl(g + 1, l - root), Shr(Code(lens, t), d), l - root);
    ShlOne(l - root);
    SplitUnique(g + 1, 0, l - root);
  }

  lemma LastOfGroup(lens: seq<nat>, root: nat, g: nat, l: nat) returns (s: nat)
    requires root < l
    requires FirstCode(lens, l) < Shl(g + 1, l - root) <= FirstCode(lens, l) + Count(lens, l)
    ensures s < |lens| && lens[s] == l && InGroup(lens, root, g, s)
  {
    var c := Shl(g + 1, l - root) - 1;
    var r := c - FirstCode(lens, l);
    s := Sym(lens, l, r);
    ShlAdd(g, 1, l - root);
    ShlOne(l - root);
    SplitUnique(g, Pow2(l - root) - 1, l - root);
  }

  /** The look-ahead stops at the right width. */
  lemma GroupWidth(lens: seq<nat>, root: nat, g: nat, l: nat)
    requires root < l
    requires FirstCode(lens, l) < Shl(g + 1, l - root) <= FirstCode(lens, l) + Count(lens, l)
    ensures GroupMax(lens, root, g, |lens|) == l
    ensures forall t :: 0 <= t < |lens| && InGroup(lens, root, g, t) ==> lens[t] <= l
  {
    forall t | 0 <= t < |lens| && InGroup(lens, root, g, t)
      ensures lens[t] <= l
    {
      if lens[t] > l { PastGroup(lens, root, g, l, t); }
    }
    var s := LastOfGroup(lens, root, g, l);
    GroupMaxIs(lens, root, g, |lens|, l, s);
  }
}
