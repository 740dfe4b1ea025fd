/** What gen_bitlen relies on (deps/libz/trees.c): the layout of the merged
    nodes in the heap array, and length counts whose Kraft sum is repaired. */
module BitLengths {
  import opened Bits
  import opened Optimality
  import opened TreeBuilder

  const MAX_BITS: nat := 15

  // ---- Counting lengths ----

  function HasLength(l: seq<nat>, b: nat): (f: seq<int>)
    ensures |f| == |l|
  {
    seq(|l|, x requires 0 <= x < |l| => if l[x] == b then 1 else 0)
  }

  /** How many nodes of s have length b. */
  function LengthCount(s: set<nat>, l: seq<nat>, b: nat): int {
    Sum(s, HasLength(l, b), |l|)
  }

  /** bl_count is the statistics of the lengths of s. */
  ghost predicate Tally(cnt: seq<nat>, s: set<nat>, l: seq<nat>) {
    |cnt| == MAX_BITS + 1 && forall b :: 0 <= b <= MAX_BITS ==> cnt[b] == LengthCount(s, l, b)
  }

  lemma CountAdd(s: set<nat>, l: seq<nat>, n: nat, bits: nat, b: nat)
    requires n !in s && n < |l|
    ensures LengthCount(s + {n}, l[n := bits], b) == LengthCount(s, l, b) + (if b == bits then 1 else 0)
  {
    var f: seq<int> := HasLength(l[n := bits], b);
    SumAdd(s, f, |l|, n);
    SumSame(s, f, HasLength(l, b), |l|);
  }

  lemma {:induction false} CountNone(l: seq<nat>, b: nat)
    ensures LengthCount({}, l, b) == 0
  {
    SumEmpty(HasLength(l, b), |l|);
  }

  lemma TallyAdd(cnt: seq<nat>, s: set<nat>, l: seq<nat>, n: nat, bits: nat)
    requires Tally(cnt, s, l) && n !in s && n < |l| && bits <= MAX_BITS
    ensures Tally(cnt[bits := cnt[bits] + 1], s + {n}, l[n := bits])
  {
    hide LengthCount;
    var cnt' := cnt[bits := cnt[bits] + 1];
    forall b | 0 <= b <= MAX_BITS
      ensures cnt'[b] == LengthCount(s + {n}, l[n := bits], b)
    {
      CountAdd(s, l, n, bits, b);
    }
  }

  lemma TallyNone(cnt: seq<nat>, l: seq<nat>)
    requires |cnt| == MAX_BITS + 1 && forall b :: 0 <= b <= MAX_BITS ==> cnt[b] == 0
    ensures Tally(cnt, {}, l)
  {
    hide LengthCount;
    forall b | 0 <= b <= MAX_BITS ensures cnt[b] == LengthCount({}, l, b) { CountNone(l, b); }
  }

  // ---- Sums over the counts ----

  /** The Kraft sum of the lengths 1 to b, in units of 2^-max. */
  function CountKraft(cnt: seq<nat>, max: nat, b: nat): nat
    requires b <= max && b < |cnt|
  {
    if b == 0 then 0 else CountKraft(cnt, max, b - 1) + Shl(cnt[b], max - b)
  }

  function Total(cnt: seq<nat>, b: nat): nat
    requires b < |cnt|
  {
    if b == 0 then 0 else Total(cnt, b - 1) + cnt[b]
  }

  lemma {:induction false} KraftUpdate(cnt: seq<nat>, max: nat, p: nat, v: nat, b: nat)
    requires b <= max && b < |cnt| && 1 <= p < |cnt|
    ensures CountKraft(cnt[p := v], max, b)
         == CountKraft(cnt, max, b) + (if p <= b then Shl(v, max - p) - Shl(cnt[p], max - p) else 0)
  {
    if b > 0 { KraftUpdate(cnt, max, p, v, b - 1); }
  }

  lemma {:induction false} TotalUpdate(cnt: seq<nat>, p: nat, v: nat, b: nat)
    requires b < |cnt| && 1 <= p < |cnt|
    ensures Total(cnt[p := v], b) == Total(cnt, b) + (if p <= b then v - cnt[p] else 0)
  {
    if b > 0 { TotalUpdate(cnt, p, v, b - 1); }
  }

  /** One more code of length p. */
  lemma AddOne(cnt: seq<nat>, max: nat, p: nat)
    requires 1 <= p <= max < |cnt|
    ensures var cnt' := cnt[p := cnt[p] + 1];
            CountKraft(cnt', max, max) == CountKraft(cnt, max, max) + Pow2(max - p)
            && Total(cnt', max) == Total(cnt, max) + 1
  {
    KraftUpdate(cnt, max, p, cnt[p] + 1, max);
    TotalUpdate(cnt, p, cnt[p] + 1, max);
    ShlAdd(cnt[p], 1, max - p);
    ShlOne(max - p);
  }

  lemma RemoveOne(cnt: seq<nat>, max: nat, p: nat)
    requires 1 <= p <= max < |cnt| && cnt[p] > 0
    ensures var cnt' := cnt[p := cnt[p] - 1];
            CountKraft(cnt', max, max) == CountKraft(cnt, max, max) - Pow2(max - p)
            && Total(cnt', max) == Total(cnt, max) - 1
  {
    var cnt' := cnt[p := cnt[p] - 1];
    AddOne(cnt', max, p);
    assert cnt'[p := cnt'[p] + 1] == cnt;
  }

  /** One turn of the repair loop: a leaf of length b moves down, an overflow
      item becomes its brother, and the brother of that item moves up. */
  function Repaired(cnt: seq<nat>, max: nat, b: nat): seq<nat>
    requires 1 <= b < max < |cnt| && cnt[b] > 0 && cnt[max] > 0
  {
    var c := cnt[b := cnt[b] - 1];
    var c := c[b + 1 := c[b + 1] + 2];
    c[max := c[max] - 1]
  }

  lemma RepairTurn(cnt: seq<nat>, max: nat, b: nat)
    requires 1 <= b < max < |cnt| && cnt[b] > 0 && cnt[max] > 0
    ensures var cnt' := Repaired(cnt, max, b);
            && CountKraft(cnt', max, max) == CountKraft(cnt, max, max) - 1
            && Total(cnt', max) == Total(cnt, max) && cnt'[max] >= cnt[max] - 1
            && forall k :: 0 <= k < |cnt| && (k == 0 || k > max) ==> cnt'[k] == cnt[k]
  {
    hide CountKraft, Total;
    var c1 := cnt[b := cnt[b] - 1];
    var c2 := c1[b + 1 := c1[b + 1] + 1];
    var c3 := c2[b + 1 := c2[b + 1] + 1];
    RemoveOne(cnt, max, b);
    AddOne(c1, max, b + 1);
    AddOne(c2, max, b + 1);
    RemoveOne(c3, max, max);
    assert c3 == c1[b + 1 := c1[b + 1] + 2];
    assert Pow2(max - b) == 2 * Pow2(max - (b + 1));
  }

  lemma {:induction false} NothingShort(cnt: seq<nat>, max: nat, k: nat)
    requires k <= max < |cnt| && forall b :: 1 <= b <= k ==> cnt[b] == 0
    ensures CountKraft(cnt, max, k) == 0 && Total(cnt, k) == 0
  {
    if k > 0 {
      NothingShort(cnt, max, k - 1);
      ShlOne(max - k);
    }
  }

  /** Too many codes for the lengths, but not too many for max bits: some code
      is shorter than max. */
  lemma SomeShort(cnt: seq<nat>, max: nat) returns (b: nat)
    requires 1 <= max < |cnt| && CountKraft(cnt, max, max) > Pow2(max) && Total(cnt, max) <= Pow2(max)
    ensures 1 <= b < max && cnt[b] > 0
  {
    if b0 :| 1 <= b0 < max && cnt[b0] > 0 {
      b := b0;
    } else {
      NothingShort(cnt, max, max - 1);
      assert false;
    }
  }

  // ---- Counts of a set of lengths ----

  ghost predicate Between(s: set<nat>, l: seq<nat>, lo: nat, hi: nat) {
    forall x :: x in s ==> x < |l| && lo <= l[x] <= hi
  }

  function SizeBelow(s: set<nat>, n: nat): nat {
    if n == 0 then 0 else SizeBelow(s, n - 1) + (if n - 1 in s then 1 else 0)
  }

  lemma {:induction false} SizeIs(s: set<nat>, n: nat)
    requires forall x :: x in s ==> x < n
    ensures SizeBelow(s, n) == |s|
  {
    if n > 0 {
      SizeIs(s - {n - 1}, n - 1);
      SizeSame(s, n - 1);
      if n - 1 in s { assert s == (s - {n - 1}) + {n - 1}; } else { assert s - {n - 1} == s; }
    }
  }

  lemma {:induction false} SizeSame(s: set<nat>, n: nat)
    ensures SizeBelow(s, n) == SizeBelow(s - {n}, n)
  {
    SizeAgree(s, s - {n}, n);
  }

  lemma {:induction false} SizeAgree(s: set<nat>, t: set<nat>, n: nat)
    requires forall x :: 0 <= x < n ==> (x in s <==> x in t)
    ensures SizeBelow(s, n) == SizeBelow(t, n)
  {
    if n > 0 { SizeAgree(s, t, n - 1); }
  }

  ghost predicate TallyBelow(c: seq<nat>, s: set<nat>, l: seq<nat>, n: nat) {
    |c| == MAX_BITS + 1 && n <= |l| && forall b :: 0 <= b <= MAX_BITS ==> c[b] == Sum(s, HasLength(l, b), n)
  }

  lemma TallyBelowStep(c: seq<nat>, s: set<nat>, l: seq<nat>, n: nat)
    requires TallyBelow(c, s, l, n) && n < |l| && (n in s ==> l[n] <= MAX_BITS)
    ensures TallyBelow(if n in s then c[l[n] := c[l[n]] + 1] else c, s, l, n + 1)
  {
    var c' := if n in s then c[l[n] := c[l[n]] + 1] else c;
    forall b | 0 <= b <= MAX_BITS ensures c'[b] == Sum(s, HasLength(l, b), n + 1) {
      assert Sum(s, HasLength(l, b), n + 1) == Sum(s, HasLength(l, b), n) + (if n in s && l[n] == b then 1 else 0);
    }
  }

  /** The counts of the lengths of the nodes below n: they give the Kraft sum and the number of nodes. */
  lemma {:induction false} CountsOf(s: set<nat>, l: seq<nat>, max: nat, n: nat) returns (c: seq<nat>)
    requires n <= |l| && 1 <= max <= MAX_BITS && Between(s, l, 1, max)
    ensures TallyBelow(c, s, l, n)
    ensures CountKraft(c, max, max) == Sum(s, Units(l, max), n)
    ensures Total(c, max) == SizeBelow(s, n) && forall b :: 0 <= b <= MAX_BITS && (b == 0 || b > max) ==> c[b] == 0
  {
    if n == 0 {
      c := seq(MAX_BITS + 1, b => 0);
      NothingShort(c, max, max);
    } else {
      c := CountsOf(s, l, max, n - 1);
      hide CountKraft, Total;
      TallyBelowStep(c, s, l, n - 1);
      if n - 1 in s {
        AddOne(c, max, l[n - 1]);
        c := c[l[n - 1] := c[l[n - 1]] + 1];
      }
    }
  }

  /** What the statistics say about the Kraft sum and the number of leaves. */
  lemma TallyKraft(cnt: seq<nat>, s: set<nat>, l: seq<nat>, max: nat)
    requires 1 <= max <= MAX_BITS && Between(s, l, 1, max) && Tally(cnt, s, l)
    ensures CountKraft(cnt, max, max) == Kraft(s, l, max)
    ensures Total(cnt, max) == |s| && forall b :: 0 <= b <= MAX_BITS && (b == 0 || b > max) ==> cnt[b] == 0
  {
    var c := CountsOf(s, l, max, |l|);
    assert c == cnt;
    SizeIs(s, |l|);
  }
}
