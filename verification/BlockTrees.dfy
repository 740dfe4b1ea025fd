/** From a built tree to the code that the block sender and the decoder share. */
module BlockTrees {
  import opened Canonical
  import opened CodeLengths
  import opened TreeCoding
  import opened Optimality
  import opened RepairLengths
  import opened TreeBuilder
  import opened BuildTrees
  import opened Tokens
  import opened Tallies

  // ---- Sums of frequencies ----

  lemma {:induction false} FreqSumBump(f: seq<nat>, k: nat, n: nat)
    requires n <= |f| && k < |f|
    ensures FreqSum(f[k := f[k] + 1], n) == FreqSum(f, n) + (if k < n then 1 else 0)
  {
    if n > 0 { FreqSumBump(f, k, n - 1); }
  }

  lemma {:induction false} FreqSumZero(f: seq<nat>, n: nat)
    requires n <= |f| && forall i :: 0 <= i < n ==> f[i] == 0
    ensures FreqSum(f, n) == 0
  {
    if n > 0 { FreqSumZero(f, n - 1); }
  }

  lemma {:induction false} LitFreqSum(tb: Tables, ts: seq<Token>)
    requires TablesOk(tb) && TokensOk(ts)
    ensures FreqSum(LitFreq(tb, ts), 286) == |ts| + 1
    decreases |ts|
  {
    hide TablesOk, LitSym, DistSym;
    if ts == [] {
      var z: seq<nat> := seq(286, i => 0);
      assert LitFreq(tb, ts) == z[END_BLOCK := z[END_BLOCK] + 1];
      FreqSumZero(z, 286);
      FreqSumBump(z, END_BLOCK, 286);
    } else {
      var a, t := ts[..|ts| - 1], ts[|ts| - 1];
      assert ts == a + [t];
      LitFreqSum(tb, a);
      LitFreqPush(tb, a, t);
      FreqSumBump(LitFreq(tb, a), LitSym(tb, t), 286);
    }
  }

  lemma {:induction false} DistFreqSum(tb: Tables, ts: seq<Token>)
    requires TablesOk(tb) && TokensOk(ts)
    ensures FreqSum(DistFreq(tb, ts), 30) <= |ts|
    decreases |ts|
  {
    hide TablesOk, LitSym, DistSym;
    if ts == [] {
      FreqSumZero(DistFreq(tb, ts), 30);
    } else {
      var a, t := ts[..|ts| - 1], ts[|ts| - 1];
      assert ts == a + [t];
      DistFreqSum(tb, a);
      DistFreqPush(tb, a, t);
      if t.Match? { FreqSumBump(DistFreq(tb, a), DistSym(tb, t), 30); }
    }
  }

  function ItemFreq(items: seq<Item>): (f: seq<nat>)
    ensures |f| == 19
  {
    seq(19, x requires 0 <= x < 19 => ItemCount(items, x))
  }

  lemma ItemFreqPush(a: seq<Item>, t: Item)
    requires t.sym < 19
    ensures ItemFreq(a + [t]) == ItemFreq(a)[t.sym := ItemFreq(a)[t.sym] + 1]
  {
    assert (a + [t])[..|a|] == a;
  }

  lemma {:induction false} ItemFreqSum(items: seq<Item>)
    requires ItemsOk(items)
    ensures FreqSum(ItemFreq(items), 19) == |items|
    decreases |items|
  {
    if items == [] {
      FreqSumZero(ItemFreq(items), 19);
    } else {
      var a, t := items[..|items| - 1], items[|items| - 1];
      assert items == a + [t];
      assert ItemOk(t);
      ItemFreqSum(a);
      ItemFreqPush(a, t);
      FreqSumBump(ItemFreq(a), t.sym, 19);
    }
  }

  // ---- What occurs has a code ----

  lemma {:induction false} LitOccurs(tb: Tables, ts: seq<Token>, i: nat)
    requires TablesOk(tb) && i < |ts|
    ensures LitCount(tb, ts, LitSym(tb, ts[i])) > 0
    decreases |ts|
  {
    if i < |ts| - 1 { LitOccurs(tb, ts[..|ts| - 1], i); }
  }

  lemma {:induction false} DistOccurs(tb: Tables, ts: seq<Token>, i: nat)
    requires TablesOk(tb) && TokensOk(ts) && i < |ts| && ts[i].Match?
    ensures DistCount(tb, ts, DistSym(tb, ts[i])) > 0
    decreases |ts|
  {
    if i < |ts| - 1 { DistOccurs(tb, ts[..|ts| - 1], i); }
  }

  lemma {:induction false} ItemOccurs(items: seq<Item>, i: nat)
    requires i < |items|
    ensures ItemCount(items, items[i].sym) > 0
    decreases |items|
  {
    if i < |items| - 1 { ItemOccurs(items[..|items| - 1], i); }
  }

  /** Every symbol of frequency f > 0 has a code in lens. */
  ghost predicate Covers(lens: seq<nat>, f: seq<nat>) {
    forall x :: 0 <= x < |f| && f[x] > 0 ==> x < |lens| && lens[x] > 0
  }

  lemma TokensCoded(tb: Tables, ll: seq<nat>, dl: seq<nat>, ts: seq<Token>)
    requires TablesOk(tb) && TokensOk(ts) && Covers(ll, LitFreq(tb, ts)) && Covers(dl, DistFreq(tb, ts))
    ensures AllCoded(tb, ll, dl, ts) && END_BLOCK < |ll| && ll[END_BLOCK] > 0
  {
    hide TablesOk, LitSym, DistSym;
    forall i | 0 <= i < |ts|
      ensures Coded(tb, ll, dl, ts[i])
    {
      assert TokenOk(ts[i]);
      SymBounds(tb, ts[i]);
      LitOccurs(tb, ts, i);
      assert LitFreq(tb, ts)[LitSym(tb, ts[i])] > 0;
      if ts[i].Match? {
        DistOccurs(tb, ts, i);
        assert DistFreq(tb, ts)[DistSym(tb, ts[i])] > 0;
      }
    }
    assert LitFreq(tb, ts)[END_BLOCK] > 0;
  }

  lemma ItemsSendable(bl: seq<nat>, items: seq<Item>, f: seq<nat>)
    requires |bl| == 19 <= |f| && ItemsOk(items) && Covers(bl, f) && forall x :: 0 <= x < 19 ==>
      f[x] >= ItemCount(items, x)
    ensures Sendable(bl, items)
  {
    forall i | 0 <= i < |items| ensures items[i].sym < 19 && bl[items[i].sym] > 0 {
      assert ItemOk(items[i]);
      ItemOccurs(items, i);
    }
  }

  // ---- Padding with unused symbols ----

  lemma {:induction false} CountPad(lens: seq<nat>, m: nat, l: nat, n: nat)
    requires m <= n <= |lens| && l > 0 && forall i :: m <= i < |lens| ==> lens[i] == 0
    ensures CountIn(lens, l, n) == CountIn(lens[..m], l, m)
  {
    if n > m {
      CountPad(lens, m, l, n - 1);
    } else {
      CountSame(lens, lens[..m], l, m);
    }
  }

  lemma {:induction false} CountSame(a: seq<nat>, b: seq<nat>, l: nat, n: nat)
    requires n <= |a| && n <= |b| && forall i :: 0 <= i < n ==> a[i] == b[i]
    ensures CountIn(a, l, n) == CountIn(b, l, n)
  {
    if n > 0 { CountSame(a, b, l, n - 1); }
  }

  lemma {:induction false} PadFirst(lens: seq<nat>, m: nat, l: nat)
    requires m <= |lens| && forall i :: m <= i < |lens| ==> lens[i] == 0
    ensures Count(lens, l) == Count(lens[..m], l)
    ensures FirstCode(lens, l) == FirstCode(lens[..m], l) && Left(lens, l) == Left(lens[..m], l)
  {
    if l > 0 {
      PadFirst(lens, m, l - 1);
      CountPad(lens, m, l, |lens|);
    }
  }

  /** Symbols without a code at the end change nothing. */
  lemma Padded(lens: seq<nat>, m: nat)
    requires m <= |lens| && (forall i :: m <= i < |lens| ==> lens[i] == 0) && Complete(lens[..m])
    ensures Complete(lens)
    ensures forall x :: 0 <= x < m && lens[x] > 0 ==> RevCode(lens, x) == RevCode(lens[..m], x)
  {
    PadFirst(lens, m, MAXBITS);
    forall i | 0 <= i < |lens| ensures lens[i] <= MAXBITS { if i < m { assert lens[..m][i] == lens[i]; } }
    forall x | 0 <= x < m && lens[x] > 0 ensures RevCode(lens, x) == RevCode(lens[..m], x) {
      PadFirst(lens, m, lens[x]);
      CountSame(lens, lens[..m], lens[x], x);
    }
  }

  // ---- The result of build_tree ----

  /** lens is a complete code for the symbols that occur, and fc and dl hold it. */
  ghost predicate CodeFor(f: seq<nat>, fc: seq<nat>, dl: seq<nat>, lens: seq<nat>, max: nat) {
    && 2 <= |lens| <= |f| && |lens| <= |dl| && dl[..|lens|] == lens
    && Complete(lens) && Bounded(lens, max) && CodesOf(fc, dl, lens) && Covers(lens, f)
  }

  /** lens, and no code for the symbols that follow. */
  function Filled(lens: seq<nat>, n: nat): (l: seq<nat>)
    requires |lens| <= n
    ensures |l| == n
  {
    lens + seq(n - |lens|, i => 0)
  }

  /** lens is what build_tree may make of the frequencies f: a complete code of the symbols that
      occur, or are forced, with shorter lengths for those that are more frequent; and of least
      cost, unless the frequencies are large enough for a tree higher than max. */
  ghost predicate TreeCode(f: seq<nat>, lens: seq<nat>, max: nat) {
    |lens| <= |f|
    && exists w, leaves, forced :: TreeLengths(f, w, leaves, forced, Filled(lens, |f|), max)
  }

  ghost predicate TreeLengths(f: seq<nat>, w: seq<nat>, leaves: set<nat>, forced: set<nat>, l: seq<nat>, max: nat) {
    && Forced(f, w, leaves, forced) && |l| == |f| && Complete(l) && Monotone(leaves, w, l)
    && (forall x :: 0 <= x < |l| ==> l[x] <= max && (l[x] > 0 <==> x in leaves))
    && (Sum(leaves, w, |w|) < Fib(max + 3) ==> LowerBound(leaves, w, Cost(leaves, w, l)))
  }

  lemma ResultTree(f: seq<nat>, w: seq<nat>, leaves: set<nat>, forced: set<nat>, fc: seq<nat>, dl: seq<nat>, n: nat,
                   maxCode: int, max: nat, overflow: nat)
    requires |f| == n <= |fc| == |dl|
    requires TreeResult(f, w, leaves, forced, dl[..n], fc[..n], maxCode, max, overflow)
    requires Sum(leaves, w, |w|) < Fib(max + 3) ==> overflow == 0
    ensures 0 <= maxCode < n && TreeCode(f, dl[..maxCode + 1], max) && dl[maxCode] > 0
  {
    hide RevCode, Complete, LowerBound, Cost, Sum, Fib, Forced, Monotone;
    var l, lens := dl[..n], dl[..maxCode + 1];
    assert l[..maxCode + 1] == lens;
    assert forall x :: maxCode < x < n ==> x !in leaves;
    Padded(l, maxCode + 1);
    SameFilled(l, lens);
    assert l[maxCode] == dl[maxCode];
    assert TreeLengths(f, w, leaves, forced, Filled(lens, |f|), max);
  }

  lemma SameFilled(l: seq<nat>, lens: seq<nat>)
    requires lens <= l && forall x :: |lens| <= x < |l| ==> l[x] == 0
    ensures Filled(lens, |l|) == l
  {
  }

  /** Zeros at the end are no different. */
  lemma TreeCodeFilled(f: seq<nat>, lens: seq<nat>, l: seq<nat>, max: nat)
    requires TreeCode(f, lens, max) && lens <= l && |l| == |f| && forall x :: |lens| <= x < |l| ==> l[x] == 0
    ensures TreeCode(f, l, max)
  {
    hide TreeLengths;
    SameFilled(l, lens);
    SameFilled(l, l);
  }

  lemma ResultCode(f: seq<nat>, w: seq<nat>, leaves: set<nat>, forced: set<nat>, fc: seq<nat>, dl: seq<nat>, n: nat,
                   maxCode: int, max: nat, overflow: nat)
    requires |f| == n <= |fc| == |dl|
    requires TreeResult(f, w, leaves, forced, dl[..n], fc[..n], maxCode, max, overflow)
    ensures 1 <= maxCode < n && CodeFor(f, fc, dl, dl[..maxCode + 1], max)
    ensures forall x :: maxCode < x < n ==> dl[x] == 0
  {
    hide RevCode, Complete;
    var lens: seq<nat> := dl[..n][..maxCode + 1];
    assert lens == dl[..maxCode + 1];
    LeavesTwo(leaves, maxCode);
    assert Bounded(lens, max);
    assert Complete(lens);
    assert Bounded(lens, MAXBITS);
    forall x | 0 <= x < |lens| && x < |fc|
      ensures dl[x] == lens[x] && (lens[x] > 0 ==> fc[x] == RevCode(lens, x))
    {
      assert dl[..n][x] == dl[x] && fc[..n][x] == fc[x];
    }
    forall x | maxCode < x < n ensures dl[x] == 0 { assert dl[..n][x] == dl[x]; }
  }

  lemma LeavesTwo(leaves: set<nat>, m: int)
    requires |leaves| >= 2 && IsMax(leaves, m)
    ensures m >= 1
  {
    if m < 1 {
      assert leaves <= {0};
      SubsetOne(leaves);
    }
  }

  lemma SubsetOne(s: set<nat>)
    requires s <= {0}
    ensures |s| <= 1
  {
    if 0 in s {
      assert s == {0};
    } else {
      assert s == {};
    }
  }
}
