/** The Kraft inequality: the lengths of any prefix-free code words are a code in
    the sense of Optimality, so its lower bounds hold for all prefix codes. */
module PrefixCodes {
  import opened Bits
  import opened Optimality

  /** No word of s begins another. */
  ghost predicate PrefixFreeWords(s: set<nat>, words: seq<seq<bool>>) {
    && (forall x :: x in s ==> x < |words|)
    && forall x, y :: x in s && y in s && x != y ==> !(words[x] <= words[y])
  }

  function Lengths(words: seq<seq<bool>>): (l: seq<nat>)
    ensures |l| == |words|
  {
    seq(|words|, i requires 0 <= i < |words| => |words[i]|)
  }

  /** The words without their first bits. */
  function Tails(words: seq<seq<bool>>): (t: seq<seq<bool>>)
    ensures |t| == |words|
  {
    seq(|words|, i requires 0 <= i < |words| => if words[i] == [] then [] else words[i][1..])
  }

  /** The words of s that begin with b. */
  function Starting(s: set<nat>, words: seq<seq<bool>>, b: bool): set<nat> {
    set x | x in s && x < |words| && words[x] != [] && words[x][0] == b
  }

  lemma {:induction false} SumUnion(s: set<nat>, a: set<nat>, b: set<nat>, f: seq<int>, n: nat)
    requires n <= |f| && s == a + b && a !! b
    ensures Sum(s, f, n) == Sum(a, f, n) + Sum(b, f, n)
  {
    if n > 0 { SumUnion(s, a, b, f, n - 1); }
  }

  lemma {:induction false} SumEmpty(f: seq<int>, n: nat)
    requires n <= |f|
    ensures Sum({}, f, n) == 0
  {
    if n > 0 { SumEmpty(f, n - 1); }
  }

  lemma EmptyBegins(a: seq<bool>, b: seq<bool>)
    ensures a == [] ==> a <= b
  {
  }

  lemma BeginsMore(b: bool, u: seq<bool>, v: seq<bool>)
    ensures u <= v ==> [b] + u <= [b] + v
  {
  }

  /** The empty word leaves no room for another. */
  lemma OnlyWord(s: set<nat>, words: seq<seq<bool>>, m: nat, x: nat)
    requires PrefixFreeWords(s, words) && x in s && words[x] == []
    ensures Kraft(s, Lengths(words), m) == Pow2(m)
  {
    forall y | y in s ensures y == x {
      EmptyBegins(words[x], words[y]);
    }
    assert s == {} + {x};
    var u := Units(Lengths(words), m);
    SumEmpty(u, |u|);
    SumAdd({}, u, |u|, x);
  }

  lemma TailsFree(s: set<nat>, words: seq<seq<bool>>, b: bool)
    requires PrefixFreeWords(s, words)
    ensures PrefixFreeWords(Starting(s, words, b), Tails(words))
  {
    var t, s' := Tails(words), Starting(s, words, b);
    forall x, y | x in s' && y in s' && x != y ensures !(t[x] <= t[y]) {
      assert words[x] == [b] + t[x] && words[y] == [b] + t[y];
      BeginsMore(b, t[x], t[y]);
    }
  }

  /** Without the first bit a word counts the same with one bit less. */
  lemma TailsUnits(s: set<nat>, words: seq<seq<bool>>, b: bool, m: nat)
    requires m > 0 && WithinBits(s, Lengths(words), m)
    ensures WithinBits(Starting(s, words, b), Lengths(Tails(words)), m - 1)
    ensures Sum(Starting(s, words, b), Units(Lengths(words), m), |words|)
      == Kraft(Starting(s, words, b), Lengths(Tails(words)), m - 1)
  {
    hide *;
    var s', l, l' := Starting(s, words, b), Lengths(words), Lengths(Tails(words));
    var u, u' := Units(l, m), Units(l', m - 1);
    forall x | x in s' ensures x < |words| && x < |l'| && l'[x] <= m - 1 && u[x] == u'[x] {
      StartingIn(s, words, b, x);
      ShorterBy1(s, words, m, x);
      UnitShift(l, l', m, x);
    }
    SumSame(s', u, u', |words|);
    KraftIs(s', l', m - 1);
    WithinIs(s', l', m - 1);
  }

  lemma KraftIs(s: set<nat>, l: seq<nat>, m: nat)
    ensures Kraft(s, l, m) == Sum(s, Units(l, m), |l|)
  {
  }

  lemma WithinIs(s: set<nat>, l: seq<nat>, m: nat)
    requires forall x :: x in s ==> x < |l| && l[x] <= m
    ensures WithinBits(s, l, m)
  {
  }

  lemma ShorterBy1(s: set<nat>, words: seq<seq<bool>>, m: nat, x: nat)
    requires WithinBits(s, Lengths(words), m) && x in s && x < |words| && words[x] != []
    ensures 0 < Lengths(words)[x] <= m && Lengths(Tails(words))[x] == Lengths(words)[x] - 1
  {
  }

  lemma UnitShift(l: seq<nat>, l': seq<nat>, m: nat, x: nat)
    requires x < |l| == |l'| && 0 < l[x] <= m && l'[x] == l[x] - 1
    ensures Units(l, m)[x] == Units(l', m - 1)[x]
  {
  }

  lemma StartingIn(s: set<nat>, words: seq<seq<bool>>, b: bool, x: nat)
    requires x in Starting(s, words, b)
    ensures x in s && x < |words| && words[x] != [] && words[x][0] == b
  {
  }

  /** The Kraft inequality. */
  lemma {:induction false} KraftInequality(s: set<nat>, words: seq<seq<bool>>, m: nat)
    requires PrefixFreeWords(s, words) && WithinBits(s, Lengths(words), m)
    ensures IsCode(s, Lengths(words), m)
    decreases m
  {
    if x :| x in s && words[x] == [] {
      OnlyWord(s, words, m, x);
    } else if s == {} {
      SumEmpty(Units(Lengths(words), m), |words|);
    } else {
      var x :| x in s;
      assert 0 < |words[x]| <= m;
      var a, b, u := Starting(s, words, false), Starting(s, words, true), Units(Lengths(words), m);
      assert s == a + b;
      SumUnion(s, a, b, u, |words|);
      TailsFree(s, words, false);
      TailsFree(s, words, true);
      TailsUnits(s, words, false, m);
      TailsUnits(s, words, true, m);
      KraftInequality(a, Tails(words), m - 1);
      KraftInequality(b, Tails(words), m - 1);
    }
  }

  function LongestWord(words: seq<seq<bool>>, n: nat): (m: nat)
    requires n <= |words|
    ensures forall i :: 0 <= i < n ==> |words[i]| <= m
  {
    if n == 0 then 0
    else
      var m := LongestWord(words, n - 1);
      if |words[n - 1]| > m then |words[n - 1]| else m
  }

  /** A lower bound for codes given by their lengths holds for all prefix-free words. */
  lemma NoWordsAreCheaper(s: set<nat>, w: seq<nat>, b: int, words: seq<seq<bool>>)
    requires LowerBound(s, w, b) && PrefixFreeWords(s, words) && |words| == |w|
    ensures Cost(s, w, Lengths(words)) >= b
  {
    hide Cost;
    KraftInequality(s, words, LongestWord(words, |words|));
  }
}
