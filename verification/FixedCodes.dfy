/** The fixed codes (deps/libz/trees.c: tr_static_init; deps/libz/inflate.c:
    fixedtables; section 3.2.6 of RFC 1951). */
module FixedCodes {
  import opened Bits
  import opened Canonical

  function FixedLen(n: nat): nat {
    if n <= 143 then 8 else if n <= 255 then 9 else if n <= 279 then 7 else 8
  }

  /** Lengths of the literal and length code, with two symbols that never occur. */
  function FixedLens(): (l: seq<nat>)
    ensures |l| == 288
  {
    seq(288, n requires 0 <= n < 288 => FixedLen(n))
  }

  function FixedDistLens(): (l: seq<nat>)
    ensures |l| == 32
  {
    seq(32, n => 5)
  }

  /** How many of the symbols below n have length l. */
  function FixedCount(l: nat, n: nat): nat
    requires n <= 288
  {
    if l == 8 then (if n <= 144 then n else if n <= 280 then 144 else n - 136)
    else if l == 9 then (if n <= 144 then 0 else if n <= 256 then n - 144 else 112)
    else if l == 7 then (if n <= 256 then 0 else if n <= 280 then n - 256 else 24)
    else 0
  }

  lemma {:induction false} CountFixed(l: nat, n: nat)
    requires n <= 288
    ensures CountIn(FixedLens(), l, n) == FixedCount(l, n)
  {
    if n > 0 { CountFixed(l, n - 1); }
  }

  lemma FixedCounts()
    ensures forall l :: l != 7 && l != 8 && l != 9 ==> Count(FixedLens(), l) == 0
    ensures Count(FixedLens(), 7) == 24 && Count(FixedLens(), 8) == 152 && Count(FixedLens(), 9) == 112
  {
    forall l: nat ensures Count(FixedLens(), l) == if l == 0 then 0 else FixedCount(l, 288) { CountFixed(l, 288); }
  }

  lemma {:induction false} LeftGrows(lens: seq<nat>, l: nat)
    requires forall k :: 1 <= k <= l ==> Count(lens, k) == 0
    ensures Left(lens, l) == Pow2(l)
  {
    if l > 0 { LeftGrows(lens, l - 1); }
  }

  lemma Sixty4()
    ensures Pow2(6) == 64
  {
  }

  /** The fixed literal code uses up all bit strings. */
  lemma FixedComplete()
    ensures Complete(FixedLens()) && Fits(FixedLens())
  {
    hide Count, Pow2, CountIn;
    var lens := FixedLens();
    FixedCounts();
    LeftGrows(lens, 6);
    Sixty4();
    assert Left(lens, 7) == 2 * Left(lens, 6) - 24 == 104;
    assert Left(lens, 8) == 2 * Left(lens, 7) - 152 == 56;
    assert Left(lens, 9) == 2 * Left(lens, 8) - 112 == 0;
    assert Bounded(lens, 9);
    NoneLonger(lens, 9, MAXBITS);
  }

  lemma {:induction false} CountFive(l: nat, n: nat)
    requires n <= 32
    ensures CountIn(FixedDistLens(), l, n) == if l == 5 then n else 0
  {
    if n > 0 { CountFive(l, n - 1); }
  }

  /** The code of distance symbol n is n itself. */
  lemma FixedDistComplete()
    ensures Complete(FixedDistLens()) && Fits(FixedDistLens())
    ensures forall n :: 0 <= n < 32 ==> Code(FixedDistLens(), n) == n
  {
    var lens := FixedDistLens();
    forall l: nat, n: nat | n <= 32 ensures CountIn(lens, l, n) == if l == 5 then n else 0 { CountFive(l, n); }
    LeftGrows(lens, 4);
    FirstZeros(lens, 5);
    assert Pow2(4) == 16;
    hide Pow2, CountIn, FirstCode;
    assert Left(lens, 5) == 2 * Left(lens, 4) - 32 == 0;
    NoneLonger(lens, 5, MAXBITS);
  }

  lemma {:induction false} FirstZeros(lens: seq<nat>, l: nat)
    requires forall k :: 1 <= k < l ==> Count(lens, k) == 0
    ensures FirstCode(lens, l) == 0
  {
    if l > 0 {
      FirstZeros(lens, l - 1);
      if l == 1 { assert Count(lens, 0) == 0; }
    }
  }
}
