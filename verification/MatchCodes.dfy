/** Length and distance codes (deps/libz/trees.c: tr_static_init,
    deps/libz/deflate.h: d_code; section 3.2.5 of RFC 1951). */
module MatchCodes {
  import opened Bits
  import opened DecodeTable

  /** extra_lbits */
  function ExtraL(c: nat): nat { if c < 8 || c >= 28 then 0 else c / 4 - 1 }

  /** extra_dbits */
  function ExtraD(c: nat): nat { if c < 4 then 0 else c / 2 - 1 }

  /** The first length - 3 of length code c. */
  function BaseLength(c: nat): nat {
    if c == 0 then 0 else BaseLength(c - 1) + Pow2(ExtraL(c - 1))
  }

  /** The first distance - 1 of distance code c. */
  function BaseDist(c: nat): nat {
    if c == 0 then 0 else BaseDist(c - 1) + Pow2(ExtraD(c - 1))
  }

  lemma LengthEnds()
    ensures BaseLength(28) == 256
  {
    assert BaseLength(8) == 8;
    assert BaseLength(12) == 16;
    assert BaseLength(16) == 32;
    assert BaseLength(20) == 64;
    assert BaseLength(24) == 128;
    assert BaseLength(28) == 256;
  }

  lemma {:induction false} EvenDist(k: nat)
    requires k >= 2
    ensures BaseDist(2 * k) == Pow2(k)
  {
    if k == 2 {
      assert BaseDist(4) == 4 == Pow2(2);
    } else {
      EvenDist(k - 1);
      assert ExtraD(2 * k - 1) == k - 2 == ExtraD(2 * k - 2);
      assert BaseDist(2 * k - 1) == BaseDist(2 * k - 2) + Pow2(k - 2);
      assert BaseDist(2 * k) == BaseDist(2 * k - 1) + Pow2(k - 2);
      assert Pow2(k - 1) == 2 * Pow2(k - 2);
    }
  }

  lemma DistEnds()
    ensures BaseDist(16) == 256 && BaseDist(30) == 32768
  {
    hide BaseDist, Pow2;
    EvenDist(8);
    EvenDist(15);
    Pow2Values();
  }

  // ---- The tables ----

  ghost predicate LengthIn(c: nat, lc: nat) { BaseLength(c) <= lc < BaseLength(c) + Pow2(ExtraL(c)) }

  ghost predicate DistIn(c: nat, d: nat) { BaseDist(c) <= d < BaseDist(c) + Pow2(ExtraD(c)) }

  /** d_code: d is the distance - 1. */
  function DCode(distCode: seq<nat>, d: nat): nat
    requires |distCode| == 512 && d < 32768
  {
    if d < 256 then distCode[d] else distCode[256 + d / 128]
  }

  /** The tables of length codes: length 258 has a code of its own. */
  ghost predicate LengthTables(baseLength: seq<nat>, lengthCode: seq<nat>) {
    && |baseLength| == 29 && |lengthCode| == 256
    && (forall c :: 0 <= c < 28 ==> baseLength[c] == BaseLength(c))
    && (forall lc :: 0 <= lc < 255 ==> lengthCode[lc] < 28 && LengthIn(lengthCode[lc], lc))
    && lengthCode[255] == 28
  }

  ghost predicate DistTables(baseDist: seq<nat>, distCode: seq<nat>) {
    && |baseDist| == 30 && |distCode| == 512
    && (forall c :: 0 <= c < 30 ==> baseDist[c] == BaseDist(c))
    && forall d :: 0 <= d < 32768 ==> DCode(distCode, d) < 30 && DistIn(DCode(distCode, d), d)
  }

  method InitLengthTables(baseLength: array<nat>, lengthCode: array<nat>)
    requires baseLength.Length == 29 && lengthCode.Length == 256 && baseLength != lengthCode
    modifies baseLength, lengthCode
    ensures LengthTables(baseLength[..], lengthCode[..])
  {
    hide BaseLength;
    LengthFacts();
    var length: nat := 0;
    for codes := 0 to 28
      invariant length == BaseLength(codes) <= 256
      invariant forall c :: 0 <= c < codes ==> baseLength[c] == BaseLength(c)
      invariant forall lc :: 0 <= lc < length ==> lengthCode[lc] < codes && LengthIn(lengthCode[lc], lc)
    {
      LengthUpTo(codes);
      baseLength[codes] := length;
      var n: nat := 0;
      while n < Pow2(ExtraL(codes))
        invariant n <= Pow2(ExtraL(codes)) && length == BaseLength(codes) + n
        invariant forall c :: 0 <= c <= codes ==> baseLength[c] == BaseLength(c)
        invariant forall lc :: 0 <= lc < length ==> lengthCode[lc] <= codes && LengthIn(lengthCode[lc], lc)
        decreases Pow2(ExtraL(codes)) - n
      {
        lengthCode[length] := codes;
        length := length + 1;
        n := n + 1;
      }
    }
    lengthCode[length - 1] := 28;
  }

  lemma LengthFacts()
    ensures BaseLength(0) == 0 && BaseLength(28) == 256
  {
    LengthEnds();
  }

  lemma {:induction false} LengthUpTo(c: nat)
    requires c < 28
    ensures BaseLength(c + 1) == BaseLength(c) + Pow2(ExtraL(c)) <= 256
    decreases 28 - c
  {
    if c < 27 { LengthUpTo(c + 1); } else { LengthEnds(); }
  }

  lemma {:induction false} DistUpTo(c: nat)
    requires c < 30
    ensures BaseDist(c + 1) == BaseDist(c) + Pow2(ExtraD(c)) <= 32768
    decreases 30 - c
  {
    BaseDistStep(c);
    hide BaseDist, Pow2, ExtraD;
    if c < 29 { DistUpTo(c + 1); } else { DistEnds(); }
  }

  lemma BaseDistStep(c: nat)
    ensures BaseDist(c + 1) == BaseDist(c) + Pow2(ExtraD(c))
  {
    hide Pow2, ExtraD;
  }

  /** From code 16 on, all bounds are multiples of 128. */
  function BaseHigh(c: nat): nat
    requires c >= 16
  {
    if c == 16 then 2 else BaseHigh(c - 1) + Pow2(ExtraD(c - 1) - 7)
  }

  lemma {:induction false} HighIsDist(c: nat)
    requires 16 <= c <= 30
    ensures BaseDist(c) == 128 * BaseHigh(c)
  {
    if c == 16 {
      DistEnds();
    } else {
      HighIsDist(c - 1);
      HighStep(ExtraD(c - 1));
    }
  }

  lemma HighStep(e: nat)
    requires e >= 7
    ensures Pow2(e) == 128 * Pow2(e - 7)
  {
    assert Pow2(e) == 2 * Pow2(e - 1) == 4 * Pow2(e - 2) == 8 * Pow2(e - 3);
    assert Pow2(e - 3) == 2 * Pow2(e - 4) == 4 * Pow2(e - 5) == 8 * Pow2(e - 6) == 16 * Pow2(e - 7);
  }

  lemma HighIn(c: nat, d: nat)
    requires 16 <= c < 30 && BaseHigh(c) <= d / 128 < BaseHigh(c) + Pow2(ExtraD(c) - 7)
    ensures DistIn(c, d)
  {
    HighIsDist(c);
    HighStep(ExtraD(c));
  }

  lemma HighEnds()
    ensures BaseHigh(16) == 2 && BaseHigh(30) == 256
  {
    HighIsDist(30);
    DistEnds();
  }

  lemma {:induction false} HighUpTo(c: nat)
    requires 16 <= c < 30
    ensures ExtraD(c) >= 7 && BaseHigh(c + 1) == BaseHigh(c) + Pow2(ExtraD(c) - 7) <= 256
    decreases 30 - c
  {
    if c < 29 { HighUpTo(c + 1); } else { HighEnds(); }
  }

  /** The low half: distances up to 256. */
  ghost predicate LowDists(distCode: seq<nat>, n: nat, codes: nat) {
    |distCode| == 512 && n <= 256 && forall d :: 0 <= d < n ==> distCode[d] < codes && DistIn(distCode[d], d)
  }

  ghost predicate HighDists(distCode: seq<nat>, n: nat, codes: nat) {
    && |distCode| == 512 && n <= 256
    && forall q :: 2 <= q < n ==> HighDist(distCode, q, codes)
  }

  ghost predicate HighDist(distCode: seq<nat>, q: nat, codes: nat)
    requires |distCode| == 512 && q < 256
  {
    var c := distCode[256 + q];
    16 <= c < codes && BaseHigh(c) <= q < BaseHigh(c) + Pow2(ExtraD(c) - 7)
  }

  method InitLowDists(baseDist: array<nat>, distCode: array<nat>)
    requires baseDist.Length == 30 && distCode.Length == 512 && baseDist != distCode
    modifies baseDist, distCode
    ensures LowDists(distCode[..], 256, 16) && forall c :: 0 <= c < 16 ==> baseDist[c] == BaseDist(c)
  {
    hide BaseDist;
    DistFacts();
    var dist: nat := 0;
    for codes := 0 to 16
      invariant dist == BaseDist(codes) <= 256 && LowDists(distCode[..], dist, codes)
      invariant forall c :: 0 <= c < codes ==> baseDist[c] == BaseDist(c)
    {
      DistUpTo(codes);
      LowDistUpTo(codes);
      baseDist[codes] := dist;
      var n: nat := 0;
      while n < Pow2(ExtraD(codes))
        invariant n <= Pow2(ExtraD(codes)) && dist == BaseDist(codes) + n && LowDists(distCode[..], dist, codes + 1)
        invariant forall c :: 0 <= c <= codes ==> baseDist[c] == BaseDist(c)
        decreases Pow2(ExtraD(codes)) - n
      {
        distCode[dist] := codes;
        dist := dist + 1;
        n := n + 1;
      }
    }
  }

  lemma DistFacts()
    ensures BaseDist(0) == 0 && BaseDist(16) == 256
  {
    DistEnds();
  }

  lemma {:induction false} LowDistUpTo(c: nat)
    requires c < 16
    ensures BaseDist(c) + Pow2(ExtraD(c)) <= 256
    decreases 16 - c
  {
    DistUpTo(c);
    if c < 15 { LowDistUpTo(c + 1); } else { DistEnds(); }
  }

  lemma HighNone(distCode: seq<nat>)
    requires |distCode| == 512
    ensures HighDists(distCode, 2, 16)
  {
  }

  lemma HighWiden(distCode: seq<nat>, n: nat, codes: nat)
    requires HighDists(distCode, n, codes)
    ensures HighDists(distCode, n, codes + 1)
  {
    var next := codes + 1;
    forall q | 2 <= q < n ensures HighDist(distCode, q, next) { assert HighDist(distCode, q, codes); }
  }

  lemma HighPush(distCode: seq<nat>, n: nat, codes: nat)
    requires HighDists(distCode, n, codes + 1) && 16 <= codes < 30 && n < 256
    requires BaseHigh(codes) <= n < BaseHigh(codes) + Pow2(ExtraD(codes) - 7)
    ensures HighDists(distCode[256 + n := codes], n + 1, codes + 1)
  {
    hide BaseHigh, Pow2, ExtraD;
    var t: seq<nat>, next := distCode[256 + n := codes], codes + 1;
    forall q | 2 <= q < n + 1
      ensures HighDist(t, q, next)
    {
      if q < n { assert HighDist(distCode, q, next); }
    }
  }

  lemma LowKept(distCode: seq<nat>, k: nat, c: nat)
    requires LowDists(distCode, 256, 16) && 256 <= k < 512
    ensures LowDists(distCode[k := c], 256, 16)
  {
  }

  /** From here on, distances are divided by 128. */
  method InitHighDists(baseDist: array<nat>, distCode: array<nat>)
    requires baseDist.Length == 30 && distCode.Length == 512 && baseDist != distCode
    requires LowDists(distCode[..], 256, 16) && forall c :: 0 <= c < 16 ==> baseDist[c] == BaseDist(c)
    modifies baseDist, distCode
    ensures LowDists(distCode[..], 256, 16) && HighDists(distCode[..], 256, 30)
    ensures forall c :: 0 <= c < 30 ==> baseDist[c] == BaseDist(c)
  {
    hide BaseDist, BaseHigh, DistIn, ExtraD, Pow2, HighDists, LowDists;
    HighEnds();
    HighNone(distCode[..]);
    var dist: nat := 2;
    for codes := 16 to 30
      invariant dist == BaseHigh(codes) <= 256 && HighDists(distCode[..], dist, codes)
      invariant LowDists(distCode[..], 256, 16)
      invariant forall c :: 0 <= c < codes ==> baseDist[c] == BaseDist(c)
    {
      HighUpTo(codes);
      HighIsDist(codes);
      HighWiden(distCode[..], dist, codes);
      baseDist[codes] := 128 * dist;
      var n: nat := 0;
      while n < Pow2(ExtraD(codes) - 7)
        invariant n <= Pow2(ExtraD(codes) - 7) && dist == BaseHigh(codes) + n
        invariant HighDists(distCode[..], dist, codes + 1)
        invariant LowDists(distCode[..], 256, 16)
        invariant forall c :: 0 <= c <= codes ==> baseDist[c] == BaseDist(c)
        decreases Pow2(ExtraD(codes) - 7) - n
      {
        HighPush(distCode[..], dist, codes);
        LowKept(distCode[..], 256 + dist, codes);
        ghost var t: seq<nat> := distCode[..];
        distCode[256 + dist] := codes;
        assert distCode[..] == t[256 + dist := codes];
        dist := dist + 1;
        n := n + 1;
      }
    }
  }

  lemma DistTablesFrom(baseDist: seq<nat>, distCode: seq<nat>)
    requires |baseDist| == 30 && (forall c :: 0 <= c < 30 ==> baseDist[c] == BaseDist(c))
    requires LowDists(distCode, 256, 16) && HighDists(distCode, 256, 30)
    ensures DistTables(baseDist, distCode)
  {
    hide BaseDist, BaseHigh, DistIn;
    forall d | 0 <= d < 32768
      ensures DCode(distCode, d) < 30 && DistIn(DCode(distCode, d), d)
    {
      if d >= 256 {
        assert HighDist(distCode, d / 128, 30);
        HighIn(distCode[256 + d / 128], d);
      }
    }
  }

  // ---- The decoder's tables say the same ----

  lemma LengthEntry(c: nat)
    requires c < 29
    ensures EntryOp(LENS, 257 + c) == 16 + ExtraL(c)
    ensures EntryVal(LENS, 257 + c) == if c == 28 then 258 else BaseLength(c) + 3
  {
    hide BaseLength, Pow2, ExtraL, LBASE, LEXT;
    LengthOp(c);
    LengthLast();
    if c < 28 { LengthVal(c); }
  }

  lemma LengthLast()
    ensures LBASE[28] == 258
  {
  }

  lemma LengthOp(c: nat)
    requires c < 29
    ensures LEXT[c] == 16 + ExtraL(c)
  {
    hide BaseLength, Pow2;
  }

  lemma LengthStep(c: nat)
    requires c < 27
    ensures LBASE[c + 1] == LBASE[c] + Pow2(ExtraL(c))
  {
    hide Pow2;
    SmallPowers();
    if c < 14 { LengthStepLow(c); } else { LengthStepHigh(c); }
  }

  lemma SmallPowers()
    ensures Pow2(0) == 1 && Pow2(1) == 2 && Pow2(2) == 4 && Pow2(3) == 8 && Pow2(4) == 16 && Pow2(5) == 32
  {
  }

  lemma LengthStepLow(c: nat)
    requires c < 14
    ensures LBASE[c + 1] == LBASE[c] + if c < 8 then 1 else if c < 12 then 2 else 4
  {
  }

  lemma LengthStepHigh(c: nat)
    requires 14 <= c < 27
    ensures LBASE[c + 1] == LBASE[c] + if c < 16 then 4 else if c < 20 then 8 else if c < 24 then 16 else 32
  {
  }

  lemma {:induction false} LengthVal(c: nat)
    requires c < 28
    ensures LBASE[c] == BaseLength(c) + 3
  {
    if c > 0 {
      LengthVal(c - 1);
      LengthStep(c - 1);
    }
  }

  lemma DistEntry(c: nat)
    requires c < 30
    ensures EntryOp(DISTS, c) == 16 + ExtraD(c) && EntryVal(DISTS, c) == BaseDist(c) + 1
  {
    hide BaseDist, Pow2, ExtraD, DBASE, DEXT;
    DistOp(c);
    DistVal(c);
  }

  lemma DistOp(c: nat)
    requires c < 30
    ensures DEXT[c] == 16 + ExtraD(c)
  {
    hide BaseDist, Pow2;
  }

  lemma DistBaseStep(c: nat)
    requires c < 29
    ensures DBASE[c + 1] == DBASE[c] + Pow2(ExtraD(c))
  {
    hide Pow2, DBASE;
    if c < 14 { DistStepLow(c); } else { DistStepHigh(c); }
  }

  lemma DistStepLow(c: nat)
    requires c < 14
    ensures DBASE[c + 1] == DBASE[c] + Pow2(ExtraD(c))
  {
    assert Pow2(0) == 1 && Pow2(1) == 2 && Pow2(2) == 4 && Pow2(3) == 8 && Pow2(4) == 16 && Pow2(5) == 32;
  }

  lemma DistStepHigh(c: nat)
    requires 14 <= c < 29
    ensures DBASE[c + 1] == DBASE[c] + Pow2(ExtraD(c))
  {
    hide Pow2;
    MorePowers();
  }

  lemma MorePowers()
    ensures Pow2(6) == 64 && Pow2(7) == 128 && Pow2(8) == 256 && Pow2(9) == 512 && Pow2(10) == 1024 && Pow2(11) == 2048
    ensures Pow2(12) == 4096 && Pow2(13) == 8192
  {
    assert Pow2(6) == 64;
    assert Pow2(10) == 1024;
  }

  lemma {:induction false} DistVal(c: nat)
    requires c < 30
    ensures DBASE[c] == BaseDist(c) + 1
  {
    if c > 0 {
      DistVal(c - 1);
      DistBaseStep(c - 1);
    }
  }
}
