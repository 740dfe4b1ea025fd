/** gen_codes and bi_reverse (deps/libz/trees.c): the encoder's codes are the
    canonical ones, reversed. */
module Codes {
  import opened Bits
  import opened Canonical

  method BiReverse(code: nat, len: nat) returns (r: nat)
    requires 1 <= len <= MAXBITS && code < Pow2(len)
    ensures r == Rev(code, len)
  {
    var res, c, left := 0, code, len;
    ghost var k := 0;
    while true
      invariant k + left == len && left >= 1 && res == 2 * Rev(code, k) && c == Shr(code, k)
      decreases left
    {
      hide Pow2, Shr, Rev;
      RevStep(code, k, c);
      OrIsPlus(Rev(code, k), c % 2, 1);
      res := Or(res, c % 2);
      c := c / 2;
      res := 2 * res;
      k := k + 1;
      left := left - 1;
      if left == 0 { break; }
    }
    r := res / 2;
  }

  lemma RevStep(c: nat, k: nat, s: nat)
    requires s == Shr(c, k)
    ensures Rev(c, k + 1) == 2 * Rev(c, k) + s % 2 && s / 2 == Shr(c, k + 1)
    ensures Shl(Rev(c, k), 1) == 2 * Rev(c, k) && Pow2(1) == 2
  {
    RevSplit(c, k, 1);
    ShrShr(c, k, 1);
  }

  /** bl_count gives the number of codes of every length. */
  ghost predicate Counts(cnt: seq<nat>, lens: seq<nat>) {
    |cnt| == MAXBITS + 1 && forall b :: 0 <= b <= MAXBITS ==> cnt[b] == Count(lens, b)
  }

  lemma CodesFit(lens: seq<nat>, l: nat)
    requires Fits(lens) && 1 <= l <= MAXBITS
    ensures FirstCode(lens, l) == 2 * (FirstCode(lens, l - 1) + Count(lens, l - 1))
    ensures FirstCode(lens, l) + Count(lens, l) <= 32768
  {
    LeftIsFree(lens, l);
    LeftSign(lens, l, MAXBITS);
    hide FirstCode, Left;
    Pow2Monotone(l, MAXBITS);
    Pow2Values();
  }

  /** next_code[l] is the first code of length l not yet given away. */
  ghost predicate NextCodes(next: seq<nat>, lens: seq<nat>, n: nat) {
    && |next| == MAXBITS + 1 && n <= |lens|
    && forall l :: 1 <= l <= MAXBITS ==> next[l] == FirstCode(lens, l) + CountIn(lens, l, n)
  }

  lemma NextStep(next: seq<nat>, lens: seq<nat>, n: nat)
    requires NextCodes(next, lens, n) && n < |lens| && Fits(lens)
    ensures lens[n] == 0 ==> NextCodes(next, lens, n + 1)
    ensures lens[n] > 0 ==>
      lens[n] <= MAXBITS && next[lens[n]] == Code(lens, n) < 32768 && Code(lens, n) < Pow2(lens[n])
    ensures lens[n] > 0 ==> NextCodes(next[lens[n] := next[lens[n]] + 1], lens, n + 1)
  {
    hide FirstCode, Pow2, Left;
    if lens[n] > 0 {
      CodeFits(lens, n);
      CodesFit(lens, lens[n]);
    }
  }

  method FirstCodes(ghost lens: seq<nat>, blCount: array<nat>, nextCode: array<nat>)
    requires Fits(lens) && Counts(blCount[..], lens) && nextCode.Length == MAXBITS + 1 && nextCode != blCount
    modifies nextCode
    ensures NextCodes(nextCode[..], lens, 0)
  {
    hide FirstCode, Count, Fits;
    var codes := 0;
    FirstZero(lens);
    for bits := 1 to MAXBITS + 1
      invariant codes == FirstCode(lens, bits - 1)
      invariant forall l :: 1 <= l < bits ==> nextCode[l] == FirstCode(lens, l)
    {
      CodesFit(lens, bits);
      codes := 2 * (codes + blCount[bits - 1]) % 0x10000;
      nextCode[bits] := codes;
    }
  }

  lemma FirstZero(lens: seq<nat>)
    ensures FirstCode(lens, 0) == 0
  {
  }

  /** The codes of the symbols below n are set, everything else is as before. */
  ghost predicate CodesSet(fc0: seq<nat>, fc: seq<nat>, lens: seq<nat>, n: nat) {
    && |fc| == |fc0| && n <= |lens| <= |fc|
    && (forall x :: 0 <= x < n && lens[x] > 0 ==> fc[x] == RevCode(lens, x))
    && (forall x :: 0 <= x < |fc| && (x >= n || lens[x] == 0) ==> fc[x] == fc0[x])
  }

  method GenCodes(fc: array<nat>, dl: array<nat>, maxCode: int, blCount: array<nat>)
    requires -1 <= maxCode < fc.Length == dl.Length && fc != dl && fc != blCount
    requires Fits(dl[..maxCode + 1]) && Counts(blCount[..], dl[..maxCode + 1])
    modifies fc
    ensures CodesSet(old(fc[..]), fc[..], dl[..maxCode + 1], maxCode + 1)
  {
    ghost var lens: seq<nat> := dl[..maxCode + 1];
    var nextCode := new nat[MAXBITS + 1](i => 0);
    FirstCodes(lens, blCount, nextCode);
    hide Fits, FirstCode, Rev, Pow2, Count, CountIn, NextCodes, CodesSet;
    CodesNone(fc[..], lens);
    for n := 0 to maxCode + 1
      invariant dl[..maxCode + 1] == lens
      invariant NextCodes(nextCode[..], lens, n) && CodesSet(old(fc[..]), fc[..], lens, n)
    {
      SetCode(fc, dl, n, nextCode, old(fc[..]), lens);
    }
  }

  method SetCode(fc: array<nat>, dl: array<nat>, n: nat, nextCode: array<nat>, ghost fc0: seq<nat>,
                 ghost lens: seq<nat>)
    requires fc != dl && fc != nextCode && dl != nextCode && n < |lens| <= dl.Length && dl[n] == lens[n] && Fits(lens)
    requires NextCodes(nextCode[..], lens, n) && CodesSet(fc0, fc[..], lens, n)
    modifies fc, nextCode
    ensures NextCodes(nextCode[..], lens, n + 1) && CodesSet(fc0, fc[..], lens, n + 1)
  {
    hide Fits, FirstCode, Rev, Pow2, Count, CountIn;
    NextStep(nextCode[..], lens, n);
    CodesStep(fc0, fc[..], lens, n);
    var len := dl[n];
    if len == 0 { return; }
    hide NextCodes, CodesSet;
    ghost var next0, fc1 := nextCode[..], fc[..];
    var r := BiReverse(nextCode[len], len);
    fc[n] := r;
    nextCode[len] := (nextCode[len] + 1) % 0x10000;
    assert nextCode[..] == next0[len := next0[len] + 1];
    assert fc[..] == fc1[n := r];
  }

  lemma CodesNone(fc: seq<nat>, lens: seq<nat>)
    requires |lens| <= |fc|
    ensures CodesSet(fc, fc, lens, 0)
  {
  }

  lemma CodesStep(fc0: seq<nat>, fc: seq<nat>, lens: seq<nat>, n: nat)
    requires CodesSet(fc0, fc, lens, n) && n < |lens|
    ensures lens[n] == 0 ==> CodesSet(fc0, fc, lens, n + 1)
    ensures lens[n] > 0 ==> CodesSet(fc0, fc[n := RevCode(lens, n)], lens, n + 1)
  {
    hide Rev, Code;
  }
}
