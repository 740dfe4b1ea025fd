/** tr_static_init (deps/libz/trees.c): the static trees and code tables. */
module StaticTrees {
  import opened Bits
  import opened Canonical
  import opened Codes
  import opened FixedCodes
  import opened TreeCoding

  /** Lengths below n are set and counted. */
  ghost predicate Filling(dl: seq<nat>, cnt: seq<nat>, n: nat) {
    && |dl| == 288 && |cnt| == MAXBITS + 1 && n <= 288
    && (forall x :: 0 <= x < n ==> dl[x] == FixedLen(x))
    && forall b :: 0 <= b <= MAXBITS ==> cnt[b] == FixedCount(b, n)
  }

  lemma FillingStep(dl: seq<nat>, cnt: seq<nat>, n: nat)
    requires Filling(dl, cnt, n) && n < 288
    ensures var b := FixedLen(n);
            b <= MAXBITS && Filling(dl[n := b], cnt[b := cnt[b] + 1], n + 1)
  {
  }

  /** while (n <= last) static_ltree[n++].Len = len, bl_count[len]++; */
  method FillLen(dl: array<nat>, cnt: array<nat>, n0: nat, last: nat, len: nat) returns (n: nat)
    requires dl != cnt && Filling(dl[..], cnt[..], n0) && n0 <= last < 288 && len <= MAXBITS
    requires forall x :: n0 <= x <= last ==> FixedLen(x) == len
    modifies dl, cnt
    ensures n == last + 1 && Filling(dl[..], cnt[..], n)
  {
    hide Filling;
    n := n0;
    while n <= last
      invariant n0 <= n <= last + 1 && Filling(dl[..], cnt[..], n)
    {
      FillingSizes(dl[..], cnt[..], n);
      FillingStep(dl[..], cnt[..], n);
      ghost var l: seq<nat>, c: seq<nat> := dl[..], cnt[..];
      dl[n] := len;
      cnt[len] := cnt[len] + 1;
      assert dl[..] == l[n := len] && cnt[..] == c[len := c[len] + 1];
      n := n + 1;
    }
  }

  lemma FillingSizes(dl: seq<nat>, cnt: seq<nat>, n: nat)
    requires Filling(dl, cnt, n)
    ensures |dl| == 288 && |cnt| == MAXBITS + 1
  {
  }

  lemma FillingDone(dl: seq<nat>, cnt: seq<nat>)
    requires Filling(dl, cnt, 288)
    ensures dl == FixedLens() && Counts(cnt, FixedLens())
  {
    assert dl == FixedLens();
    forall b | 0 <= b <= MAXBITS ensures cnt[b] == Count(FixedLens(), b) { CountFixed(b, 288); }
  }

  method InitStaticLtree(fc: array<nat>, dl: array<nat>)
    requires fc.Length == dl.Length == 288 && fc != dl
    modifies fc, dl
    ensures CodesOf(fc[..], dl[..], FixedLens())
  {
    var blCount := new nat[MAXBITS + 1](i => 0);
    assert Filling(dl[..], blCount[..], 0);
    hide Filling, FixedCount;
    var n := FillLen(dl, blCount, 0, 143, 8);
    n := FillLen(dl, blCount, n, 255, 9);
    n := FillLen(dl, blCount, n, 279, 7);
    n := FillLen(dl, blCount, n, 287, 8);
    FillingDone(dl[..], blCount[..]);
    FixedComplete();
    assert dl[..288] == dl[..];
    GenCodes(fc, dl, 287, blCount);
    ghost var lens := FixedLens();
    assert forall x :: 0 <= x < 288 ==> lens[x] > 0;
    hide RevCode;
  }

  method InitStaticDtree(fc: array<nat>, dl: array<nat>)
    requires fc.Length == dl.Length == 30 && fc != dl
    modifies fc, dl
    ensures CodesOf(fc[..], dl[..], FixedDistLens())
  {
    FixedDistComplete();
    Pow2Values();
    hide Rev, Code, Pow2, FixedDistLens;
    for n := 0 to 30
      invariant forall x :: 0 <= x < n ==> dl[x] == 5 && fc[x] == Rev(x, 5)
    {
      dl[n] := 5;
      var r := BiReverse(n, 5);
      fc[n] := r;
    }
    FiveCodes();
  }

  lemma FiveCodes()
    ensures Bounded(FixedDistLens(), MAXBITS)
    ensures forall x :: 0 <= x < 32 ==> FixedDistLens()[x] == 5 && RevCode(FixedDistLens(), x) == Rev(x, 5)
  {
    FixedDistComplete();
    hide Rev, Code;
  }
}
