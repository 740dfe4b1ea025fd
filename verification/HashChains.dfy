/** The hash chains of the compressor (deps/libz/deflate.c: INSERT_STRING, the
    slide of head and prev in fill_window).  head and prev hold window indices;
    prev is a circular table, so old links are lost.  hist is all input since the
    last full flush, and base is where the window starts in it. */
module HashChains {
  import opened Bits
  import opened RollingHash

  /** The hash of the string at a. */
  function HashAt(k: Hashing, hist: seq<byte>, a: nat): nat {
    if a + 2 < |hist| then Hash3(k, hist[a], hist[a + 1], hist[a + 2]) else 0
  }

  /** All inserted strings lie before top, and whole. */
  ghost predicate PlacedBefore(ins: set<nat>, hist: seq<byte>, top: nat) {
    forall a :: a in ins ==> a < top && a + 2 < |hist|
  }

  /** The index q leads to the latest inserted string with hash h before end, or is 0 if there is
      none beyond base. */
  ghost predicate LinksTo(k: Hashing, hist: seq<byte>, base: nat, ins: set<nat>, q: nat, h: nat, end: nat) {
    && (q == 0 || (base + q in ins && base + q < end && HashAt(k, hist, base + q) == h))
    && forall b :: b in ins && base + q < b < end ==> HashAt(k, hist, b) != h
  }

  ghost predicate Heads(k: Hashing, hist: seq<byte>, base: nat, ins: set<nat>, head: seq<nat>, top: nat) {
    |head| == Pow2(k.bits) && forall h :: 0 <= h < |head| ==> LinksTo(k, hist, base, ins, head[h], h, top)
  }

  /** The links of the strings that the table still has: each to the one with the same hash that
      was inserted before. */
  ghost predicate Links(k: Hashing, hist: seq<byte>, base: nat, ins: set<nat>, prev: seq<nat>, wbits: nat, top: nat) {
    |prev| == Pow2(wbits)
    && forall a :: a in ins && a >= base && a + Pow2(wbits) >= top ==> LinkAt(k, hist, base, ins, prev, wbits, a)
  }

  ghost predicate LinkAt(k: Hashing, hist: seq<byte>, base: nat, ins: set<nat>, prev: seq<nat>, wbits: nat, a: nat) {
    Low(a, wbits) < |prev| && LinksTo(k, hist, base, ins, prev[Low(a, wbits)], HashAt(k, hist, a), a)
  }

  ghost predicate Chained(k: Hashing, hist: seq<byte>, base: nat, ins: set<nat>, head: seq<nat>, prev: seq<nat>,
                          wbits: nat, top: nat) {
    && PlacedBefore(ins, hist, top) && Heads(k, hist, base, ins, head, top)
    && Links(k, hist, base, ins, prev, wbits, top)
    && Low(base, wbits) == 0
  }

  // ---- The circular index ----

  /** Two strings share an entry of prev only if they are a window apart. */
  lemma Clash(a: nat, b: nat, n: nat)
    requires a < b && Low(a, n) == Low(b, n)
    ensures a + Pow2(n) <= b
  {
    Split(a, n);
    Split(b, n);
    ShrMonotone(a, b, n);
    if Shr(a, n) < Shr(b, n) { ShlMonotone(Shr(a, n), Shr(b, n), n); }
  }

  /** str & w_mask does not depend on where the window starts. */
  lemma BaseIndex(base: nat, q: nat, n: nat)
    requires Low(base, n) == 0
    ensures Low(base + q, n) == Low(q, n)
  {
    hide Low, Shl, Shr, Pow2;
    Split(base, n);
    Split(q, n);
    ShlAdd(Shr(base, n), Shr(q, n), n);
    SplitUnique(Shr(base, n) + Shr(q, n), Low(q, n), n);
  }

  lemma NextBase(base: nat, n: nat)
    requires Low(base, n) == 0
    ensures Low(base + Pow2(n), n) == 0
  {
    BaseIndex(base, Pow2(n), n);
    ShlOne(n);
    PowBound(n);
    SplitUnique(1, 0, n);
  }

  lemma PowBound(n: nat)
    ensures Pow2(n) > 0
  {
  }

  // ---- INSERT_STRING ----

  lemma InsertHeads(k: Hashing, hist: seq<byte>, base: nat, ins: set<nat>, head: seq<nat>, str: nat, top: nat)
    requires Heads(k, hist, base, ins, head, top) && top <= base + str && base + str + 2 < |hist|
    requires PlacedBefore(ins, hist, top)
    ensures var h := HashAt(k, hist, base + str);
      h < |head| && Heads(k, hist, base, ins + {base + str}, head[h := str], base + str + 1)
  {
    hide Hash3, Pow2, LinksTo;
    var a := base + str;
    var ha := HashAt(k, hist, a);
    var head2 := head[ha := str];
    forall h | 0 <= h < |head| ensures LinksTo(k, hist, base, ins + {a}, head2[h], h, a + 1) {
      if h == ha {
        LinksHere(k, hist, base, ins, str, top);
      } else {
        LinksOther(k, hist, base, ins, head[h], h, top, a);
      }
    }
  }

  lemma LinksHere(k: Hashing, hist: seq<byte>, base: nat, ins: set<nat>, str: nat, top: nat)
    requires PlacedBefore(ins, hist, top) && top <= base + str
    ensures LinksTo(k, hist, base, ins + {base + str}, str, HashAt(k, hist, base + str), base + str + 1)
  {
    hide HashAt;
  }

  lemma LinksOther(k: Hashing, hist: seq<byte>, base: nat, ins: set<nat>, q: nat, h: nat, top: nat, a: nat)
    requires LinksTo(k, hist, base, ins, q, h, top) && PlacedBefore(ins, hist, top) && top <= a
    requires HashAt(k, hist, a) != h
    ensures LinksTo(k, hist, base, ins + {a}, q, h, a + 1)
  {
    hide HashAt;
  }

  lemma InsertLinks(k: Hashing, hist: seq<byte>, base: nat, ins: set<nat>, prev: seq<nat>, wbits: nat, q: nat,
                    str: nat, top: nat)
    requires Links(k, hist, base, ins, prev, wbits, top) && PlacedBefore(ins, hist, top)
    requires LinksTo(k, hist, base, ins, q, HashAt(k, hist, base + str), top) && Low(base, wbits) == 0
    requires top <= base + str
    ensures Low(str, wbits) < |prev|
    ensures Links(k, hist, base, ins + {base + str}, prev[Low(str, wbits) := q], wbits, base + str + 1)
  {
    hide HashAt, Low, Pow2, LinksTo, LinkAt, PlacedBefore;
    var a, prev2, next := base + str, prev[Low(str, wbits) := q], ins + {base + str};
    BaseIndex(base, str, wbits);
    IndexBound(str, wbits);
    forall b | b in next && b >= base && b + Pow2(wbits) >= a + 1
      ensures LinkAt(k, hist, base, next, prev2, wbits, b)
    {
      if b == a {
        NewLink(k, hist, base, ins, prev, wbits, q, str, top);
      } else {
        PlacedBelow(ins, hist, top, b);
        OldLink(k, hist, base, ins, prev, wbits, q, str, b);
      }
    }
  }

  lemma IndexBound(a: nat, n: nat)
    ensures Low(a, n) < Pow2(n)
  {
  }

  lemma PlacedBelow(ins: set<nat>, hist: seq<byte>, top: nat, b: nat)
    requires PlacedBefore(ins, hist, top) && b in ins
    ensures b < top
  {
  }

  lemma LinksMore(k: Hashing, hist: seq<byte>, base: nat, ins: set<nat>, q: nat, h: nat, end: nat, a: nat, end': nat)
    requires LinksTo(k, hist, base, ins, q, h, end) && end <= end' <= a
    requires end == end' || forall b :: b in ins ==> b < end
    ensures LinksTo(k, hist, base, ins + {a}, q, h, end')
  {
    hide HashAt;
  }

  lemma NewLink(k: Hashing, hist: seq<byte>, base: nat, ins: set<nat>, prev: seq<nat>, wbits: nat, q: nat, str: nat,
                top: nat)
    requires LinksTo(k, hist, base, ins, q, HashAt(k, hist, base + str), top) && top <= base + str
    requires Low(base + str, wbits) == Low(str, wbits) < |prev| && PlacedBefore(ins, hist, top)
    ensures LinkAt(k, hist, base, ins + {base + str}, prev[Low(str, wbits) := q], wbits, base + str)
  {
    hide HashAt, Low, LinksTo;
    LinksMore(k, hist, base, ins, q, HashAt(k, hist, base + str), top, base + str, base + str);
  }

  lemma OldLink(k: Hashing, hist: seq<byte>, base: nat, ins: set<nat>, prev: seq<nat>, wbits: nat, q: nat, str: nat,
                b: nat)
    requires LinkAt(k, hist, base, ins, prev, wbits, b) && Low(base + str, wbits) == Low(str, wbits) < |prev|
    requires b < base + str < b + Pow2(wbits)
    ensures LinkAt(k, hist, base, ins + {base + str}, prev[Low(str, wbits) := q], wbits, b)
  {
    hide HashAt, Low, LinksTo, Pow2;
    if Low(b, wbits) == Low(str, wbits) { Clash(b, base + str, wbits); }
    LinksMore(k, hist, base, ins, prev[Low(b, wbits)], HashAt(k, hist, b), b, base + str, b);
  }

  lemma InsertPlaced(ins: set<nat>, hist: seq<byte>, top: nat, a: nat)
    requires PlacedBefore(ins, hist, top) && top <= a && a + 2 < |hist|
    ensures PlacedBefore(ins + {a}, hist, a + 1)
  {
  }

  /** INSERT_STRING keeps the chains, and the head it returns leads to the latest string with the
      same hash. */
  lemma InsertChained(k: Hashing, hist: seq<byte>, base: nat, ins: set<nat>, head: seq<nat>, prev: seq<nat>,
                      wbits: nat, top: nat, str: nat)
    requires Chained(k, hist, base, ins, head, prev, wbits, top) && top <= base + str && base + str + 2 < |hist|
    ensures var h := HashAt(k, hist, base + str);
      && h < |head| && Low(str, wbits) < |prev| && LinksTo(k, hist, base, ins, head[h], h, base + str)
      && Chained(k, hist, base, ins + {base + str}, head[h := str], prev[Low(str, wbits) := head[h]], wbits,
        base + str + 1)
  {
    hide Hash3, Links, Low, Pow2;
    InsertPlaced(ins, hist, top, base + str);
    InsertHeads(k, hist, base, ins, head, str, top);
    InsertLinks(k, hist, base, ins, prev, wbits, head[HashAt(k, hist, base + str)], str, top);
  }

  // ---- More input, the slide, and a new start ----

  /** More input does not change the strings that are there. */
  lemma ChainedMore(k: Hashing, hist: seq<byte>, base: nat, ins: set<nat>, head: seq<nat>, prev: seq<nat>, wbits: nat,
                    top: nat, data: seq<byte>)
    requires Chained(k, hist, base, ins, head, prev, wbits, top)
    ensures Chained(k, hist + data, base, ins, head, prev, wbits, top)
  {
    hide Hash3, Low, Pow2;
    forall a | a in ins ensures HashAt(k, hist + data, a) == HashAt(k, hist, a) {}
    hide HashAt;
    forall a | a in ins && a >= base && a + Pow2(wbits) >= top
      ensures LinkAt(k, hist + data, base, ins, prev, wbits, a)
    {
      assert LinkAt(k, hist, base, ins, prev, wbits, a);
    }
  }

  /** An entry moved down by a window. */
  function Slid(q: nat, w: nat): nat { if q >= w then q - w else 0 }

  lemma LinksSlid(k: Hashing, hist: seq<byte>, base: nat, ins: set<nat>, q: nat, h: nat, end: nat, w: nat)
    requires LinksTo(k, hist, base, ins, q, h, end)
    ensures LinksTo(k, hist, base + w, ins, Slid(q, w), h, end)
  {
  }

  lemma SlideChained(k: Hashing, hist: seq<byte>, base: nat, ins: set<nat>, head: seq<nat>, prev: seq<nat>,
                     wbits: nat, top: nat, head': seq<nat>, prev': seq<nat>)
    requires Chained(k, hist, base, ins, head, prev, wbits, top)
    requires |head'| == |head| && forall i :: 0 <= i < |head| ==> head'[i] == Slid(head[i], Pow2(wbits))
    requires |prev'| == |prev| && forall i :: 0 <= i < |prev| ==> prev'[i] == Slid(prev[i], Pow2(wbits))
    ensures Chained(k, hist, base + Pow2(wbits), ins, head', prev', wbits, top)
  {
    hide HashAt, Slid, Low, LinksTo;
    var w, base' := Pow2(wbits), base + Pow2(wbits);
    NextBase(base, wbits);
    forall h | 0 <= h < |head'| ensures LinksTo(k, hist, base', ins, head'[h], h, top) {
      LinksSlid(k, hist, base, ins, head[h], h, top, w);
    }
    forall a | a in ins && a >= base' && a + w >= top
      ensures LinkAt(k, hist, base', ins, prev', wbits, a)
    {
      assert LinkAt(k, hist, base, ins, prev, wbits, a);
      LinksSlid(k, hist, base, ins, prev[Low(a, wbits)], HashAt(k, hist, a), a, w);
    }
  }

  /** CLEAR_HASH: no string is known, whatever prev holds. */
  lemma ClearChained(k: Hashing, head: seq<nat>, prev: seq<nat>, wbits: nat)
    requires |head| == Pow2(k.bits) && (forall h :: 0 <= h < |head| ==> head[h] == 0) && |prev| == Pow2(wbits)
    ensures Chained(k, [], 0, {}, head, prev, wbits, 0)
  {
    LowSmall(0, wbits);
  }

  /** The next link of a string that is near enough. */
  lemma Follow(k: Hashing, hist: seq<byte>, base: nat, ins: set<nat>, head: seq<nat>, prev: seq<nat>, wbits: nat,
               top: nat, q: nat)
    requires Chained(k, hist, base, ins, head, prev, wbits, top) && base + q in ins && base + q + Pow2(wbits) >= top
    ensures Low(q, wbits) < |prev|
    ensures LinksTo(k, hist, base, ins, prev[Low(q, wbits)], HashAt(k, hist, base + q), base + q)
  {
    hide HashAt, Low, LinksTo, Pow2;
    BaseIndex(base, q, wbits);
    assert LinkAt(k, hist, base, ins, prev, wbits, base + q);
  }
}
