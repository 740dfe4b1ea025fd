/** inflate_table (deps/libz/inftrees.c): decoding tables from code lengths. */
module Inftrees {
  import opened Bits
  import opened Canonical
  import opened DecodeTable
  import opened TableGroups

  // ---- Longest and shortest length ----

  function Longest(lens: seq<nat>, l: nat): (r: nat)
    ensures r <= l && (r > 0 ==> Count(lens, r) > 0)
  {
    if l == 0 || Count(lens, l) > 0 then l else Longest(lens, l - 1)
  }

  function Shortest(lens: seq<nat>, l: nat): (r: nat)
    requires l <= MAXBITS
    ensures l <= r <= MAXBITS && (r < MAXBITS ==> Count(lens, r) > 0)
    decreases MAXBITS - l
  {
    if l == MAXBITS || Count(lens, l) > 0 then l else Shortest(lens, l + 1)
  }

  lemma {:induction false} LongestLast(lens: seq<nat>, l: nat, m: nat)
    requires Longest(lens, l) < m <= l
    ensures Count(lens, m) == 0
  {
    if m < l { LongestLast(lens, l - 1, m); }
  }

  lemma {:induction false} ShortestFirst(lens: seq<nat>, l: nat, m: nat)
    requires l <= MAXBITS && l <= m < Shortest(lens, l)
    ensures Count(lens, m) == 0
    decreases m - l
  {
    if l < m { ShortestFirst(lens, l + 1, m); }
  }

  /** The root index bits used when bits are requested. */
  function RootBits(lens: seq<nat>, bits: nat): nat {
    var max, min := Longest(lens, MAXBITS), Shortest(lens, 1);
    var root := if bits > max then max else bits;
    if root < min then min else root
  }

  method CountLengths(lens: seq<nat>) returns (count: array<nat>)
    requires Bounded(lens, MAXBITS)
    ensures fresh(count) && count.Length == MAXBITS + 1
    ensures forall l :: 1 <= l <= MAXBITS ==> count[l] == Count(lens, l)
  {
    count := new nat[MAXBITS + 1];
    for len := 0 to MAXBITS + 1
      invariant forall l :: 0 <= l < len ==> count[l] == 0
    {
      count[len] := 0;
    }
    for sym := 0 to |lens|
      invariant forall l :: 0 <= l <= MAXBITS ==> count[l] == CountIn(lens, l, sym)
    {
      count[lens[sym]] := count[lens[sym]] + 1;
    }
  }

  method FindMax(lens: seq<nat>, count: array<nat>) returns (max: nat)
    requires count.Length == MAXBITS + 1
    requires forall l :: 1 <= l <= MAXBITS ==> count[l] == Count(lens, l)
    ensures max == Longest(lens, MAXBITS)
  {
    max := MAXBITS;
    while max >= 1
      invariant max <= MAXBITS && Longest(lens, max) == Longest(lens, MAXBITS)
    {
      if count[max] != 0 { break; }
      max := max - 1;
    }
  }

  method FindMin(lens: seq<nat>, count: array<nat>, max: nat) returns (min: nat)
    requires count.Length == MAXBITS + 1
    requires forall l :: 1 <= l <= MAXBITS ==> count[l] == Count(lens, l)
    requires 1 <= max == Longest(lens, MAXBITS)
    ensures min == Shortest(lens, 1) <= max && Count(lens, min) > 0
  {
    min := 1;
    while min < max
      invariant 1 <= min <= max && Shortest(lens, min) == Shortest(lens, 1)
    {
      if count[min] != 0 { break; }
      min := min + 1;
    }
  }

  method CheckLeft(lens: seq<nat>, count: array<nat>) returns (left: int)
    requires count.Length == MAXBITS + 1
    requires forall l :: 1 <= l <= MAXBITS ==> count[l] == Count(lens, l)
    ensures left < 0 <==> Left(lens, MAXBITS) < 0
    ensures left >= 0 ==> left == Left(lens, MAXBITS)
  {
    left := 1;
    var len := 1;
    while len <= MAXBITS
      invariant 1 <= len <= MAXBITS + 1 && left == Left(lens, len - 1)
    {
      left := 2 * left;
      left := left - count[len];
      if left < 0 {
        if Left(lens, MAXBITS) >= 0 { LeftSign(lens, len, MAXBITS); }
        return;
      }
      len := len + 1;
    }
  }

  // ---- Sorting ----

  /** The number of symbols below n with a length in 1..l-1. */
  function OffsetIn(lens: seq<nat>, l: nat, n: nat): nat
    requires n <= |lens|
  {
    if l <= 1 then 0 else OffsetIn(lens, l - 1, n) + CountIn(lens, l - 1, n)
  }

  function Offset(lens: seq<nat>, l: nat): nat {
    OffsetIn(lens, l, |lens|)
  }

  lemma {:induction false} OffsetStep(lens: seq<nat>, l: nat, n: nat)
    requires 0 < n <= |lens|
    ensures OffsetIn(lens, l, n) == OffsetIn(lens, l, n - 1) + (if 0 < lens[n - 1] < l then 1 else 0)
  {
    if l > 1 { OffsetStep(lens, l - 1, n); }
  }

  lemma {:induction false} OffsetBound(lens: seq<nat>, l: nat, n: nat)
    requires n <= |lens|
    ensures OffsetIn(lens, l, n) <= n
  {
    if n > 0 {
      OffsetStep(lens, l, n);
      OffsetBound(lens, l, n - 1);
    } else if l > 1 {
      OffsetBound(lens, l - 1, 0);
    }
  }

  lemma {:induction false} OffsetGrows(lens: seq<nat>, l: nat, m: nat)
    requires 0 < l < m
    ensures Offset(lens, l) + Count(lens, l) <= Offset(lens, m)
  {
    if l + 1 < m { OffsetGrows(lens, l, m - 1); }
  }

  lemma {:induction false} OffsetMonotone(lens: seq<nat>, l: nat, m: nat)
    requires l <= m
    ensures Offset(lens, l) <= Offset(lens, m)
  {
    if l < m { OffsetMonotone(lens, l, m - 1); }
  }

  lemma SlotsLeft(lens: seq<nat>, l: nat, r: nat)
    requires 0 < l <= MAXBITS && r < Count(lens, l)
    ensures Offset(lens, l) + r < Offset(lens, MAXBITS + 1) <= |lens|
  {
    OffsetMonotone(lens, l + 1, MAXBITS + 1);
    OffsetBound(lens, MAXBITS + 1, |lens|);
  }

  /** The r-th symbol of length l sits where the sorted list has it. */
  ghost predicate SortedAt(w: seq<nat>, lens: seq<nat>, l: nat, r: nat)
    requires r < Count(lens, l)
  {
    Offset(lens, l) + r < |w| && w[Offset(lens, l) + r] == Sym(lens, l, r)
  }

  /** work lists the coded symbols by length, by symbol order within a length. */
  ghost predicate SortedUpTo(w: seq<nat>, lens: seq<nat>, n: nat)
    requires n <= |lens|
  {
    forall l, r :: 1 <= l <= MAXBITS && 0 <= r < CountIn(lens, l, n) && r < Count(lens, l) ==> SortedAt(w, lens, l, r)
  }

  lemma OwnSlot(lens: seq<nat>, l: nat, r: nat, k: nat, q: nat)
    requires 0 < l && 0 < k && r < Count(lens, l) && q < Count(lens, k) && (l != k || r != q)
    ensures Offset(lens, l) + r != Offset(lens, k) + q
  {
    if l < k { OffsetGrows(lens, l, k); }
    if k < l { OffsetGrows(lens, k, l); }
  }

  function Slot(lens: seq<nat>, n: nat): nat
    requires n < |lens|
  {
    Offset(lens, lens[n]) + Rank(lens, n)
  }

  lemma SlotBound(lens: seq<nat>, n: nat)
    requires n < |lens| && lens[n] > 0
    ensures Slot(lens, n) < |lens|
  {
    RankOf(lens, n);
    OffsetBound(lens, lens[n] + 1, |lens|);
  }

  lemma SortStep(w: seq<nat>, lens: seq<nat>, n: nat)
    requires n < |lens| <= |w| && Bounded(lens, MAXBITS) && SortedUpTo(w, lens, n) && lens[n] > 0
    ensures Slot(lens, n) < |w| && SortedUpTo(w[Slot(lens, n) := n], lens, n + 1)
  {
    SlotBound(lens, n);
    RankOf(lens, n);
    var w' := w[Slot(lens, n) := n];
    forall l, r | 1 <= l <= MAXBITS && 0 <= r < CountIn(lens, l, n + 1) && r < Count(lens, l)
      ensures SortedAt(w', lens, l, r)
    {
      if l != lens[n] || r != Rank(lens, n) {
        assert SortedAt(w, lens, l, r);
        OwnSlot(lens, l, r, lens[n], Rank(lens, n));
      }
    }
  }

  method Offsets(lens: seq<nat>, count: array<nat>) returns (offs: array<nat>)
    requires count.Length == MAXBITS + 1
    requires forall l :: 1 <= l <= MAXBITS ==> count[l] == Count(lens, l)
    ensures fresh(offs) && offs.Length == MAXBITS + 1
    ensures forall l :: 1 <= l <= MAXBITS ==> offs[l] == Offset(lens, l)
  {
    offs := new nat[MAXBITS + 1];
    offs[1] := 0;
    var len := 1;
    while len < MAXBITS
      invariant 1 <= len <= MAXBITS
      invariant forall l :: 1 <= l <= len ==> offs[l] == Offset(lens, l)
    {
      offs[len + 1] := offs[len] + count[len];
      len := len + 1;
    }
  }

  method SortSymbols(lens: seq<nat>, count: array<nat>, work: array<nat>)
    requires Bounded(lens, MAXBITS) && |lens| <= work.Length
    requires count != work && count.Length == MAXBITS + 1
    requires forall l :: 1 <= l <= MAXBITS ==> count[l] == Count(lens, l)
    modifies work
    ensures SortedUpTo(work[..], lens, |lens|)
  {
    var offs := Offsets(lens, count);
    for sym := 0 to |lens|
      invariant forall l :: 1 <= l <= MAXBITS ==> offs[l] == Offset(lens, l) + CountIn(lens, l, sym)
      invariant SortedUpTo(work[..], lens, sym)
    {
      if lens[sym] != 0 {
        SortStep(work[..], lens, sym);
        ghost var w := work[..];
        work[offs[lens[sym]]] := sym;
        assert work[..] == w[Slot(lens, sym) := sym];
        offs[lens[sym]] := offs[lens[sym]] + 1;
      }
    }
  }

  // ---- Writing entries ----

  /** t1 is t0 with e at those of the 2^n indices from base that end in the
      bits r and whose remaining bits count q or more. */
  ghost predicate Wrote(t0: seq<Entry>, t1: seq<Entry>, base: nat, n: nat, w: nat, r: nat, q: nat, e: Entry) {
    && |t0| == |t1| && base + Pow2(n) <= |t0|
    && forall i :: 0 <= i < |t0| ==>
      t1[i] == if base <= i < base + Pow2(n) && EndsIn(i - base, w, r) && Shr(i - base, w) >= q then e else t0[i]
  }

  lemma WroteStep(t0: seq<Entry>, t1: seq<Entry>, base: nat, n: nat, w: nat, r: nat, q: nat, e: Entry)
    requires Wrote(t0, t1, base, n, w, r, q + 1, e)
    requires w <= n && r < Pow2(w) && q < Pow2(n - w)
    ensures r + Shl(q, w) < Pow2(n)
    ensures Wrote(t0, t1[base + r + Shl(q, w) := e], base, n, w, r, q, e)
  {
    SlotInside(n, w, r, q);
    var j := base + r + Shl(q, w);
    forall i | 0 <= i < |t0|
      ensures t1[j := e][i] ==
        if base <= i < base + Pow2(n) && EndsIn(i - base, w, r) && Shr(i - base, w) >= q then e else t0[i]
    {
      if base <= i < base + Pow2(n) && EndsIn(i - base, w, r) && Shr(i - base, w) == q {
        Split(i - base, w);
      }
    }
  }

  lemma SlotInside(n: nat, w: nat, r: nat, q: nat)
    requires w <= n && r < Pow2(w) && q < Pow2(n - w)
    ensures r + Shl(q, w) < Pow2(n) && EndsIn(r + Shl(q, w), w, r) && Shr(r + Shl(q, w), w) == q
  {
    SplitUnique(q, r, w);
    ShlMonotone(q + 1, Pow2(n - w), w);
    ShlAdd(q, 1, w);
    ShlOne(w);
    ShlPow2(n - w, w);
  }

  lemma WroteFills(t0: seq<Entry>, t1: seq<Entry>, base: nat, n: nat, w: nat, r: nat, e: Entry)
    requires Wrote(t0, t1, base, n, w, r, 0, e)
    ensures Filled(t1, base, n, w, r, e)
  {
  }

  method Fill(table: array<Entry>, base: nat, curr: nat, w: nat, r: nat, here: Entry)
    requires w <= curr && r < Pow2(w) && base + Pow2(curr) <= table.Length
    modifies table
    ensures Wrote(old(table[..]), table[..], base, curr, w, r, 0, here)
  {
    var incr := Pow2(w);
    var fill := Pow2(curr);
    ghost var q: nat := Pow2(curr - w);
    ghost var t0 := table[..];
    ShlPow2(curr - w, w);
    ShlOne(w);
    forall i: nat | i < Pow2(curr) ensures Shr(i, w) < q { ShrBound(i, w, curr); }
    while fill != 0
      invariant fill == Shl(q, w) && q <= Pow2(curr - w)
      invariant Wrote(t0, table[..], base, curr, w, r, q, here)
      decreases q
    {
      ShlAdd(q - 1, 1, w);
      fill := fill - incr;
      q := q - 1;
      WroteStep(t0, table[..], base, curr, w, r, q, here);
      ghost var t1 := table[..];
      table[base + r + fill] := here;
      assert table[..] == t1[base + r + fill := here];
    }
    if q > 0 { ShlMonotone(1, q, w); }
  }

  // ---- The backwards increment ----

  /** h with 1 added at its top bit, the carry running down. */
  function Bump(h: nat, n: nat): nat {
    if n == 0 then 0
    else if Shr(h, n - 1) % 2 == 1 then Bump(h, n - 1)
    else Low(h, n - 1) + Pow2(n - 1)
  }

  lemma {:induction false} BumpLow(h: nat, m: nat, n: nat)
    requires n <= m
    ensures Bump(Low(h, m), n) == Bump(h, n)
  {
    hide Low, Shr, Pow2;
    if n > 0 {
      LowLow(h, n - 1, m);
      BumpLow(h, m, n - 1);
      LowOdd(Shr(h, n - 1), m - n + 1);
    }
  }

  lemma LowOdd(v: nat, n: nat)
    requires n >= 1
    ensures Low(v, n) % 2 == v % 2
  {
  }

  lemma RevTop(t: nat, u: nat, n: nat)
    requires t < 2 && u < Pow2(n)
    ensures var v := (if t == 1 then Pow2(n) else 0) + u; Shr(v, n) == t && Low(v, n) == u
  {
    ShlOne(n);
    hide Shl, Low, Shr, Pow2;
    if t == 1 { SplitUnique(1, u, n); } else { SplitUnique(0, u, n); }
  }

  lemma BumpTop(t: nat, u: nat, n: nat)
    requires t < 2 && u < Pow2(n)
    ensures Bump((if t == 1 then Pow2(n) else 0) + u, n + 1) == if t == 1 then Bump(u, n) else u + Pow2(n)
  {
    hide Shr, Low, Pow2;
    var h := (if t == 1 then Pow2(n) else 0) + u;
    RevTop(t, u, n);
    BumpLow(h, n, n);
  }

  lemma RevSucc(c: nat, n: nat)
    ensures Rev(c, n + 1) == (if c % 2 == 1 then Pow2(n) else 0) + Rev(c / 2, n)
    ensures Rev(c + 1, n + 1) == if c % 2 == 1 then Rev(c / 2 + 1, n) else Rev(c / 2, n) + Pow2(n)
  {
    hide Pow2;
    assert (c + 1) / 2 == if c % 2 == 1 then c / 2 + 1 else c / 2;
  }

  /** Backwards increment of a reversed code is increment of the code. */
  lemma {:induction false} BumpIsIncrement(c: nat, n: nat)
    ensures Bump(Rev(c, n), n) == Rev(c + 1, n)
  {
    hide Bump, Rev, Pow2;
    if n > 0 {
      BumpIsIncrement(c / 2, n - 1);
      BumpTop(c % 2, Rev(c / 2, n - 1), n - 1);
      RevSucc(c, n - 1);
    } else {
      BumpZero(c);
    }
  }

  lemma BumpZero(c: nat)
    ensures Bump(Rev(c, 0), 0) == Rev(c + 1, 0)
  {
  }

  method BackIncrement(huff: nat, len: nat) returns (next: nat)
    requires 1 <= len
    ensures next == Bump(huff, len)
  {
    var incr := Pow2(len - 1);
    var n: nat := len;                              // incr is 1 << (n - 1), or 0
    while incr != 0 && Shr(huff, n - 1) % 2 == 1    // huff & incr
      invariant n <= len && incr == (if n == 0 then 0 else Pow2(n - 1))
      invariant Bump(huff, n) == Bump(huff, len)
      decreases n
    {
      incr := incr / 2;
      n := n - 1;
    }
    if incr != 0 {
      next := Low(huff, n - 1) + incr;
    } else {
      next := 0;
    }
  }

  // ---- The tables while they are being filled ----

  /** The code being entered is the rank-th of length len.  The table being
      filled has curr index bits and starts off past the root table; low is the
      root index that links to it, or -1 while it is the root table itself.
      used entries are allocated. */
  datatype Cursor = Cursor(len: nat, rank: nat, low: int, off: nat, curr: nat, used: nat)

  ghost predicate Entered(lens: seq<nat>, c: Cursor, s: nat)
    requires s < |lens|
  {
    0 < lens[s] && (lens[s] < c.len || (lens[s] == c.len && Rank(lens, s) < c.rank))
  }

  /** A finished second-level table lies below the one being filled. */
  ghost predicate Behind(t: seq<Entry>, at: nat, root: nat, off: nat, low: nat) {
    at + low < |t| && t[at + low].val + Pow2(t[at + low].op) <= off
  }

  ghost predicate Kept(t: seq<Entry>, ty: CodeType, lens: seq<nat>, at: nat, root: nat, c: Cursor, s: nat)
    requires s < |lens| <= MaxSymbols(ty)
  {
    && Placed(t, ty, lens, at, root, at + c.used, s)
    && (lens[s] > root ==>
        c.low >= 0 && (Low(RevCode(lens, s), root) == c.low || Behind(t, at, root, c.off, Low(RevCode(lens, s), root))))
  }

  ghost predicate CursorOk(t: seq<Entry>, at: nat, root: nat, c: Cursor) {
    && at + c.used <= |t|
    && if c.low < 0 then
         c.low == -1 && c.off == 0 && c.curr == root && c.used == Pow2(root)
       else
         && c.low < Pow2(root) <= c.off && c.off + Pow2(c.curr) == c.used
         && c.curr <= MAXBITS && t[at + c.low] == Entry(c.curr, root, c.off)
  }

  ghost predicate Progress(t: seq<Entry>, ty: CodeType, lens: seq<nat>, at: nat, root: nat, c: Cursor)
    requires |lens| <= MaxSymbols(ty)
  {
    && CursorOk(t, at, root, c)
    && forall s :: 0 <= s < |lens| && Entered(lens, c, s) ==> Kept(t, ty, lens, at, root, c, s)
  }

  /** The code the cursor is at goes in the table the cursor is at. */
  ghost predicate InPlace(lens: seq<nat>, root: nat, c: Cursor, k: nat)
    requires k < |lens|
  {
    && 0 < lens[k] == c.len && Rank(lens, k) == c.rank
    && if c.low < 0 then c.len <= root
       else c.len > root && Low(RevCode(lens, k), root) == c.low && c.len - root <= c.curr
  }

  ghost predicate WroteCode(t0: seq<Entry>, t1: seq<Entry>, ty: CodeType, lens: seq<nat>, at: nat, root: nat,
                            c: Cursor, k: nat)
    requires k < |lens| <= MaxSymbols(ty) && InPlace(lens, root, c, k)
  {
    if c.low < 0 then
      Wrote(t0, t1, at, root, c.len, RevCode(lens, k), 0, EntryFor(ty, k, c.len))
    else
      Wrote(t0, t1, at + c.off, c.curr, c.len - root, Shr(RevCode(lens, k), root), 0, EntryFor(ty, k, c.len - root))
  }

  lemma KeepRoot(t0: seq<Entry>, t1: seq<Entry>, lens: seq<nat>, at: nat, root: nat, k: nat, s: nat, e: Entry, f: Entry)
    requires Fits(lens) && k < |lens| && s < |lens| && k != s && 0 < lens[k] <= root && 0 < lens[s] <= root
    requires Wrote(t0, t1, at, root, lens[k], RevCode(lens, k), 0, e)
    requires Filled(t0, at, root, lens[s], RevCode(lens, s), f)
    ensures Filled(t1, at, root, lens[s], RevCode(lens, s), f)
  {
    forall i: nat | i < Pow2(root) && EndsIn(i, lens[s], RevCode(lens, s))
      ensures t1[at + i] == f
    {
      if EndsIn(i, lens[k], RevCode(lens, k)) { LowPrefixFree(lens, k, s, i); }
    }
  }

  lemma KeepSub(t0: seq<Entry>, t1: seq<Entry>, lens: seq<nat>, base: nat, n: nat, root: nat, k: nat, s: nat,
                e: Entry, f: Entry)
    requires Fits(lens) && k < |lens| && s < |lens| && k != s && root < lens[k] && root < lens[s]
    requires Low(RevCode(lens, k), root) == Low(RevCode(lens, s), root)
    requires Wrote(t0, t1, base, n, lens[k] - root, Shr(RevCode(lens, k), root), 0, e)
    requires Filled(t0, base, n, lens[s] - root, Shr(RevCode(lens, s), root), f)
    ensures Filled(t1, base, n, lens[s] - root, Shr(RevCode(lens, s), root), f)
  {
    var w, r := lens[s] - root, Shr(RevCode(lens, s), root);
    forall i: nat | i < Pow2(n) && EndsIn(i, w, r)
      ensures t1[base + i] == f
    {
      if EndsIn(i, lens[k] - root, Shr(RevCode(lens, k), root)) {
        var h := Shl(i, root) + Low(RevCode(lens, s), root);
        WholeCode(lens, root, k, i, h);
        WholeCode(lens, root, s, i, h);
        LowPrefixFree(lens, k, s, h);
      }
    }
  }

  lemma WholeCode(lens: seq<nat>, root: nat, s: nat, i: nat, h: nat)
    requires s < |lens| && root < lens[s]
    requires h == Shl(i, root) + Low(RevCode(lens, s), root)
    requires Low(i, lens[s] - root) == Shr(RevCode(lens, s), root)
    ensures Low(h, lens[s]) == RevCode(lens, s)
  {
    var r := RevCode(lens, s);
    SplitUnique(i, Low(r, root), root);
    LowLow(h, root, lens[s]);
    Split(Low(h, lens[s]), root);
    Split(r, root);
  }

  /** Writing elsewhere leaves a placed symbol alone. */
  lemma KeepPlaced(t0: seq<Entry>, t1: seq<Entry>, at: nat, root: nat, end: nat, end': nat,
                   l: nat, r: nat, op: nat, val: nat, lo: nat, hi: nat)
    requires PlacedAs(t0, at, root, end, l, r, op, val)
    requires |t0| == |t1| && end <= end' <= |t1|
    requires forall i :: 0 <= i < |t0| && !(lo <= i < hi) ==> t1[i] == t0[i]
    requires at + Pow2(root) <= lo
    requires l > root ==> Behind(t0, at, root, lo - at, Low(r, root))
    ensures PlacedAs(t1, at, root, end', l, r, op, val)
    ensures l > root ==> Behind(t1, at, root, lo - at, Low(r, root))
  {
    hide Low, Shr, Pow2;
    if l > root {
      var e := t0[at + Low(r, root)];
      assert e == t1[at + Low(r, root)];
      KeepFilled(t0, t1, at + e.val, e.op, l - root, Shr(r, root), Entry(op, l - root, val), lo, hi);
    } else {
      KeepFilled(t0, t1, at, root, l, r, Entry(op, l, val), lo, hi);
    }
  }

  lemma KeepFilled(t0: seq<Entry>, t1: seq<Entry>, base: nat, n: nat, w: nat, r: nat, e: Entry, lo: nat, hi: nat)
    requires Filled(t0, base, n, w, r, e) && |t0| == |t1| && base + Pow2(n) <= lo
    requires forall i :: 0 <= i < |t0| && !(lo <= i < hi) ==> t1[i] == t0[i]
    ensures Filled(t1, base, n, w, r, e)
  {
  }

  lemma NewPlaced(t0: seq<Entry>, t1: seq<Entry>, ty: CodeType, lens: seq<nat>, at: nat, root: nat, c: Cursor, k: nat)
    requires k < |lens| <= MaxSymbols(ty) && CursorOk(t0, at, root, c) && InPlace(lens, root, c, k)
    requires WroteCode(t0, t1, ty, lens, at, root, c, k)
    ensures CursorOk(t1, at, root, c) && Kept(t1, ty, lens, at, root, c, k)
  {
    hide EntryOp, EntryVal, RevCode, Rank, Low, Shr, Pow2;
    if c.low >= 0 {
      WroteFills(t0, t1, at + c.off, c.curr, c.len - root, Shr(RevCode(lens, k), root), EntryFor(ty, k, c.len - root));
    }
  }

  lemma OldKept(t0: seq<Entry>, t1: seq<Entry>, ty: CodeType, lens: seq<nat>, at: nat, root: nat, c: Cursor, k: nat,
                s: nat)
    requires Fits(lens) && k < |lens| <= MaxSymbols(ty) && CursorOk(t0, at, root, c) && InPlace(lens, root, c, k)
    requires WroteCode(t0, t1, ty, lens, at, root, c, k)
    requires s < |lens| && s != k && 0 < lens[s] && Kept(t0, ty, lens, at, root, c, s)
    ensures Kept(t1, ty, lens, at, root, c, s)
  {
    if c.low < 0 {
      OldKeptRoot(t0, t1, ty, lens, at, root, c, k, s);
    } else if lens[s] > root && Low(RevCode(lens, s), root) == c.low {
      OldKeptHere(t0, t1, ty, lens, at, root, c, k, s);
    } else {
      OldKeptBehind(t0, t1, ty, lens, at, root, c, k, s);
    }
  }

  lemma OldKeptRoot(t0: seq<Entry>, t1: seq<Entry>, ty: CodeType, lens: seq<nat>, at: nat, root: nat, c: Cursor,
                    k: nat, s: nat)
    requires Fits(lens) && k < |lens| <= MaxSymbols(ty) && CursorOk(t0, at, root, c) && InPlace(lens, root, c, k)
    requires WroteCode(t0, t1, ty, lens, at, root, c, k) && c.low < 0
    requires s < |lens| && s != k && 0 < lens[s] && Kept(t0, ty, lens, at, root, c, s)
    ensures Kept(t1, ty, lens, at, root, c, s)
  {
    hide EntryOp, EntryVal, RevCode, Fits;
    KeepRoot(t0, t1, lens, at, root, k, s, EntryFor(ty, k, c.len), EntryFor(ty, s, lens[s]));
  }

  lemma OldKeptHere(t0: seq<Entry>, t1: seq<Entry>, ty: CodeType, lens: seq<nat>, at: nat, root: nat, c: Cursor,
                    k: nat, s: nat)
    requires Fits(lens) && k < |lens| <= MaxSymbols(ty) && CursorOk(t0, at, root, c) && InPlace(lens, root, c, k)
    requires WroteCode(t0, t1, ty, lens, at, root, c, k) && c.low >= 0
    requires s < |lens| && s != k && root < lens[s] && Low(RevCode(lens, s), root) == c.low
    requires Kept(t0, ty, lens, at, root, c, s)
    ensures Kept(t1, ty, lens, at, root, c, s)
  {
    hide EntryOp, EntryVal, RevCode, Fits, Low, Shr, Pow2, Rank;
    KeepSub(t0, t1, lens, at + c.off, c.curr, root, k, s,
      EntryFor(ty, k, c.len - root), EntryFor(ty, s, lens[s] - root));
  }

  lemma OldKeptBehind(t0: seq<Entry>, t1: seq<Entry>, ty: CodeType, lens: seq<nat>, at: nat, root: nat, c: Cursor,
                      k: nat, s: nat)
    requires k < |lens| <= MaxSymbols(ty) && CursorOk(t0, at, root, c) && InPlace(lens, root, c, k)
    requires WroteCode(t0, t1, ty, lens, at, root, c, k) && c.low >= 0
    requires s < |lens| && (lens[s] > root ==> Low(RevCode(lens, s), root) != c.low)
    requires Kept(t0, ty, lens, at, root, c, s)
    ensures Kept(t1, ty, lens, at, root, c, s)
  {
    hide EntryOp, EntryVal, RevCode, PlacedAs;
    KeepPlaced(t0, t1, at, root, at + c.used, at + c.used, lens[s], RevCode(lens, s),
      EntryOp(ty, s), EntryVal(ty, s), at + c.off, at + c.used);
  }

  /** Entering the code at the cursor. */
  lemma FillKeeps(t0: seq<Entry>, t1: seq<Entry>, ty: CodeType, lens: seq<nat>, at: nat, root: nat, c: Cursor, k: nat)
    requires Fits(lens) && k < |lens| <= MaxSymbols(ty) && Progress(t0, ty, lens, at, root, c)
    requires InPlace(lens, root, c, k) && WroteCode(t0, t1, ty, lens, at, root, c, k)
    ensures Progress(t1, ty, lens, at, root, c.(rank := c.rank + 1))
  {
    hide EntryOp, EntryVal, RevCode, WroteCode, Placed, Behind, Rank;
    NewPlaced(t0, t1, ty, lens, at, root, c, k);
    var c' := c.(rank := c.rank + 1);
    forall s | 0 <= s < |lens| && Entered(lens, c', s)
      ensures Kept(t1, ty, lens, at, root, c', s)
    {
      if s != k {
        if lens[s] == c.len && Rank(lens, s) == c.rank { SameRank(lens, s, k); }
        OldKept(t0, t1, ty, lens, at, root, c, k, s);
      }
    }
  }

  /** None of the codes entered so far is in group g. */
  ghost predicate FreshGroup(lens: seq<nat>, root: nat, c: Cursor, g: nat) {
    forall s :: 0 <= s < |lens| && Entered(lens, c, s) && lens[s] > root ==> Group(lens, root, s) != g
  }

  /** Opening a table for a new group. */
  lemma LinkKeeps(t0: seq<Entry>, ty: CodeType, lens: seq<nat>, at: nat, root: nat, c: Cursor, k: nat, curr: nat)
    requires Fits(lens) && k < |lens| <= MaxSymbols(ty) && Progress(t0, ty, lens, at, root, c)
    requires 0 < lens[k] == c.len && Rank(lens, k) == c.rank && c.len > root
    requires c.len - root <= curr <= MAXBITS && at + c.used + Pow2(curr) <= |t0|
    requires FreshGroup(lens, root, c, Group(lens, root, k))
    ensures var low := Low(RevCode(lens, k), root);
            Progress(t0[at + low := Entry(curr, root, c.used)], ty, lens, at, root,
              c.(low := low, off := c.used, curr := curr, used := c.used + Pow2(curr)))
  {
    hide EntryOp, EntryVal, Kept, RevCode, Code, Low, Pow2, Rank, Group, Left;
    var low := Low(RevCode(lens, k), root);
    var t1 := t0[at + low := Entry(curr, root, c.used)];
    var c' := c.(low := low, off := c.used, curr := curr, used := c.used + Pow2(curr));
    forall s | 0 <= s < |lens| && Entered(lens, c', s)
      ensures Kept(t1, ty, lens, at, root, c', s)
    {
      assert Entered(lens, c, s);
      LinkKept(t0, t1, ty, lens, at, root, c, c', k, s);
    }
  }

  lemma LinkKept(t0: seq<Entry>, t1: seq<Entry>, ty: CodeType, lens: seq<nat>, at: nat, root: nat,
                 c: Cursor, c': Cursor, k: nat, s: nat)
    requires Fits(lens) && k < |lens| <= MaxSymbols(ty) && CursorOk(t0, at, root, c)
    requires 0 < lens[k] == c.len && lens[k] > root && s < |lens| && 0 < lens[s] && s != k
    requires c'.low == Low(RevCode(lens, k), root) && c'.off == c.used <= c'.used && at + c'.used <= |t0|
    requires t1 == t0[at + Low(RevCode(lens, k), root) := Entry(c'.curr, root, c.used)]
    requires Kept(t0, ty, lens, at, root, c, s)
    requires lens[s] > root ==> Group(lens, root, s) != Group(lens, root, k)
    ensures Kept(t1, ty, lens, at, root, c', s)
  {
    hide EntryOp, EntryVal, RevCode, Low, Pow2, Group, Code, Rev, Left;
    if lens[s] > root {
      GroupsDiffer(lens, root, k, s);
      LinkKeepsLong(t0, t1, at, root, at + c.used, at + c'.used, lens[s], RevCode(lens, s),
        EntryOp(ty, s), EntryVal(ty, s), Low(RevCode(lens, k), root));
    } else {
      LinkIsFree(lens, root, k, s);
      LinkKeepsShort(t0, t1, at, root, lens[s], RevCode(lens, s),
        Entry(EntryOp(ty, s), lens[s], EntryVal(ty, s)), Low(RevCode(lens, k), root));
    }
  }

  lemma GroupsDiffer(lens: seq<nat>, root: nat, k: nat, s: nat)
    requires Fits(lens) && k < |lens| && s < |lens| && root < lens[s] && root < lens[k]
    requires Group(lens, root, s) != Group(lens, root, k)
    ensures Low(RevCode(lens, s), root) != Low(RevCode(lens, k), root) && Low(RevCode(lens, k), root) < Pow2(root)
  {
    GroupIndex(lens, root, s);
    GroupIndex(lens, root, k);
    GroupBound(lens, root, s);
    GroupBound(lens, root, k);
    hide RevCode, Group, Code, Left;
    if Low(RevCode(lens, s), root) == Low(RevCode(lens, k), root) {
      RevInjective(Group(lens, root, s), Group(lens, root, k), root);
    }
  }

  lemma LinkIsFree(lens: seq<nat>, root: nat, k: nat, s: nat)
    requires Fits(lens) && k < |lens| && s < |lens| && 0 < lens[s] <= root < lens[k]
    ensures !EndsIn(Low(RevCode(lens, k), root), lens[s], RevCode(lens, s))
  {
    var r := RevCode(lens, k);
    LowSmall(r, lens[k]);
    LowLow(r, lens[s], root);
    if Low(r, lens[s]) == RevCode(lens, s) { LowPrefixFree(lens, k, s, r); }
  }

  lemma LinkKeepsShort(t0: seq<Entry>, t1: seq<Entry>, at: nat, root: nat, l: nat, r: nat, e: Entry, low: nat)
    requires Filled(t0, at, root, l, r, e) && low < Pow2(root) && !EndsIn(low, l, r)
    requires |t1| == |t0| && forall i :: 0 <= i < |t0| && i != at + low ==> t1[i] == t0[i]
    ensures Filled(t1, at, root, l, r, e)
  {
  }

  lemma LinkKeepsLong(t0: seq<Entry>, t1: seq<Entry>, at: nat, root: nat, end: nat, end': nat,
                      l: nat, r: nat, op: nat, val: nat, low: nat)
    requires PlacedAs(t0, at, root, end, l, r, op, val) && l > root && end <= end' <= |t1|
    requires low < Pow2(root) && low != Low(r, root)
    requires |t1| == |t0| && forall i :: 0 <= i < |t0| && i != at + low ==> t1[i] == t0[i]
    ensures PlacedAs(t1, at, root, end', l, r, op, val)
    ensures Behind(t1, at, root, end - at, Low(r, root))
  {
    var e := t0[at + Low(r, root)];
    assert t1[at + Low(r, root)] == e;
    assert Filled(t1, at + e.val, e.op, l - root, Shr(r, root), Entry(op, l - root, val));
  }

  // ---- Moving to the next code ----

  /** The length of the code after the last one of length len. */
  lemma NextLength(lens: seq<nat>, len: nat) returns (l: nat)
    requires len < Longest(lens, MAXBITS)
    ensures len < l <= Longest(lens, MAXBITS) && Count(lens, l) > 0
    ensures forall x :: len < x < l ==> Count(lens, x) == 0
    ensures len > 0 ==> Offset(lens, l) == Offset(lens, len) + Count(lens, len)
    ensures len > 0 ==> FirstCode(lens, l) == Shl(FirstCode(lens, len) + Count(lens, len), l - len)
  {
    l := len + 1;
    while Count(lens, l) == 0
      invariant len < l <= Longest(lens, MAXBITS)
      invariant forall x :: len < x < l ==> Count(lens, x) == 0
      invariant len > 0 ==> Offset(lens, l) == Offset(lens, len) + Count(lens, len)
      invariant len > 0 ==> FirstCode(lens, l) == Shl(FirstCode(lens, len) + Count(lens, len), l - len)
      decreases Longest(lens, MAXBITS) - l
    {
      l := l + 1;
    }
  }

  /** Nothing lies between the last code of one length and the first of the next. */
  lemma EnteredNext(lens: seq<nat>, c: Cursor, l: nat, s: nat)
    requires s < |lens| && c.len < l && c.rank == Count(lens, c.len) && 0 < c.len
    requires forall x :: c.len < x < l ==> Count(lens, x) == 0
    ensures Entered(lens, c.(len := l, rank := 0), s) <==> Entered(lens, c, s)
  {
    if lens[s] > 0 { RankOf(lens, s); }
  }

  lemma ProgressNext(t: seq<Entry>, ty: CodeType, lens: seq<nat>, at: nat, root: nat, c: Cursor, l: nat)
    requires |lens| <= MaxSymbols(ty) && Progress(t, ty, lens, at, root, c)
    requires c.len < l && c.rank == Count(lens, c.len) && 0 < c.len
    requires forall x :: c.len < x < l ==> Count(lens, x) == 0
    ensures Progress(t, ty, lens, at, root, c.(len := l, rank := 0))
  {
    hide Placed, Behind, RevCode, Rank;
    var c' := c.(len := l, rank := 0);
    forall s | 0 <= s < |lens| && Entered(lens, c', s)
      ensures Kept(t, ty, lens, at, root, c', s)
    {
      EnteredNext(lens, c, l, s);
    }
  }

  lemma {:induction false} NoneBeyond(lens: seq<nat>, max: nat, l: nat)
    requires max == Longest(lens, l) && Left(lens, l) == 0
    ensures Left(lens, max) == 0
  {
    if max < l { NoneBeyond(lens, max, l - 1); }
  }

  lemma LookAhead(lens: seq<nat>, g: nat, drop: nat, curr: nat)
    ensures FirstCode(lens, curr + 1 + drop) == 2 * (FirstCode(lens, curr + drop) + Count(lens, curr + drop))
    ensures Shl(g + 1, curr + 1) == 2 * Shl(g + 1, curr)
  {
    assert curr + 1 + drop - 1 == curr + drop;
  }

  /** The look-ahead in the length counts that sizes a new table: with the next
      code the first of its group, it stops at the longest code of the group. */
  method SubBits(lens: seq<nat>, count: array<nat>, len: nat, drop: nat, max: nat, ghost g: nat, ghost rank: nat)
    returns (curr: nat)
    requires Complete(lens) && count.Length == MAXBITS + 1 && max == Longest(lens, MAXBITS)
    requires drop < len <= max && rank < Count(lens, len) && count[len] == Count(lens, len) - rank
    requires forall l :: len < l <= MAXBITS ==> count[l] == Count(lens, l)
    requires FirstCode(lens, len) + rank == Shl(g, len - drop) && g < Pow2(drop)
    ensures len - drop <= curr && curr + drop <= max
    ensures GroupMax(lens, drop, g, |lens|) == curr + drop
  {
    hide Longest, CountIn, GroupMax, FirstCode, Shl, Pow2;
    curr := len - drop;
    var left: int := Pow2(curr);
    ShlAdd(g, 1, curr);
    ShlOne(curr);
    while curr + drop < max
      invariant len - drop <= curr && curr + drop <= max && left > 0
      invariant left - count[curr + drop] == Shl(g + 1, curr) - FirstCode(lens, curr + drop) - Count(lens, curr + drop)
      invariant FirstCode(lens, curr + drop) < Shl(g + 1, curr)
    {
      left := left - count[curr + drop];
      if left <= 0 { break; }
      LookAhead(lens, g, drop, curr);
      curr := curr + 1;
      left := 2 * left;
    }
    if curr + drop == max {
      AllOnes(lens, max);
      ShlMonotone(g + 1, Pow2(drop), curr);
      ShlPow2(drop, curr);
    }
    GroupWidth(lens, drop, g, curr + drop);
  }

  // ---- The main loop ----

  function Here(lens: seq<nat>, c: Cursor): (k: nat)
    requires c.rank < Count(lens, c.len)
    ensures k < |lens| && lens[k] == c.len
  {
    Sym(lens, c.len, c.rank)
  }

  /** (l, r) is the position of the code after the one at the cursor. */
  ghost predicate Next(lens: seq<nat>, c: Cursor, l: nat, r: nat) {
    && 0 < c.len <= l && c.rank < Count(lens, c.len) && r < Count(lens, l)
    && if l == c.len then r == c.rank + 1
       else c.rank + 1 == Count(lens, c.len) && r == 0 && forall x :: c.len < x < l ==> Count(lens, x) == 0
  }

  lemma {:induction false} SkipEmpty(lens: seq<nat>, len: nat, l: nat)
    requires 0 < len < l && forall x :: len < x < l ==> Count(lens, x) == 0
    ensures FirstCode(lens, l) == Shl(FirstCode(lens, len) + Count(lens, len), l - len)
  {
    if len + 1 < l { SkipEmpty(lens, len, l - 1); }
  }

  lemma NextCode(lens: seq<nat>, c: Cursor, l: nat, r: nat)
    requires Next(lens, c, l, r)
    ensures FirstCode(lens, l) + r == Shl(FirstCode(lens, c.len) + c.rank + 1, l - c.len)
  {
    if l > c.len { SkipEmpty(lens, c.len, l); }
  }

  /** The cursor points at the next code to enter and at the table it goes to. */
  ghost predicate AtCode(lens: seq<nat>, root: nat, c: Cursor) {
    && 0 < c.len <= Longest(lens, MAXBITS) && c.rank < Count(lens, c.len)
    && InPlace(lens, root, c, Here(lens, c))
    && (c.low >= 0 ==>
        var g := Group(lens, root, Here(lens, c));
        && GroupMax(lens, root, g, |lens|) == c.curr + root
        && c.used == Pow2(root) + SubSizes(lens, root, g + 1))
  }

  lemma SameTable(lens: seq<nat>, root: nat, c: Cursor, l: nat, r: nat)
    requires Fits(lens) && AtCode(lens, root, c) && Next(lens, c, l, r) && l <= Longest(lens, MAXBITS)
    requires l <= root || Low(RevCode(lens, Sym(lens, l, r)), root) == c.low
    ensures AtCode(lens, root, c.(len := l, rank := r))
  {
    var k, k' := Here(lens, c), Sym(lens, l, r);
    if l > root {
      GroupIndex(lens, root, k');
      GroupBound(lens, root, k');
      if c.low >= 0 {
        GroupIndex(lens, root, k);
        GroupBound(lens, root, k);
        RevInjective(Group(lens, root, k), Group(lens, root, k'), root);
        GroupMaxBounds(lens, root, Group(lens, root, k), |lens|, k');
      }
    }
  }

  lemma {:induction false} GroupMaxBounds(lens: seq<nat>, root: nat, g: nat, n: nat, s: nat)
    requires n <= |lens| && s < n && InGroup(lens, root, g, s)
    ensures lens[s] <= GroupMax(lens, root, g, n)
  {
    if s < n - 1 { GroupMaxBounds(lens, root, g, n - 1, s); }
  }

  /** Where a group starts: at the first code with its root bits. */
  lemma GroupStart(c: nat, len: nat, l: nat, root: nat)
    requires len <= l && root < l
    ensures len <= root ==> Shl(c + 1, l - len) == Shl(Shr(Shl(c + 1, l - len), l - root), l - root)
    ensures len > root ==>
      var x := Shl(c + 1, l - len);
      Shr(x, l - root) == Shr(c, len - root)
      || (Shr(x, l - root) == Shr(c, len - root) + 1 && x == Shl(Shr(x, l - root), l - root))
  {
    ShlOne(l - root);
    if len <= root {
      ShlShl(c + 1, root - len, l - root);
      SplitUnique(Shl(c + 1, root - len), 0, l - root);
    } else {
      ShlOne(l - len);
      SplitUnique(c + 1, 0, l - len);
      ShrShr(Shl(c + 1, l - len), l - len, len - root);
      ShrStep(c, len - root);
      ShlShl(Shr(c + 1, len - root), len - root, l - len);
    }
  }

  lemma NewTable(lens: seq<nat>, root: nat, c: Cursor, l: nat, r: nat)
    requires Fits(lens) && AtCode(lens, root, c) && Next(lens, c, l, r) && root < l <= Longest(lens, MAXBITS)
    requires Low(RevCode(lens, Sym(lens, l, r)), root) != c.low
    requires c.low < 0 ==> c.used == Pow2(root)
    ensures var g := Group(lens, root, Sym(lens, l, r));
            && FirstCode(lens, l) + r == Shl(g, l - root) && g < Pow2(root)
            && c.used == Pow2(root) + SubSizes(lens, root, g)
            && forall s :: 0 <= s < |lens| && lens[s] > root && Entered(lens, c.(rank := c.rank + 1), s)
                 ==> Group(lens, root, s) != g
  {
    GroupBound(lens, root, Sym(lens, l, r));
    if c.low >= 0 { FurtherTable(lens, root, c, l, r); } else { FirstTable(lens, root, c, l, r); }
  }

  lemma GroupAfter(lens: seq<nat>, root: nat, c: Cursor, l: nat, r: nat)
    requires AtCode(lens, root, c) && Next(lens, c, l, r) && root < l
    ensures var k, k' := Here(lens, c), Sym(lens, l, r);
            var g := Group(lens, root, k');
            && FirstCode(lens, l) + r == Code(lens, k')
            && (c.len <= root ==> Code(lens, k') == Shl(g, l - root))
            && (c.len > root ==>
                  (g == Group(lens, root, k)
                   || (g == Group(lens, root, k) + 1 && Code(lens, k') == Shl(g, l - root))))
  {
    hide Shr, Shl, Low, FirstCode, CountIn, Longest, GroupMax, SubSizes, Pow2;
    NextCode(lens, c, l, r);
    GroupStart(FirstCode(lens, c.len) + c.rank, c.len, l, root);
  }

  lemma FurtherTable(lens: seq<nat>, root: nat, c: Cursor, l: nat, r: nat)
    requires Fits(lens) && AtCode(lens, root, c) && Next(lens, c, l, r) && root < l && c.low >= 0
    requires Low(RevCode(lens, Sym(lens, l, r)), root) != c.low
    ensures var g := Group(lens, root, Sym(lens, l, r));
            && FirstCode(lens, l) + r == Shl(g, l - root)
            && c.used == Pow2(root) + SubSizes(lens, root, g)
            && forall s :: 0 <= s < |lens| && lens[s] > root && Entered(lens, c.(rank := c.rank + 1), s)
                 ==> Group(lens, root, s) != g
  {
    hide Longest, CountIn, GroupMax, Shl, Shr, Low, Pow2, FirstCode, SubSizes, Bounded, Entered;
    var k, k' := Here(lens, c), Sym(lens, l, r);
    var g := Group(lens, root, k');
    GroupAfter(lens, root, c, l, r);
    assert g != Group(lens, root, k) by {
      GroupIndex(lens, root, k');
      GroupIndex(lens, root, k);
    }
    hide Group, Code, FirstCode;
    forall s | 0 <= s < |lens| && lens[s] > root && Entered(lens, c.(rank := c.rank + 1), s)
      ensures Group(lens, root, s) != g
    {
      if s != k { EnteredBefore(lens, root, c, k, s); }
    }
  }

  lemma FirstTable(lens: seq<nat>, root: nat, c: Cursor, l: nat, r: nat)
    requires Fits(lens) && AtCode(lens, root, c) && Next(lens, c, l, r) && root < l && c.low < 0
    requires c.used == Pow2(root)
    ensures var g := Group(lens, root, Sym(lens, l, r));
            && FirstCode(lens, l) + r == Shl(g, l - root)
            && c.used == Pow2(root) + SubSizes(lens, root, g)
  {
    var k' := Sym(lens, l, r);
    GroupAfter(lens, root, c, l, r);
    hide Group, Code, FirstCode;
    forall t | 0 <= t < |lens| && lens[t] > root
      ensures Group(lens, root, t) >= Group(lens, root, k')
    {
      if t != k' { NotYet(lens, root, c, l, r, k', t); }
    }
    SubSizesNone(lens, root, Group(lens, root, k'));
  }

  lemma EnteredBefore(lens: seq<nat>, root: nat, c: Cursor, k: nat, s: nat)
    requires s < |lens| && k < |lens| && s != k && lens[k] == c.len > root && Rank(lens, k) == c.rank
    requires lens[s] > root && Entered(lens, c.(rank := c.rank + 1), s)
    ensures Group(lens, root, s) <= Group(lens, root, k)
  {
    if lens[s] == c.len {
      if Rank(lens, s) == c.rank { SameRank(lens, s, k); }
      RankOrder(lens, s, k);
    }
    GroupOrder(lens, root, s, k);
  }

  lemma NotYet(lens: seq<nat>, root: nat, c: Cursor, l: nat, r: nat, k: nat, t: nat)
    requires Next(lens, c, l, r) && c.len <= root < l && k < |lens| && lens[k] == l && Rank(lens, k) == r
    requires t < |lens| && lens[t] > root && t != k
    ensures Group(lens, root, t) >= Group(lens, root, k)
  {
    RankOf(lens, t);
    if lens[t] == l {
      if Rank(lens, t) == 0 { SameRank(lens, t, k); }
      RankOrder(lens, k, t);
    }
    GroupOrder(lens, root, k, t);
  }

  lemma LongestBounds(lens: seq<nat>, s: nat)
    requires Bounded(lens, MAXBITS) && s < |lens|
    ensures lens[s] <= Longest(lens, MAXBITS)
  {
    if lens[s] > Longest(lens, MAXBITS) {
      RankOf(lens, s);
      LongestLast(lens, MAXBITS, lens[s]);
    }
  }

  /** After the last code all tables are there. */
  lemma AllTables(lens: seq<nat>, root: nat, c: Cursor)
    requires Bounded(lens, MAXBITS)
    requires AtCode(lens, root, c) && if c.low < 0 then c.used == Pow2(root) else Complete(lens)
    requires c.len == Longest(lens, MAXBITS) && c.rank + 1 == Count(lens, c.len)
    ensures c.used == TableSize(lens, root)
  {
    if c.low < 0 {
      forall t | 0 <= t < |lens|
        ensures lens[t] <= root
      {
        LongestBounds(lens, t);
      }
      SubSizesNone(lens, root, Pow2(root));
    } else {
      LastCode(lens, root, c);
    }
  }

  lemma LastCode(lens: seq<nat>, root: nat, c: Cursor)
    requires Complete(lens) && c.len == Longest(lens, MAXBITS) > root && c.rank + 1 == Count(lens, c.len)
    ensures Group(lens, root, Here(lens, c)) == Pow2(root) - 1
  {
    hide Left, FirstCode, Rank, Longest, Pow2, Sym, Shr;
    AllOnes(lens, c.len);
    LastGroup(root, c.len - root, c.len);
  }

  lemma AllOnes(lens: seq<nat>, max: nat)
    requires Complete(lens) && max == Longest(lens, MAXBITS)
    ensures FirstCode(lens, max) + Count(lens, max) == Pow2(max)
  {
    NoneBeyond(lens, max, MAXBITS);
    LeftIsFree(lens, max);
  }

  lemma LastGroup(root: nat, d: nat, l: nat)
    requires l == root + d
    ensures Shr(Pow2(l) - 1, d) == Pow2(root) - 1
  {
    var a := Pow2(root) - 1;
    ShlPow2(root, d);
    ShlAdd(a, 1, d);
    ShlOne(d);
    assert Pow2(root + d) - 1 == Shl(a, d) + (Pow2(d) - 1);
    SplitUnique(a, Pow2(d) - 1, d);
  }

  lemma LastCarry(lens: seq<nat>, max: nat)
    requires Bounded(lens, MAXBITS) && max == Longest(lens, MAXBITS) && max > 0
    requires Complete(lens) || (Left(lens, MAXBITS) > 0 && max == 1)
    ensures Complete(lens) ==> Rev(FirstCode(lens, max) + Count(lens, max), max) == 0
    ensures !Complete(lens) ==> Rev(FirstCode(lens, max) + Count(lens, max), max) == 1 && Count(lens, 1) == 1
  {
    if Complete(lens) {
      AllOnes(lens, max);
      RevPow2(max);
    } else {
      OneCode(lens);
      assert Rev(1, 1) == 1;
    }
  }

  lemma {:induction false} RevPow2(n: nat)
    ensures Rev(Pow2(n), n) == 0
  {
    if n > 0 { RevPow2(n - 1); }
  }

  lemma OneCode(lens: seq<nat>)
    requires Left(lens, MAXBITS) > 0 && Count(lens, 1) > 0
    ensures Count(lens, 1) == 1 && FirstCode(lens, 1) == 0
  {
    if Left(lens, 1) <= 0 { NothingLeft(lens, 1, MAXBITS); }
    assert Left(lens, 1) == 2 - Count(lens, 1);
  }

  lemma {:induction false} NothingLeft(lens: seq<nat>, l: nat, m: nat)
    requires l <= m && Left(lens, l) <= 0
    ensures Left(lens, m) <= 0
  {
    if l < m { NothingLeft(lens, l, m - 1); }
  }

  ghost predicate Untouched(t0: seq<Entry>, t1: seq<Entry>, lo: nat, hi: nat) {
    |t0| == |t1| && forall i :: 0 <= i < |t0| && !(lo <= i < hi) ==> t1[i] == t0[i]
  }

  /** The codes that inflate_table accepts: complete ones, and a single code of
      one bit for LENS and DISTS. */
  ghost predicate Acceptable(ty: CodeType, lens: seq<nat>) {
    && Bounded(lens, MAXBITS)
    && (Left(lens, MAXBITS) == 0
        || (Left(lens, MAXBITS) > 0 && ty != CODES && Longest(lens, MAXBITS) == 1))
  }

  /** The loop state of the code agrees with the cursor. */
  ghost predicate InStep(lens: seq<nat>, count: seq<nat>, c: Cursor, sym: nat, huff: nat) {
    && 0 < c.len <= MAXBITS && |count| == MAXBITS + 1
    && c.rank < Count(lens, c.len) && sym == Offset(lens, c.len) + c.rank
    && huff == Rev(FirstCode(lens, c.len) + c.rank, c.len)
    && count[c.len] == Count(lens, c.len) - c.rank
    && forall l :: c.len < l <= MAXBITS ==> count[l] == Count(lens, l)
  }

  lemma {:induction false} ZeroStart(lens: seq<nat>, l: nat)
    requires forall x :: 1 <= x < l ==> Count(lens, x) == 0
    ensures Offset(lens, l) == 0 && FirstCode(lens, l) == 0 && Rev(0, l) == 0
  {
    if l > 0 {
      ZeroStart(lens, l - 1);
      assert l > 1 ==> Count(lens, l - 1) == 0;
    }
  }

  lemma FirstCursor(lens: seq<nat>, t: seq<Entry>, ty: CodeType, at: nat, root: nat, min: nat)
    requires |lens| <= MaxSymbols(ty) && at + Pow2(root) <= |t| && 0 < min <= root
    requires forall x :: 1 <= x < min ==> Count(lens, x) == 0
    requires Count(lens, min) > 0 && min <= Longest(lens, MAXBITS)
    ensures var c := Cursor(min, 0, -1, 0, root, Pow2(root));
            Progress(t, ty, lens, at, root, c) && AtCode(lens, root, c)
  {
    hide Kept, RevCode;
    var c := Cursor(min, 0, -1, 0, root, Pow2(root));
    forall s | 0 <= s < |lens|
      ensures !Entered(lens, c, s)
    {
      NothingEntered(lens, c, s);
    }
  }

  lemma NothingEntered(lens: seq<nat>, c: Cursor, s: nat)
    requires s < |lens| && c.rank == 0
    requires forall x :: 1 <= x < c.len ==> Count(lens, x) == 0
    ensures !Entered(lens, c, s)
  {
    if lens[s] > 0 { RankOf(lens, s); }
  }

  lemma HuffNext(lens: seq<nat>, c: Cursor, l: nat, r: nat)
    requires Next(lens, c, l, r)
    ensures Rev(FirstCode(lens, c.len) + c.rank + 1, c.len) == Rev(FirstCode(lens, l) + r, l)
    ensures Offset(lens, l) + r == Offset(lens, c.len) + c.rank + 1
  {
    NextCode(lens, c, l, r);
    RevShl(FirstCode(lens, c.len) + c.rank + 1, c.len, l - c.len);
    if l > c.len { OffsetSkip(lens, c.len, l); }
  }

  lemma {:induction false} OffsetSkip(lens: seq<nat>, len: nat, l: nat)
    requires 0 < len < l && forall x :: len < x < l ==> Count(lens, x) == 0
    ensures Offset(lens, l) == Offset(lens, len) + Count(lens, len)
  {
    if len + 1 < l {
      OffsetSkip(lens, len, l - 1);
      assert Count(lens, l - 1) == 0;
    }
  }

  lemma EnteredSame(lens: seq<nat>, c: Cursor, l: nat, r: nat, s: nat)
    requires Next(lens, c, l, r) && s < |lens|
    ensures Entered(lens, c.(len := l, rank := r), s) <==> Entered(lens, c.(rank := c.rank + 1), s)
  {
    if l > c.len { EnteredNext(lens, c.(rank := c.rank + 1), l, s); }
  }

  /** Opening the table of the next code's group. */
  lemma OpenTable(t: seq<Entry>, ty: CodeType, lens: seq<nat>, at: nat, root: nat, c: Cursor, l: nat, r: nat, curr: nat)
    requires Fits(lens) && |lens| <= MaxSymbols(ty)
    requires AtCode(lens, root, c) && Next(lens, c, l, r) && root < l <= Longest(lens, MAXBITS)
    requires Progress(t, ty, lens, at, root, c.(len := l, rank := r))
    requires Low(RevCode(lens, Sym(lens, l, r)), root) != c.low
    requires GroupMax(lens, root, Group(lens, root, Sym(lens, l, r)), |lens|) == curr + root
    requires l - root <= curr <= MAXBITS && at + c.used + Pow2(curr) <= |t|
    ensures var low := Low(RevCode(lens, Sym(lens, l, r)), root);
            var c' := Cursor(l, r, low, c.used, curr, c.used + Pow2(curr));
            && Progress(t[at + low := Entry(curr, root, c.used)], ty, lens, at, root, c')
            && AtCode(lens, root, c')
  {
    hide Group, Code, FirstCode, RevCode, Kept, GroupMax, SubSizes, Low, Pow2, Shl, Entered, Longest;
    NewTable(lens, root, c, l, r);
    OpenedAt(lens, root, c, l, r, curr);
    hide AtCode;
    var g := Group(lens, root, Sym(lens, l, r));
    assert FreshGroup(lens, root, c.(len := l, rank := r), g) by {
      forall s | 0 <= s < |lens| && Entered(lens, c.(len := l, rank := r), s) && lens[s] > root
        ensures Group(lens, root, s) != g
      {
        EnteredSame(lens, c, l, r, s);
      }
    }
    LinkKeeps(t, ty, lens, at, root, c.(len := l, rank := r), Sym(lens, l, r), curr);
  }

  lemma SubSizesStep(lens: seq<nat>, root: nat, g: nat, curr: nat)
    requires GroupMax(lens, root, g, |lens|) == curr + root && curr > 0
    ensures SubSizes(lens, root, g + 1) == SubSizes(lens, root, g) + Pow2(curr)
  {
  }

  lemma OpenedAt(lens: seq<nat>, root: nat, c: Cursor, l: nat, r: nat, curr: nat)
    requires 0 < l <= Longest(lens, MAXBITS) && r < Count(lens, l) && root < l && l - root <= curr
    requires GroupMax(lens, root, Group(lens, root, Sym(lens, l, r)), |lens|) == curr + root
    requires c.used == Pow2(root) + SubSizes(lens, root, Group(lens, root, Sym(lens, l, r)))
    ensures AtCode(lens, root,
      Cursor(l, r, Low(RevCode(lens, Sym(lens, l, r)), root), c.used, curr, c.used + Pow2(curr)))
  {
    hide Group, RevCode, GroupMax;
    SubSizesStep(lens, root, Group(lens, root, Sym(lens, l, r)), curr);
  }

  lemma Finished(t: seq<Entry>, ty: CodeType, lens: seq<nat>, at: nat, root: nat, c: Cursor)
    requires |lens| <= MaxSymbols(ty) && Bounded(lens, MAXBITS)
    requires Progress(t, ty, lens, at, root, c)
    requires c.len == Longest(lens, MAXBITS) > 0 && c.rank == Count(lens, c.len)
    ensures AllPlaced(t, ty, lens, at, root, at + c.used)
  {
    hide Placed, CursorOk, Behind, RevCode, Entered;
    forall s | 0 <= s < |lens| && lens[s] > 0
      ensures Placed(t, ty, lens, at, root, at + c.used, s)
    {
      EnteredAll(lens, c, s);
    }
  }

  lemma EnteredAll(lens: seq<nat>, c: Cursor, s: nat)
    requires Bounded(lens, MAXBITS) && s < |lens| && lens[s] > 0
    requires c.len == Longest(lens, MAXBITS) && c.rank == Count(lens, c.len)
    ensures Entered(lens, c, s)
  {
    LongestBounds(lens, s);
    RankOf(lens, s);
  }

  lemma InvalidKeeps(t: seq<Entry>, ty: CodeType, lens: seq<nat>, at: nat, e: Entry)
    requires |lens| <= MaxSymbols(ty) && Bounded(lens, MAXBITS) && AllPlaced(t, ty, lens, at, 1, at + 2)
    requires Longest(lens, MAXBITS) == 1 && Count(lens, 1) == 1 && at + 2 <= |t|
    ensures AllPlaced(t[at + 1 := e], ty, lens, at, 1, at + 2)
  {
    hide Placed;
    forall s | 0 <= s < |lens| && lens[s] > 0
      ensures Placed(t[at + 1 := e], ty, lens, at, 1, at + 2, s)
    {
      InvalidKeepsOne(t, ty, lens, at, e, s);
    }
  }

  lemma InvalidKeepsOne(t: seq<Entry>, ty: CodeType, lens: seq<nat>, at: nat, e: Entry, s: nat)
    requires |lens| <= MaxSymbols(ty) && Bounded(lens, MAXBITS) && s < |lens| && lens[s] > 0
    requires Placed(t, ty, lens, at, 1, at + 2, s)
    requires Longest(lens, MAXBITS) == 1 && Count(lens, 1) == 1 && at + 2 <= |t|
    ensures Placed(t[at + 1 := e], ty, lens, at, 1, at + 2, s)
  {
    hide EntryOp, EntryVal;
    OnlyCode(lens, s);
    var t' := t[at + 1 := e];
    LinkKeepsShort(t, t', at, 1, 1, 0, Entry(EntryOp(ty, s), 1, EntryVal(ty, s)), 1);
  }

  lemma OnlyCode(lens: seq<nat>, s: nat)
    requires Bounded(lens, MAXBITS) && s < |lens| && lens[s] > 0
    requires Longest(lens, MAXBITS) == 1 && Count(lens, 1) == 1
    ensures lens[s] == 1 && RevCode(lens, s) == 0 && !EndsIn(1, 1, 0)
  {
    LongestBounds(lens, s);
    RankOf(lens, s);
    assert FirstCode(lens, 1) == 0;
  }

  /** Create the entry for symbol k and replicate it over the indices that end
      in its code. */
  method EnterCode(ty: CodeType, lens: seq<nat>, table: array<Entry>, at: nat, root: nat,
                   next: nat, curr: nat, drop: nat, len: nat, huff: nat, k: nat, ghost c: Cursor)
    requires Fits(lens) && k < |lens| <= MaxSymbols(ty) && drop <= len
    requires Progress(table[..], ty, lens, at, root, c) && InPlace(lens, root, c, k)
    requires at <= next && c == Cursor(len, c.rank, c.low, next - at, curr, c.used)
    requires drop == (if c.low < 0 then 0 else root) && huff == RevCode(lens, k)
    modifies table
    ensures Progress(table[..], ty, lens, at, root, c.(rank := c.rank + 1))
    ensures Untouched(old(table[..]), table[..], at, at + c.used)
  {
    hide EntryOp, EntryVal, Kept, Low, RevCode, Fits;
    var here := EntryFor(ty, k, len - drop);
    ShrBound(huff, drop, len);
    Fill(table, next, curr, len - drop, Shr(huff, drop), here);
    FillKeeps(old(table[..]), table[..], ty, lens, at, root, c, k);
  }

  /** Size the table for the next code's group, check for room and point the
      root entry to it. */
  method NewSubTable(ty: CodeType, lens: seq<nat>, table: array<Entry>, at: nat, root: nat, count: array<nat>, max: nat,
                     next: nat, len: nat, huff: nat, used: nat, ghost c: Cursor, ghost r: nat)
    returns (full: bool, curr: nat, used': nat)
    requires Acceptable(ty, lens) && |lens| <= MaxSymbols(ty) && Complete(lens) && ty != CODES
    requires count.Length == MAXBITS + 1 && max == Longest(lens, MAXBITS)
    requires AtCode(lens, root, c) && Next(lens, c, len, r) && root < len <= max
    requires InStep(lens, count[..], c.(len := len, rank := r), Offset(lens, len) + r, huff)
    requires Progress(table[..], ty, lens, at, root, c.(len := len, rank := r))
    requires Low(huff, root) != c.low && used == c.used <= Enough(ty) && at + Enough(ty) <= table.Length
    requires next == at + c.used
    modifies table
    ensures used' == used + Pow2(curr) && (full <==> used' > Enough(ty))
    ensures full ==> TableSize(lens, root) > Enough(ty) && table[..] == old(table[..])
    ensures !full ==>
      var c' := Cursor(len, r, Low(huff, root), used, curr, used');
      Progress(table[..], ty, lens, at, root, c') && AtCode(lens, root, c')
    ensures Untouched(old(table[..]), table[..], at, at + used)
  {
    hide Low, Shr, Shl, Pow2, EntryOp, EntryVal, OffsetIn, CountIn, Left, Kept, GroupMax, AtCode, FirstCode;
    ghost var g := Group(lens, root, Sym(lens, len, r));
    NewTable(lens, root, c, len, r);
    curr := SubBits(lens, count, len, root, max, g, r);
    used' := used + Pow2(curr);
    SubSizesGrow(lens, root, g + 1, Pow2(root));
    SubSizesStep(lens, root, g, curr);
    if used' > Enough(ty) { return true, curr, used'; }
    full := false;
    OpenTable(table[..], ty, lens, at, root, c, len, r, curr);
    var low := Low(huff, root);
    table[at + low] := Entry(curr, root, next - at);
    assert table[..] == old(table[..])[at + low := Entry(curr, root, next - at)];
  }

  lemma HuffIsCode(lens: seq<nat>, l: nat, r: nat)
    requires r < Count(lens, l)
    ensures RevCode(lens, Sym(lens, l, r)) == Rev(FirstCode(lens, l) + r, l)
  {
  }

  lemma LongIsComplete(ty: CodeType, lens: seq<nat>, root: nat, c: Cursor)
    requires Acceptable(ty, lens) && 0 < c.len <= Longest(lens, MAXBITS)
    ensures Longest(lens, MAXBITS) > 1 ==> Complete(lens)
  {
  }

  lemma CursorFacts(t: seq<Entry>, ty: CodeType, lens: seq<nat>, at: nat, root: nat, c: Cursor)
    requires |lens| <= MaxSymbols(ty) && Progress(t, ty, lens, at, root, c) && AtCode(lens, root, c)
    ensures 0 < c.len <= Longest(lens, MAXBITS) && c.rank < Count(lens, c.len) && InPlace(lens, root, c, Here(lens, c))
    ensures c.low >= 0 ==> c.len > root
    ensures at + c.used <= |t| && (c.low < 0 ==> c.used == Pow2(root))
    ensures (c.low >= 0 ==> c.off + Pow2(c.curr) == c.used)
    ensures c.low < 0 ==> c.off == 0 && c.curr == root
  {
  }

  /** Increment the code, count it off and find the length of the next one. */
  method Advance(lens: seq<nat>, count: array<nat>, work: array<nat>, max: nat, len: nat, sym: nat, huff: nat,
                 ghost c: Cursor)
    returns (done: bool, len': nat, sym': nat, huff': nat, ghost r: nat)
    requires count != work && work.Length >= |lens| && SortedUpTo(work[..], lens, |lens|)
    requires max == Longest(lens, MAXBITS) && c.len == len <= max
    requires InStep(lens, count[..], c, sym, huff)
    modifies count
    ensures count.Length == MAXBITS + 1
    ensures done ==> len' == len == max && c.rank + 1 == Count(lens, max)
    ensures done ==> huff' == Rev(FirstCode(lens, max) + Count(lens, max), max)
    ensures !done ==> sym' == sym + 1 && len <= len' <= max && Next(lens, c, len', r)
    ensures !done && len < len' ==> c.rank + 1 == Count(lens, len) && r == 0
    ensures !done && len < len' ==> forall x :: len < x < len' ==> Count(lens, x) == 0
    ensures !done && len == len' ==> r == c.rank + 1
    ensures !done ==> InStep(lens, count[..], c.(len := len', rank := r), sym', huff')
  {
    hide Longest, OffsetIn, CountIn, Bump, FirstCode, Rev;
    BumpIsIncrement(FirstCode(lens, len) + c.rank, len);
    huff' := BackIncrement(huff, len);
    sym' := sym + 1;
    count[len] := count[len] - 1;
    len', r := len, c.rank + 1;
    done := false;
    if count[len] == 0 {
      if len == max { return true, len, sym', huff', r; }
      ghost var l := NextLength(lens, len);
      assert SortedAt(work[..], lens, l, 0);
      len' := lens[work[sym']];
      r := 0;
    }
    HuffNext(lens, c, len', r);
  }

  /** Fill in the entry that an incomplete code leaves. */
  method CloseTables(ty: CodeType, lens: seq<nat>, table: array<Entry>, at: nat, root: nat, max: nat, next: nat,
                     bits: nat, huff: nat, ghost c: Cursor)
    requires Acceptable(ty, lens) && |lens| <= MaxSymbols(ty)
    requires max == Longest(lens, MAXBITS) == c.len > 0 && (max == 1 ==> root == 1) && c.rank + 1 == Count(lens, max)
    requires AtCode(lens, root, c) && Progress(table[..], ty, lens, at, root, c.(rank := c.rank + 1))
    requires next == at + c.off && bits == c.len - if c.low < 0 then 0 else root
    requires huff == Rev(FirstCode(lens, max) + Count(lens, max), max)
    modifies table
    ensures c.used == TableSize(lens, root)
    ensures AllPlaced(table[..], ty, lens, at, root, at + c.used)
    ensures !Complete(lens) ==> root == 1 && c.used == 2 && table[at + 1] == INVALID_CODE
    ensures Untouched(old(table[..]), table[..], at, at + c.used)
  {
    hide Rev, FirstCode, EntryOp, EntryVal, AllPlaced, Kept, Longest;
    AllTables(lens, root, c);
    Finished(table[..], ty, lens, at, root, c.(rank := c.rank + 1));
    LastCarry(lens, max);
    if huff != 0 {
      InvalidKeeps(table[..], ty, lens, at, Entry(64, bits, 0));
      table[next + huff] := Entry(64, bits, 0);
      assert table[..] == old(table[..])[at + 1 := Entry(64, bits, 0)];
    }
  }

  method BuildTables(ty: CodeType, lens: seq<nat>, table: array<Entry>, at: nat,
                     count: array<nat>, work: array<nat>, root: nat, min: nat, max: nat)
    returns (full: bool, used: nat)
    requires Acceptable(ty, lens) && |lens| <= MaxSymbols(ty)
    requires count != work && count.Length == MAXBITS + 1 && work.Length >= |lens|
    requires forall l :: 1 <= l <= MAXBITS ==> count[l] == Count(lens, l)
    requires SortedUpTo(work[..], lens, |lens|)
    requires max == Longest(lens, MAXBITS) > 0 && min == Shortest(lens, 1) <= root && Count(lens, min) > 0 && min <= max
    requires max == 1 ==> root == 1
    requires ty == CODES ==> max <= root && Pow2(root) <= Enough(CODES)
    requires at + Enough(ty) <= table.Length
    modifies table, count
    ensures full <==> TableSize(lens, root) > Enough(ty)
    ensures !full ==> used == TableSize(lens, root)
    ensures !full ==> AllPlaced(table[..], ty, lens, at, root, at + used)
    ensures !full && !Complete(lens) ==> root == 1 && used == 2 && table[at + 1] == INVALID_CODE
    ensures Untouched(old(table[..]), table[..], at, at + if full then Enough(ty) else used)
  {
    hide Low, Shr, Shl, Pow2, Bump, EntryOp, EntryVal, Longest, Shortest, OffsetIn, CountIn, Left, Kept, AllPlaced,
      GroupMax, SubSizes, FirstCode, Rev, Group, RevCode, Progress, Complete, Sym, Rank, AtCode, InPlace, Next;
    used := Pow2(root);
    SubSizesGrow(lens, root, 0, Pow2(root));
    if ty != CODES && used > Enough(ty) { return true, used; }
    forall x | 1 <= x < min ensures Count(lens, x) == 0 { ShortestFirst(lens, 1, x); }
    FirstCursor(lens, table[..], ty, at, root, min);
    ZeroStart(lens, min);
    full, used := FillTables(ty, lens, table, at, count, work, root, min, max);
  }

  /** The loop over the codes, in the order of their lengths. */
  method FillTables(ty: CodeType, lens: seq<nat>, table: array<Entry>, at: nat,
                    count: array<nat>, work: array<nat>, root: nat, min: nat, max: nat)
    returns (full: bool, used: nat)
    requires Acceptable(ty, lens) && |lens| <= MaxSymbols(ty)
    requires count != work && count.Length == MAXBITS + 1 && work.Length >= |lens|
    requires SortedUpTo(work[..], lens, |lens|)
    requires max == Longest(lens, MAXBITS) > 0 && (max == 1 ==> root == 1) && 0 < min
    requires ty == CODES ==> max <= root
    requires at + Enough(ty) <= table.Length && Pow2(root) <= Enough(ty)
    requires Progress(table[..], ty, lens, at, root, Cursor(min, 0, -1, 0, root, Pow2(root)))
    requires AtCode(lens, root, Cursor(min, 0, -1, 0, root, Pow2(root)))
    requires InStep(lens, count[..], Cursor(min, 0, -1, 0, root, Pow2(root)), 0, 0)
    modifies table, count
    ensures full <==> TableSize(lens, root) > Enough(ty)
    ensures !full ==> used == TableSize(lens, root)
    ensures !full ==> AllPlaced(table[..], ty, lens, at, root, at + used)
    ensures !full && !Complete(lens) ==> root == 1 && used == 2 && table[at + 1] == INVALID_CODE
    ensures Untouched(old(table[..]), table[..], at, at + if full then Enough(ty) else used)
  {
    hide Low, Shr, Shl, Pow2, Bump, EntryOp, EntryVal, Longest, Shortest, OffsetIn, CountIn, Left, Kept, AllPlaced,
      GroupMax, SubSizes, FirstCode, Rev, Group, RevCode, Progress, Complete, Sym, Rank, AtCode, InPlace, Next;
    var huff: nat := 0;
    var sym: nat := 0;
    var len := min;
    var next: nat := at;
    var curr := root;
    var drop: nat := 0;
    var low: int := -1;
    used := Pow2(root);
    ghost var c := Cursor(len, 0, low, 0, curr, used);
    ghost var t0 := table[..];
    while true
      invariant Progress(table[..], ty, lens, at, root, c) && AtCode(lens, root, c)
      invariant InStep(lens, count[..], c, sym, huff)
      invariant 0 < len && at <= next && c == Cursor(len, c.rank, low, next - at, curr, used)
      invariant drop == if low < 0 then 0 else root
      invariant used <= Enough(ty)
      invariant Untouched(t0, table[..], at, at + used)
      decreases Offset(lens, MAXBITS + 1) - sym
    {
      SlotsLeft(lens, len, c.rank);
      CursorFacts(table[..], ty, lens, at, root, c);
      assert SortedAt(work[..], lens, len, c.rank);
      HuffIsCode(lens, len, c.rank);
      EnterCode(ty, lens, table, at, root, next, curr, drop, len, huff, work[sym], c);
      var done;
      ghost var r;
      done, len, sym, huff, r := Advance(lens, count, work, max, len, sym, huff, c);
      if done { break; }
      if len > c.len { ProgressNext(table[..], ty, lens, at, root, c.(rank := c.rank + 1), len); }
      HuffIsCode(lens, len, r);
      if len > root && Low(huff, root) != low {
        LongIsComplete(ty, lens, root, c);
        drop := root;
        next := next + Pow2(curr);
        full, curr, used := NewSubTable(ty, lens, table, at, root, count, max, next, len, huff, used, c, r);
        if full { return; }
        low := Low(huff, root);
      } else {
        SameTable(lens, root, c, len, r);
      }
      c := Cursor(len, r, low, next - at, curr, used);
    }
    CloseTables(ty, lens, table, at, root, max, next, len - drop, huff, c);
    full := false;
  }

  /** The whole of inflate_table.  lens is the slice the caller passes; the table
      starts at index at; work is scratch space. */
  method InflateTable(ty: CodeType, lens: seq<nat>, table: array<Entry>, at: nat, bits: nat, work: array<nat>)
    returns (ret: int, next: nat, root: nat)
    requires Bounded(lens, MAXBITS) && |lens| <= MaxSymbols(ty)
    requires work.Length >= |lens| && at + Enough(ty) <= table.Length
    requires bits >= 1 && (ty == CODES ==> bits == 7 && Bounded(lens, 7))
    modifies table, work
    ensures Longest(lens, MAXBITS) == 0 ==>
      ret == 0 && root == 1 && next == at + 2 && table[at] == table[at + 1] == INVALID_CODE
    ensures Longest(lens, MAXBITS) > 0 ==>
      && (ret == -1 <==> !Acceptable(ty, lens))
      && (ret == 1 <==> Acceptable(ty, lens) && TableSize(lens, RootBits(lens, bits)) > Enough(ty))
      && (ret == 0 <==> Acceptable(ty, lens) && TableSize(lens, RootBits(lens, bits)) <= Enough(ty))
    ensures Longest(lens, MAXBITS) > 0 && ret == 0 ==>
      && root == RootBits(lens, bits) && next == at + TableSize(lens, root)
      && AllPlaced(table[..], ty, lens, at, root, next)
      && (!Complete(lens) ==> root == 1 && next == at + 2 && table[at + 1] == INVALID_CODE)
    ensures Untouched(old(table[..]), table[..], at, if ret == 0 then next else at + Enough(ty))
  {
    hide Kept, AllPlaced, CountIn, Pow2;
    next := at;
    var count := CountLengths(lens);
    root := bits;
    var max := FindMax(lens, count);
    if root > max { root := max; }
    if max == 0 {
      table[at] := INVALID_CODE;
      table[at + 1] := INVALID_CODE;
      return 0, at + 2, 1;
    }
    var min := FindMin(lens, count, max);
    if root < min { root := min; }
    var left := CheckLeft(lens, count);
    if left < 0 { return -1, at, root; }
    if left > 0 && (ty == CODES || max != 1) { return -1, at, root; }
    SortSymbols(lens, count, work);
    if ty == CODES { CodeLengthRoot(lens, max, root); }
    var full, used := BuildTables(ty, lens, table, at, count, work, root, min, max);
    if full { return 1, at, root; }
    ret, next := 0, at + used;
  }

  lemma CodeLengthRoot(lens: seq<nat>, max: nat, root: nat)
    requires Bounded(lens, 7) && max == Longest(lens, MAXBITS) && root == RootBits(lens, 7)
    requires Shortest(lens, 1) <= max
    ensures max <= root <= 7 && Pow2(root) <= Enough(CODES)
  {
    if max > 7 {
      NoSuchLength(lens, 7, max, |lens|);
    }
    Pow2Monotone(root, 7);
    assert Pow2(7) == 128;
  }
}
