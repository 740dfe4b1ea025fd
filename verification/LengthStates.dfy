/** The state LENLENS of inflate (deps/libz/inflate.c): the lengths of the code
    length code, and its table. */
module LengthStates {
  import opened Bits
  import opened Canonical
  import opened DecodeTable
  import opened TableGroups
  import opened Inftrees
  import opened CodeLengths
  import opened BlockFormat
  import opened Machine
  import opened FixedTables
  import opened TableDecoding
  import opened BitBuffer
  import opened InflateStates

  /** The lengths read so far stand at their places in lens. */
  ghost predicate LensRead(lens: seq<nat>, l: seq<nat>) {
    |lens| == 320 && |l| <= 19 && forall i :: 0 <= i < |l| ==> lens[BlOrder(i)] == l[i] <= 7
  }

  /** The place of symbol x in the order of transmission. */
  function OrderIndex(x: nat): nat {
    if x >= 16 then x - 16 else if x == 0 then 3 else if x == 8 then 4 else if x < 8 then 19 - 2 * x else 2 * x - 12
  }

  lemma OrderUnique(i: nat)
    requires i < 19
    ensures OrderIndex(BlOrder(i)) == i
  {
  }

  lemma OrderBack(x: nat)
    requires x < 19
    ensures OrderIndex(x) < 19 && BlOrder(OrderIndex(x)) == x
  {
  }

  lemma LensReadPush(lens: seq<nat>, l: seq<nat>, v: nat)
    requires LensRead(lens, l) && |l| < 19 && v <= 7
    ensures LensRead(lens[BlOrder(|l|) := v], l + [v])
  {
    hide BlOrder;
    var lens', l' := lens[BlOrder(|l|) := v], l + [v];
    OrderUnique(|l|);
    forall i | 0 <= i < |l'| ensures lens'[BlOrder(i)] == l'[i] <= 7 { OrderUnique(i); }
  }

  lemma SamePlace(i: nat, j: nat)
    requires i < 19 && j < 19
    ensures BlOrder(i) == BlOrder(j) <==> i == j
  {
    hide BlOrder;
    OrderUnique(i);
    OrderUnique(j);
  }

  lemma {:induction false} LengthOfPlace(l: seq<nat>, i: nat, n: nat)
    requires n <= |l| <= 19 && i < 19
    ensures LengthOf(l, BlOrder(i), n) == if i < n then l[i] else 0
  {
    hide BlOrder;
    if n > 0 {
      LengthOfPlace(l, i, n - 1);
      SamePlace(i, n - 1);
    }
  }

  /** The rest filled with zeros, the first 19 lengths are the code length code. */
  lemma LensOrdered(lens: seq<nat>, l: seq<nat>)
    requires LensRead(lens, l) && forall i :: |l| <= i < 19 ==> lens[BlOrder(i)] == 0
    ensures lens[..19] == Ordered(l) && Bounded(Ordered(l), 7)
  {
    hide BlOrder;
    forall x | 0 <= x < 19 ensures lens[x] == Ordered(l)[x] <= 7 {
      OrderBack(x);
      LengthOfPlace(l, OrderIndex(x), |l|);
    }
    assert lens[..19] == Ordered(l);
  }

  method FillZeros(lens: array<nat>, have0: nat, ghost l: seq<nat>)
    requires LensRead(lens[..], l) && have0 == |l|
    modifies lens
    ensures LensRead(lens[..], l) && forall i :: |l| <= i < 19 ==> lens[BlOrder(i)] == 0
  {
    hide BlOrder;
    var have := have0;
    while have < 19
      invariant have0 <= have <= 19 && LensRead(lens[..], l) && forall i :: |l| <= i < have ==> lens[BlOrder(i)] == 0
    {
      OrderUnique(have);
      ghost var before: seq<nat> := lens[..];
      lens[BlOrder(have)] := 0;
      ZeroKeeps(before, l, have);
      forall i | |l| <= i < have + 1 ensures lens[BlOrder(i)] == 0 { OrderUnique(i); }
      have := have + 1;
    }
  }

  lemma ZeroKeeps(lens: seq<nat>, l: seq<nat>, k: nat)
    requires LensRead(lens, l) && |l| <= k < 19
    ensures LensRead(lens[BlOrder(k) := 0], l)
  {
    hide BlOrder;
    var lens' := lens[BlOrder(k) := 0];
    OrderUnique(k);
    forall i | 0 <= i < |l| ensures lens'[BlOrder(i)] == l[i] <= 7 { OrderUnique(i); }
  }

  // ---- Tables for given lengths ----

  lemma CodesEnough(lens: seq<nat>)
    requires Bounded(lens, 7) && Longest(lens, MAXBITS) > 0
    ensures TableSize(lens, RootBits(lens, 7)) <= Enough(CODES)
  {
    hide Count, TableSize;
    LongestSmall(lens);
    ShortestSmall(lens);
    AllBelow(lens, Longest(lens, MAXBITS));
    OneLevel(lens, RootBits(lens, 7));
    Pow2Monotone(RootBits(lens, 7), 7);
    Pow2Values();
  }

  lemma LongestSmall(lens: seq<nat>)
    requires Bounded(lens, 7) && Longest(lens, MAXBITS) > 0
    ensures Longest(lens, MAXBITS) <= 7
  {
    var m := Longest(lens, MAXBITS);
    if m > 7 { NoSuchLength(lens, 7, m, |lens|); }
  }

  lemma {:induction false} ShortestAtMost(lens: seq<nat>, l: nat, m: nat)
    requires l <= m <= MAXBITS && Count(lens, m) > 0
    ensures Shortest(lens, l) <= m
    decreases m - l
  {
    if l < m && Count(lens, l) == 0 { ShortestAtMost(lens, l + 1, m); }
  }

  lemma ShortestSmall(lens: seq<nat>)
    requires Longest(lens, MAXBITS) > 0
    ensures Shortest(lens, 1) <= Longest(lens, MAXBITS)
  {
    ShortestAtMost(lens, 1, Longest(lens, MAXBITS));
  }

  lemma AllBelow(lens: seq<nat>, m: nat)
    requires Bounded(lens, MAXBITS) && m == Longest(lens, MAXBITS)
    ensures Bounded(lens, m)
  {
    forall i | 0 <= i < |lens| ensures lens[i] <= m {
      if lens[i] > 0 { LongestBounds(lens, i); }
    }
  }

  lemma RootInRange(lens: seq<nat>, bits: nat)
    requires bits >= 1 && Longest(lens, MAXBITS) > 0
    ensures 1 <= RootBits(lens, bits) <= MAXBITS
  {
  }

  /** inflate_table has made the table for lens at index at; what it says about ret. */
  lemma TableMade(ty: CodeType, lens: seq<nat>, tab: seq<Entry>, at: nat, bits: nat, ret: int, next: nat, root: nat)
    requires Bounded(lens, MAXBITS) && |lens| <= MaxSymbols(ty) && bits >= 1 && at + 2 <= |tab| && next <= |tab|
    requires Longest(lens, MAXBITS) == 0 ==>
      ret == 0 && root == 1 && next == at + 2 && tab[at] == tab[at + 1] == INVALID_CODE
    requires Longest(lens, MAXBITS) > 0 ==> (ret == 0 <==> Acceptable(ty, lens))
    requires Longest(lens, MAXBITS) > 0 && ret == 0 ==>
      && root == RootBits(lens, bits) && AllPlaced(tab, ty, lens, at, root, next)
      && (!Complete(lens) ==> root == 1 && tab[at + 1] == INVALID_CODE)
    ensures ret == 0 <==> Accepted(ty, lens)
    ensures ret == 0 ==> TableFor(ty, lens, tab, at, root)
  {
    hide AllPlaced, Longest, RootBits, Complete, Acceptable;
    if Longest(lens, MAXBITS) > 0 && ret == 0 {
      RootInRange(lens, bits);
      PlacedWider(tab, ty, lens, at, root, next);
    }
  }

  // ---- LENLENS ----

  lemma LenLensFacts(a: State, b: Buffer, t: seq<bool>)
    requires a.mode == LENLENS && Buffered(b.hold, b.bits, t, a.p)
    ensures |a.lens| < a.ncode && b.bits < 3 ==> StepIn(a, t).None?
    ensures |a.lens| < a.ncode && b.bits >= 3 ==>
      StepIn(a, t) == Some(a.(lens := a.lens + [Low(b.hold, 3)], p := a.p + 3))
    ensures |a.lens| >= a.ncode ==> StepIn(a, t) == Some(
      if Accepted(CODES, Ordered(a.lens)) then a.(mode := CODELENS, lcode := Ordered(a.lens), lens := [])
      else Bad(a, 0))
    ensures !NeedsOut(a)
  {
    hide Accepted, Ordered, Val, Low, FromBits, Grows;
    if b.bits >= 3 { Peek(b.hold, b.bits, t, a.p, 0, 3); }
  }

  lemma LensFields(r: Regs, a: State, r': Regs, a': State)
    requires Fields(r, a) && r' == r.(b := r'.b, have := r'.have) && a' == a.(lens := a'.lens, p := a'.p)
    ensures Fields(r', a')
  {
  }

  lemma LenLensMoves(wrap: bool, t0: seq<bool>, input: seq<byte>, r: Regs, a: State)
    requires Got(wrap, t0, input, r, a) && r.mode == LENLENS && 3 <= r.b.bits < 11 && |a.lens| < a.ncode
    ensures var r', a' := r.(b := Drop(r.b, 3), have := r.have + 1),
      a.(lens := a.lens + [Low(r.b.hold, 3)], p := a.p + 3);
            Idle(wrap, t0, input, r', a') && StepIn(a, Stream(t0, input, r.b.next)) == Some(a')
  {
    hide *;
    GotFacts(wrap, t0, input, r, a);
    GotFields(wrap, t0, input, r, a);
    LenLensFacts(a, r.b, Stream(t0, input, r.b.next));
    Dropped(t0, input, r.b, a.p, 3);
    DropSize(r.b, 3);
    var r', a' := r.(b := Drop(r.b, 3), have := r.have + 1), a.(lens := a.lens + [Low(r.b.hold, 3)], p := a.p + 3);
    LensFields(r, a, r', a');
    Moved(wrap, t0, input, r, a, r', a');
  }

  lemma CountsKnown(wrap: bool, t0: seq<bool>, input: seq<byte>, r: Regs, a: State)
    requires Got(wrap, t0, input, r, a) && (r.mode == LENLENS || r.mode == CODELENS)
    ensures r.nlen == a.nlen && r.ndist == a.ndist && r.ncode == a.ncode
    ensures 257 <= a.nlen <= 286 && 1 <= a.ndist <= 30 && 4 <= a.ncode <= 19
    ensures r.mode == LENLENS ==> |a.lens| <= a.ncode
    ensures r.mode == CODELENS ==> |a.lens| <= a.nlen + a.ndist && Accepted(CODES, a.lcode)
  {
    hide Held, Reaches, Accepted;
  }

  /** NEEDBITS(3) and one length. */
  method ReadLength(wrap: bool, input: seq<byte>, r0: Regs, lens: array<nat>, ghost t0: seq<bool>, ghost a0: State)
    returns (leave: bool, r: Regs, ghost a: State)
    requires Idle(wrap, t0, input, r0, a0) && r0.mode == LENLENS && r0.have == |a0.lens| < r0.ncode
    requires LensRead(lens[..], a0.lens)
    modifies lens
    ensures Idle(wrap, t0, input, r, a) && r0.b.next <= r.b.next && LensRead(lens[..], a.lens) && r.have == |a.lens|
    ensures leave ==> Starved(t0, input, r0, r, a0, a)
    ensures !leave ==>
      a.p > a0.p && a.out == a0.out && a.mode == LENLENS == r.mode && r.ncode == r0.ncode && r.have == r0.have + 1
  {
    hide Idle, Got, Held, Buffered, Sound, StepIn, Stream, Grows, Lazy, Shr, Low, BlOrder;
    IdleGot(wrap, t0, input, r0, a0);
    GotFacts(wrap, t0, input, r0, a0);
    CountsKnown(wrap, t0, input, r0, a0);
    LenLensLazy(r0.b, a0, Stream(t0, input, r0.b.next));
    var ok, b := NeedBits(input, r0.b, 3, t0, a0.p);
    r := r0.(b := b);
    GotMore(wrap, t0, input, r0, a0, b);
    GotFacts(wrap, t0, input, r, a0);
    LenLensFacts(a0, b, Stream(t0, input, b.next));
    if !ok {
      Waiting(wrap, t0, input, r, a0);
      return true, r, a0;
    }
    LenLensMoves(wrap, t0, input, r, a0);
    LowThree(b.hold);
    LensReadPush(lens[..], a0.lens, Low(b.hold, 3));
    leave, a := false, a0.(lens := a0.lens + [Low(b.hold, 3)], p := a0.p + 3);
    lens[BlOrder(r.have)] := Low(b.hold, 3);
    r := r.(b := Drop(b, 3), have := r.have + 1);
  }

  lemma LowThree(v: nat)
    ensures Low(v, 3) <= 7
  {
    assert Pow2(3) == 8;
  }

  lemma LenLensLazy(b: Buffer, a: State, t: seq<bool>)
    requires Lazy(b.bits, a, t) && a.mode == LENLENS && Buffered(b.hold, b.bits, t, a.p)
    ensures b.bits < 8
  {
    hide Accepted, Ordered;
    LenLensFacts(a, b, t);
    hide StepIn;
  }

  lemma LenLensDone(wrap: bool, t0: seq<bool>, input: seq<byte>, r: Regs, a: State, root: nat)
    requires Idle(wrap, t0, input, r, a) && r.mode == LENLENS && |a.lens| >= a.ncode
    ensures var ok := Accepted(CODES, Ordered(a.lens));
      var r' := if ok then r.(mode := CODELENS, have := 0, lencode := Table(false, 0, root)) else r.(mode := BAD);
      var a' := if ok then a.(mode := CODELENS, lcode := Ordered(a.lens), lens := []) else Bad(a, 0);
      Idle(wrap, t0, input, r', a') && Forward(a, a')
  {
    hide Idle, Got, Held, Buffered, Sound, StepIn, Stream, Grows, Lazy, Accepted, Ordered;
    IdleGot(wrap, t0, input, r, a);
    GotFacts(wrap, t0, input, r, a);
    CountsKnown(wrap, t0, input, r, a);
    LenLensFacts(a, r.b, Stream(t0, input, r.b.next));
    LenLensLazy(r.b, a, Stream(t0, input, r.b.next));
    if Accepted(CODES, Ordered(a.lens)) {
      Moved(wrap, t0, input, r, a, r.(mode := CODELENS, have := 0, lencode := Table(false, 0, root)),
        a.(mode := CODELENS, lcode := Ordered(a.lens), lens := []));
    } else {
      MovedPlain(wrap, t0, input, r, a, r.(mode := BAD), Bad(a, 0));
    }
  }

  /** Build the table of the code length code. */
  method BuildCodeTable(lens: array<nat>, work: array<nat>, codes: array<Entry>, ghost l: seq<nat>)
    returns (ret: int, root: nat)
    requires LensRead(lens[..], l) && forall i :: |l| <= i < 19 ==> lens[BlOrder(i)] == 0
    requires work.Length == 288 && codes.Length == 1444 && work != lens
    modifies work, codes
    ensures ret == 0 <==> Accepted(CODES, Ordered(l))
    ensures ret == 0 ==> TableFor(CODES, Ordered(l), codes[..], 0, root)
  {
    hide BlOrder, Longest, RootBits, TableSize, Acceptable, AllPlaced, Accepted, TableFor, Complete, Ordered;
    LensOrdered(lens[..], l);
    ghost var o := Ordered(l);
    assert lens[..][..19] == lens[..19];
    var next;
    ret, next, root := InflateTable(CODES, lens[..19], codes, 0, 7, work);
    if Longest(o, MAXBITS) > 0 { CodesEnough(o); }
    TableMade(CODES, o, codes[..], 0, 7, ret, if ret == 0 then next else 0, root);
  }

  method LenLensCase(wrap: bool, input: seq<byte>, r0: Regs, lens: array<nat>, work: array<nat>, codes: array<Entry>,
                     ghost t0: seq<bool>, ghost a0: State)
    returns (leave: bool, r: Regs, ghost a: State)
    requires Idle(wrap, t0, input, r0, a0) && r0.mode == LENLENS && r0.have == |a0.lens| && LensRead(lens[..], a0.lens)
    requires work.Length == 288 && codes.Length == 1444 && work != lens
    modifies lens, work, codes
    ensures Idle(wrap, t0, input, r, a) && r0.b.next <= r.b.next && a.out == a0.out && a.p >= a0.p
    ensures leave ==> a.mode == LENLENS && r.b.next == |input| && StepIn(a, Stream(t0, input, r.b.next)).None?
    ensures leave ==> LensRead(lens[..], a.lens) && r.have == |a.lens|
    ensures !leave ==> Forward(a0, a) && (a.mode == BAD || (a.mode == CODELENS && r.have == 0 && a.lens == []))
    ensures !leave && a.mode == CODELENS ==>
      !r.lencode.fixed && TableFor(CODES, a.lcode, codes[..], r.lencode.at, r.lencode.root)
  {
    hide Idle, StepIn, Stream, BlOrder, Accepted, TableFor, Ordered, Got, LensRead, ModeRank;
    r, a := r0, a0;
    KnownCount(wrap, t0, input, r, a);
    while r.have < r.ncode
      invariant Idle(wrap, t0, input, r, a) && r0.b.next <= r.b.next && a.out == a0.out && a.p >= a0.p
      invariant a.mode == LENLENS
      invariant LensRead(lens[..], a.lens) && r.have == |a.lens| && r.mode == LENLENS && r.ncode == a.ncode
      decreases r.ncode - r.have
    {
      leave, r, a := ReadLength(wrap, input, r, lens, t0, a);
      if leave { return; }
      KnownCount(wrap, t0, input, r, a);
    }
    FillZeros(lens, r.have, a.lens);
    var ret, root := BuildCodeTable(lens, work, codes, a.lens);
    LenLensDone(wrap, t0, input, r, a, root);
    ForwardLonger(a0, a);
    leave := false;
    if ret != 0 {
      r, a := r.(mode := BAD), Bad(a, 0);
    } else {
      r, a := r.(mode := CODELENS, have := 0, lencode := Table(false, 0, root)),
        a.(mode := CODELENS, lcode := Ordered(a.lens), lens := []);
    }
  }

  lemma KnownCount(wrap: bool, t0: seq<bool>, input: seq<byte>, r: Regs, a: State)
    requires Idle(wrap, t0, input, r, a) && r.mode == LENLENS
    ensures r.ncode == a.ncode && a.mode == LENLENS && |a.lens| <= a.ncode
  {
    hide Got, Lazy, Held;
    IdleGot(wrap, t0, input, r, a);
    CountsKnown(wrap, t0, input, r, a);
    GotFacts(wrap, t0, input, r, a);
  }

  lemma ForwardLonger(a0: State, a: State)
    requires a.p >= a0.p && a.mode == a0.mode
    ensures forall a' :: Forward(a, a') ==> Forward(a0, a')
  {
  }
}
