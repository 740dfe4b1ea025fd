/** The state CODELENS of inflate (deps/libz/inflate.c): the lengths of both
    codes, expanded from their items, and the two tables. */
module CodeLengthStates {
  import opened Bits
  import opened Canonical
  import opened DecodeTable
  import opened TableGroups
  import opened Inftrees
  import opened CodeLengths
  import opened Machine
  import opened MachineLaws
  import opened FixedTables
  import opened TableDecoding
  import opened BitBuffer
  import opened InflateStates
  import opened SymbolReader
  import opened SymbolStates
  import opened LengthStates
  import opened TableLimits

  /** The lengths read so far are the first of lens. */
  ghost predicate LensKept(lens: seq<nat>, l: seq<nat>) {
    |lens| == 320 && |l| <= 316 && lens[..|l|] == l && LengthsBelow16(l)
  }

  /** The item that the entry and the bits behind it make. */
  function ItemOf(e: Entry, hold: nat): Item {
    Item(e.val, Low(Shr(hold, e.bits), ExtraBl(e.val)))
  }

  lemma ItemFacts(a: State, b: Buffer, t: seq<bool>)
    requires a.mode == CODELENS && Buffered(b.hold, b.bits, t, a.p) && |a.lens| < a.nlen + a.ndist
    ensures a.p <= |t| && !NeedsOut(a)
    ensures var e := Decode(CODES, a.lcode, t[a.p..]);
      && (e.None? ==> StepIn(a, t).None?)
      && (e.Some? && b.bits < e.value.bits + ExtraBl(e.value.val) ==> StepIn(a, t).None?)
      && (e.Some? && b.bits >= e.value.bits + ExtraBl(e.value.val) ==>
          StepIn(a, t) == Some(ItemStep(a, e.value.bits, ExtraBl(e.value.val), ItemOf(e.value, b.hold))))
  {
    hide Decode, Val, Low, Shr, FromBits, Grows, ItemStep, ExtraBl, Accepted;
    var e := Decode(CODES, a.lcode, t[a.p..]);
    if e.Some? && b.bits >= e.value.bits + ExtraBl(e.value.val) {
      Peek(b.hold, b.bits, t, a.p, e.value.bits, ExtraBl(e.value.val));
    }
  }

  lemma CodeValues(lens: seq<nat>, b: seq<bool>)
    requires Decode(CODES, lens, b).Some?
    ensures Decode(CODES, lens, b).value.val <= 18
  {
  }

  lemma ItemLazy(b: Buffer, a: State, t: seq<bool>, tab: seq<Entry>, at: nat, root: nat)
    requires Lazy(b.bits, a, t) && a.mode == CODELENS && Buffered(b.hold, b.bits, t, a.p) && |a.lens| < a.nlen + a.ndist
    requires TableFor(CODES, a.lcode, tab, at, root)
    ensures b.bits < 22 && (b.bits >= 8 ==> StepIn(a, t).None?)
  {
    hide Decode, TableFor, StepIn, ItemOf;
    ItemFacts(a, b, t);
    var e := Decode(CODES, a.lcode, t[a.p..]);
    if e.None? {
      DecodedBy15(CODES, a.lcode, tab, at, root, t[a.p..]);
    } else {
      DecodedBits(CODES, a.lcode, tab, at, root, t[a.p..]);
    }
  }

  lemma DecodedBits(ty: CodeType, lens: seq<nat>, tab: seq<Entry>, at: nat, root: nat, b: seq<bool>)
    requires TableFor(ty, lens, tab, at, root) && Decode(ty, lens, b).Some?
    ensures Decode(ty, lens, b).value.bits <= MAXBITS
  {
    hide Decode, TableFor, Lookup, LinkOk;
    TableDecodes(ty, lens, tab, at, root, b);
  }

  /** The bits of a whole item are there: its code and its extra bits. */
  ghost predicate ItemHere(a: State, r: Regs, t: seq<bool>, here: Entry) {
    && a.p <= |t| && Decode(CODES, a.lcode, t[a.p..]) == Some(here) && here.val <= 18
    && here.bits + ExtraBl(here.val) <= r.b.bits < here.bits + ExtraBl(here.val) + 8
  }

  /** Pull the bits of an item. */
  method PullItem(wrap: bool, input: seq<byte>, r0: Regs, tab: array<Entry>, ghost t0: seq<bool>, ghost a0: State)
    returns (leave: bool, r: Regs, here: Entry)
    requires Idle(wrap, t0, input, r0, a0) && r0.mode == CODELENS && |a0.lens| < a0.nlen + a0.ndist
    requires TableFor(CODES, a0.lcode, tab[..], r0.lencode.at, r0.lencode.root)
    ensures r0.b.next <= r.b.next && r == r0.(b := r.b) && Got(wrap, t0, input, r, a0)
    ensures leave ==> Idle(wrap, t0, input, r, a0) && Starved(t0, input, r0, r, a0, a0)
    ensures !leave ==> ItemHere(a0, r, Stream(t0, input, r.b.next), here)
  {
    hide Idle, Got, Held, Buffered, Sound, StepIn, Stream, Grows, Lazy, Shr, Low, TableFor, Decode, ItemOf, ItemStep,
      Accepted;
    IdleGot(wrap, t0, input, r0, a0);
    GotFacts(wrap, t0, input, r0, a0);
    RootBound(CODES, a0.lcode, tab[..], r0.lencode.at, r0.lencode.root);
    PullItemStart(wrap, t0, input, r0, a0, tab[..]);
    TableAccepted(CODES, a0.lcode, tab[..], r0.lencode.at, r0.lencode.root);
    var ok, b;
    ok, here, b := ReadSymbol(input, r0.b, tab, r0.lencode.at, r0.lencode.root, t0, a0.p, CODES, a0.lcode);
    r := r0.(b := b);
    GotMore(wrap, t0, input, r0, a0, b);
    GotFacts(wrap, t0, input, r, a0);
    ItemFacts(a0, b, Stream(t0, input, b.next));
    if !ok {
      Waiting(wrap, t0, input, r, a0);
      return true, r, here;
    }
    CodeValues(a0.lcode, Stream(t0, input, b.next)[a0.p..]);
    DecodedBits(CODES, a0.lcode, tab[..], r0.lencode.at, r0.lencode.root, Stream(t0, input, b.next)[a0.p..]);
    leave := false;
    var b2 := b;
    if here.val >= 16 {
      ok, b2 := NeedBits(input, b, here.bits + ExtraBl(here.val), t0, a0.p);
      GotMore(wrap, t0, input, r, a0, b2);
      r := r.(b := b2);
      GotFacts(wrap, t0, input, r, a0);
      DecodeKept(a0, t0, input, b, b2, here);
      ItemFacts(a0, b2, Stream(t0, input, b2.next));
      if !ok {
        Waiting(wrap, t0, input, r, a0);
        return true, r, here;
      }
    }
    if b2 == r0.b { LazyBits(r0.b.bits, a0, Stream(t0, input, r0.b.next)); }
  }

  lemma PullItemStart(wrap: bool, t0: seq<bool>, input: seq<byte>, r: Regs, a: State, tab: seq<Entry>)
    requires Got(wrap, t0, input, r, a) && Lazy(r.b.bits, a, Stream(t0, input, r.b.next)) && r.mode == CODELENS
    requires |a.lens| < a.nlen + a.ndist && TableFor(CODES, a.lcode, tab, r.lencode.at, r.lencode.root)
    ensures r.b.bits < 22 && (r.b.bits >= 8 ==> StepIn(a, Stream(t0, input, r.b.next)).None?)
  {
    hide Got, Held, Lazy, StepIn, Stream, TableFor, Buffered;
    GotFacts(wrap, t0, input, r, a);
    ItemLazy(r.b, a, Stream(t0, input, r.b.next), tab, r.lencode.at, r.lencode.root);
  }

  lemma DecodeKept(a: State, t0: seq<bool>, input: seq<byte>, b: Buffer, b': Buffer, here: Entry)
    requires b.next <= b'.next <= |input| && a.p <= |Stream(t0, input, b.next)| && Accepted(CODES, a.lcode)
    requires Decode(CODES, a.lcode, Stream(t0, input, b.next)[a.p..]) == Some(here)
    ensures a.p <= |Stream(t0, input, b'.next)|
    ensures Decode(CODES, a.lcode, Stream(t0, input, b'.next)[a.p..]) == Some(here)
  {
    hide Stream, Decode, Accepted;
    StreamPrefix(t0, input, b.next, b'.next);
    var s, c := Stream(t0, input, b.next), BytesToBits(input[b.next..b'.next]);
    assert (s + c)[a.p..] == s[a.p..] + c;
    DecodeMore(CODES, a.lcode, s[a.p..], c);
  }

  // ---- One item ----

  function ItemBuffer(b: Buffer, here: Entry): Buffer
    requires here.bits + ExtraBl(here.val) <= b.bits
  {
    Drop(Drop(b, here.bits), ExtraBl(here.val))
  }

  /** The item extends the lengths. */
  lemma ItemMoves(wrap: bool, t0: seq<bool>, input: seq<byte>, r: Regs, a: State, here: Entry)
    requires Got(wrap, t0, input, r, a) && r.mode == CODELENS && |a.lens| < a.nlen + a.ndist
    requires ItemHere(a, r, Stream(t0, input, r.b.next), here)
    requires var l := Apply(a.lens, ItemOf(here, r.b.hold)); l.Some? && |l.value| <= a.nlen + a.ndist
    ensures var l := Apply(a.lens, ItemOf(here, r.b.hold)).value;
      var r', a' := r.(b := ItemBuffer(r.b, here), have := |l|),
        a.(lens := l, p := a.p + here.bits + ExtraBl(here.val));
      Idle(wrap, t0, input, r', a')
  {
    hide Idle, Got, Held, Buffered, Sound, StepIn, Stream, Grows, Lazy, Shr, Low, Decode, ItemOf, ExtraBl, Apply;
    GotFacts(wrap, t0, input, r, a);
    GotFields(wrap, t0, input, r, a);
    ItemFacts(a, r.b, Stream(t0, input, r.b.next));
    var l := Apply(a.lens, ItemOf(here, r.b.hold)).value;
    Dropped(t0, input, r.b, a.p, here.bits);
    Dropped(t0, input, Drop(r.b, here.bits), a.p + here.bits, ExtraBl(here.val));
    Moved(wrap, t0, input, r, a, r.(b := ItemBuffer(r.b, here), have := |l|),
      a.(lens := l, p := a.p + here.bits + ExtraBl(here.val)));
  }

  /** The item is an error: nothing to repeat, or too many lengths. */
  lemma ItemFails(wrap: bool, t0: seq<bool>, input: seq<byte>, r: Regs, a: State, here: Entry)
    requires Got(wrap, t0, input, r, a) && r.mode == CODELENS && |a.lens| < a.nlen + a.ndist
    requires ItemHere(a, r, Stream(t0, input, r.b.next), here)
    ensures var l := Apply(a.lens, ItemOf(here, r.b.hold));
      && (l.None? ==> Idle(wrap, t0, input, r.(mode := BAD, b := Drop(r.b, here.bits)), Bad(a, here.bits)))
      && (l.Some? && |l.value| > a.nlen + a.ndist ==>
          Idle(wrap, t0, input, r.(mode := BAD, b := ItemBuffer(r.b, here)), Bad(a, here.bits + ExtraBl(here.val))))
  {
    hide Idle, Got, Held, Buffered, Sound, StepIn, Stream, Grows, Lazy, Shr, Low, Decode, ItemOf, ExtraBl, Apply;
    GotFacts(wrap, t0, input, r, a);
    ItemFacts(a, r.b, Stream(t0, input, r.b.next));
    Dropped(t0, input, r.b, a.p, here.bits);
    Dropped(t0, input, Drop(r.b, here.bits), a.p + here.bits, ExtraBl(here.val));
    var l := Apply(a.lens, ItemOf(here, r.b.hold));
    if l.None? {
      MovedPlain(wrap, t0, input, r, a, r.(mode := BAD, b := Drop(r.b, here.bits)), Bad(a, here.bits));
    } else if |l.value| > a.nlen + a.ndist {
      MovedPlain(wrap, t0, input, r, a, r.(mode := BAD, b := ItemBuffer(r.b, here)), Bad(a,
        here.bits + ExtraBl(here.val)));
    }
  }

  /** while (copy--) lens[have++] = len */
  method Fill(lens: array<nat>, have0: nat, len: nat, copy: nat, ghost l: seq<nat>) returns (have: nat)
    requires LensKept(lens[..], l) && have0 == |l| && have0 + copy <= 316 && len < 16
    modifies lens
    ensures have == have0 + copy && LensKept(lens[..], l + Repeat(len, copy))
  {
    have := have0;
    assert l + Repeat(len, 0) == l;
    for i := 0 to copy
      invariant have == have0 + i && LensKept(lens[..], l + Repeat(len, i))
    {
      ghost var before: seq<nat> := lens[..];
      lens[have] := len;
      assert lens[..have + 1] == before[..have] + [len];
      assert l + Repeat(len, i + 1) == l + Repeat(len, i) + [len];
      have := have + 1;
    }
  }

  /** Whether the item extends the lengths, and to how many. */
  function ItemRoom(have: nat, total: nat, item: Item): Option<nat> {
    if item.sym < 16 then Some(have + 1)
    else if item.sym == 16 && have == 0 then None
    else Some(have + (if item.sym == 18 then 11 else 3) + item.arg)
  }

  lemma RoomIs(l: seq<nat>, total: nat, item: Item)
    requires item.sym <= 18
    ensures ItemRoom(|l|, total, item).None? <==> Apply(l, item).None?
    ensures Apply(l, item).Some? ==> |Apply(l, item).value| == ItemRoom(|l|, total, item).value
  {
  }

  /** Store what the item says behind the lengths read so far. */
  method StoreItem(lens: array<nat>, have: nat, item: Item, ghost l: seq<nat>) returns (n: nat)
    requires LensKept(lens[..], l) && have == |l| && item.sym <= 18 && Apply(l, item).Some?
    requires |Apply(l, item).value| <= 316
    modifies lens
    ensures LensKept(lens[..], Apply(l, item).value) && n == |Apply(l, item).value|
  {
    hide Repeat;
    KeptFits(lens[..], l);
    hide LensKept;
    if item.sym < 16 {
      OneIsRepeat(l, item.sym);
      n := Fill(lens, have, item.sym, 1, l);
    } else if item.sym == 16 {
      LastBelow(lens[..], l);
      n := Fill(lens, have, lens[have - 1], 3 + item.arg, l);
    } else if item.sym == 17 {
      n := Fill(lens, have, 0, 3 + item.arg, l);
    } else {
      n := Fill(lens, have, 0, 11 + item.arg, l);
    }
  }

  lemma KeptFits(lens: seq<nat>, l: seq<nat>)
    requires LensKept(lens, l)
    ensures |l| <= |lens|
  {
  }

  lemma LastBelow(lens: seq<nat>, l: seq<nat>)
    requires LensKept(lens, l) && l != []
    ensures lens[|l| - 1] == l[|l| - 1] < 16
  {
  }

  lemma OneIsRepeat(l: seq<nat>, x: nat)
    ensures l + Repeat(x, 1) == l + [x]
  {
    assert Repeat(x, 0) == [];
  }

  method ReadItemCase(wrap: bool, input: seq<byte>, r0: Regs, lens: array<nat>, tab: array<Entry>,
                      ghost t0: seq<bool>, ghost a0: State)
    returns (leave: bool, r: Regs, ghost a: State)
    requires Idle(wrap, t0, input, r0, a0) && r0.mode == CODELENS && r0.have == |a0.lens| < r0.nlen + r0.ndist
    requires r0.nlen == a0.nlen && r0.ndist == a0.ndist && a0.nlen + a0.ndist <= 316 && LensKept(lens[..], a0.lens)
    requires TableFor(CODES, a0.lcode, tab[..], r0.lencode.at, r0.lencode.root)
    modifies lens
    ensures Idle(wrap, t0, input, r, a) && r0.b.next <= r.b.next && r.lencode == r0.lencode && a.out == a0.out
    ensures leave ==> Starved(t0, input, r0, r, a0, a) && LensKept(lens[..], a.lens)
    ensures !leave ==> a.p > a0.p && a.mode == r.mode && (r.mode == CODELENS || r.mode == BAD)
    ensures !leave && r.mode == CODELENS ==>
      LensKept(lens[..], a.lens) && r.have == |a.lens| > r0.have && a.lcode == a0.lcode
    ensures r.nlen == r0.nlen && r.ndist == r0.ndist && a.nlen == a0.nlen && a.ndist == a0.ndist
    ensures r.have <= r.nlen + r.ndist
  {
    hide Idle, Got, Held, Buffered, Sound, StepIn, Stream, Grows, Lazy, Shr, Low, TableFor, Decode, ExtraBl, Apply,
      LensKept, ItemHere, Fields;
    IdleGot(wrap, t0, input, r0, a0);
    GotFacts(wrap, t0, input, r0, a0);
    var here;
    leave, r, here := PullItem(wrap, input, r0, tab, t0, a0);
    a := a0;
    if leave { return; }
    ItemHereFacts(a0, r, Stream(t0, input, r.b.next), here);
    var item := ItemOf(here, r.b.hold);
    RoomIs(a0.lens, r.nlen + r.ndist, item);
    ItemFails(wrap, t0, input, r, a0, here);
    var n := ItemRoom(r.have, r.nlen + r.ndist, item);
    if n.None? {
      r, a := r.(mode := BAD, b := Drop(r.b, here.bits)), Bad(a0, here.bits);
      return;
    }
    if n.value > r.nlen + r.ndist {
      r, a := r.(mode := BAD, b := ItemBuffer(r.b, here)), Bad(a0, here.bits + ExtraBl(here.val));
      return;
    }
    ItemMoves(wrap, t0, input, r, a0, here);
    ItemLonger(a0.lens, item);
    var have := StoreItem(lens, r.have, item, a0.lens);
    a := a0.(lens := Apply(a0.lens, item).value, p := a0.p + here.bits + ExtraBl(here.val));
    r := r.(b := ItemBuffer(r.b, here), have := have);
  }

  lemma ItemHereFacts(a: State, r: Regs, t: seq<bool>, here: Entry)
    requires ItemHere(a, r, t, here)
    ensures 1 <= here.bits && here.bits + ExtraBl(here.val) <= r.b.bits && here.val <= 18
  {
    hide Decode, ExtraBl;
    DecodeBits(CODES, a.lcode, t[a.p..]);
  }

  lemma ItemLonger(l: seq<nat>, item: Item)
    requires Apply(l, item).Some?
    ensures |Apply(l, item).value| > |l|
  {
  }

  // ---- The two tables ----

  /** The lengths end the header: which state follows. */
  ghost predicate GoodLengths(a: State) {
    && 256 < |a.lens| && a.lens[256] != 0 && a.nlen <= |a.lens|
    && Accepted(LENS, a.lens[..a.nlen]) && Accepted(DISTS, a.lens[a.nlen..])
  }

  lemma TablesStep(a: State, t: seq<bool>)
    requires a.mode == CODELENS && |a.lens| >= a.nlen + a.ndist && a.p <= |t|
    ensures StepIn(a, t) == Some(
      if GoodLengths(a) then a.(mode := LEN, lcode := a.lens[..a.nlen], dcode := a.lens[a.nlen..]) else Bad(a, 0))
    ensures !NeedsOut(a)
  {
    hide Accepted, Grows, Decode;
  }

  lemma TablesDone(wrap: bool, t0: seq<bool>, input: seq<byte>, r: Regs, a: State, l: Table, d: Table)
    requires Idle(wrap, t0, input, r, a) && r.mode == CODELENS && |a.lens| >= a.nlen + a.ndist
    ensures var ok := GoodLengths(a);
      var r' := if ok then r.(mode := LEN, lencode := l, distcode := d) else r.(mode := BAD);
      var a' := if ok then a.(mode := LEN, lcode := a.lens[..a.nlen], dcode := a.lens[a.nlen..]) else Bad(a, 0);
      Idle(wrap, t0, input, r', a') && Forward(a, a')
  {
    hide Idle, Got, Held, Buffered, Sound, StepIn, Stream, Grows, Lazy, Accepted;
    IdleGot(wrap, t0, input, r, a);
    GotFacts(wrap, t0, input, r, a);
    TablesStep(a, Stream(t0, input, r.b.next));
    LazyBits(r.b.bits, a, Stream(t0, input, r.b.next));
    if GoodLengths(a) {
      MovedPlain(wrap, t0, input, r, a, r.(mode := LEN, lencode := l, distcode := d),
        a.(mode := LEN, lcode := a.lens[..a.nlen], dcode := a.lens[a.nlen..]));
    } else {
      MovedPlain(wrap, t0, input, r, a, r.(mode := BAD), Bad(a, 0));
    }
  }

  /** inflate_table for the literal and length code. */
  method BuildLenTable(l: seq<nat>, work: array<nat>, codes: array<Entry>) returns (ret: int, next: nat, root: nat)
    requires 257 <= |l| <= 286 && Bounded(l, MAXBITS) && Longest(l, MAXBITS) > 0
    requires work.Length == 288 && codes.Length == 1444
    modifies work, codes
    ensures ret == 0 <==> Accepted(LENS, l)
    ensures ret == 0 ==> next <= 852 && 1 <= root <= MAXBITS && root == RootBits(l, 9) && next == TableSize(l, root)
    ensures ret == 0 ==> AllPlaced(codes[..], LENS, l, 0, root, next)
    ensures ret == 0 && !Complete(l) ==> root == 1 && next == 2 && codes[1] == INVALID_CODE
  {
    hide Longest, RootBits, TableSize, Acceptable, AllPlaced, Complete;
    EnoughFor(l);
    RootInRange(l, 9);
    ret, next, root := InflateTable(LENS, l, codes, 0, 9, work);
  }

  lemma EnoughFor(l: seq<nat>)
    requires |l| <= 286
    ensures Acceptable(LENS, l) && Longest(l, MAXBITS) > 0 ==> TableSize(l, RootBits(l, 9)) <= 852
  {
    hide Acceptable, Longest, TableSize, RootBits;
    if Acceptable(LENS, l) && Longest(l, MAXBITS) > 0 { EnoughLens(l); }
  }

  lemma EnoughForDists(l: seq<nat>)
    requires |l| <= 30
    ensures Acceptable(DISTS, l) && Longest(l, MAXBITS) > 0 ==> TableSize(l, RootBits(l, 6)) <= 592
  {
    hide Acceptable, Longest, TableSize, RootBits;
    if Acceptable(DISTS, l) && Longest(l, MAXBITS) > 0 { EnoughDists(l); }
  }

  /** inflate_table for the distance code, behind the table of the other code. */
  method BuildDistTable(l: seq<nat>, at: nat, work: array<nat>, codes: array<Entry>) returns (ret: int, root: nat)
    requires 1 <= |l| <= 30 && Bounded(l, MAXBITS) && at <= 852
    requires work.Length == 288 && codes.Length == 1444
    modifies work, codes
    ensures ret == 0 <==> Accepted(DISTS, l)
    ensures ret == 0 ==> TableFor(DISTS, l, codes[..], at, root)
    ensures forall i :: 0 <= i < at ==> codes[i] == old(codes[i])
  {
    hide Longest, RootBits, TableSize, Acceptable, AllPlaced, Complete, Accepted, TableFor;
    EnoughForDists(l);
    var next;
    ret, next, root := InflateTable(DISTS, l, codes, at, 6, work);
    TableMade(DISTS, l, codes[..], at, 6, ret, if ret == 0 then next else 0, root);
  }

  lemma SplitLengths(lens: seq<nat>, l: seq<nat>, n: nat)
    requires LensKept(lens, l) && n <= |l|
    ensures lens[..n] == l[..n] && lens[n..|l|] == l[n..]
    ensures Bounded(l[..n], MAXBITS) && Bounded(l[n..], MAXBITS)
  {
  }

  lemma SomeCode(l: seq<nat>, x: nat)
    requires Bounded(l, MAXBITS) && x < |l| && l[x] != 0
    ensures Longest(l, MAXBITS) > 0
  {
    LongestBounds(l, x);
  }

  /** Both tables, one behind the other. */
  method BuildBoth(lens: array<nat>, nlen: nat, ndist: nat, work: array<nat>, codes: array<Entry>, ghost l: seq<nat>)
    returns (ok: bool, lt: Table, dt: Table)
    requires LensKept(lens[..], l) && |l| == nlen + ndist && 257 <= nlen <= 286 && 1 <= ndist <= 30
    requires work.Length == 288 && codes.Length == 1444 && work != lens
    modifies work, codes
    ensures ok <==> l[256] != 0 && Accepted(LENS, l[..nlen]) && Accepted(DISTS, l[nlen..])
    ensures ok ==> !lt.fixed && !dt.fixed && TableFor(LENS, l[..nlen], codes[..], lt.at, lt.root)
    ensures ok ==> TableFor(DISTS, l[nlen..], codes[..], dt.at, dt.root)
  {
    hide Longest, RootBits, TableSize, Acceptable, AllPlaced, Complete, Accepted, TableFor, LensKept;
    ok, lt, dt := false, Table(false, 0, 0), Table(false, 0, 0);
    KeptAt(lens[..], l);
    SplitLengths(lens[..], l, nlen);
    if lens[256] == 0 { return; }
    SomeCode(l[..nlen], 256);
    assert lens[..][..nlen] == lens[..nlen] && lens[..][nlen..|l|] == lens[nlen..nlen + ndist];
    ghost var ll, dl := l[..nlen], l[nlen..];
    var ret, next, root := BuildLenTable(lens[..nlen], work, codes);
    if ret != 0 { return; }
    ghost var t: seq<Entry> := codes[..];
    var dret, droot := BuildDistTable(lens[nlen..nlen + ndist], next, work, codes);
    if dret != 0 { return; }
    PlacedKept(t, codes[..], LENS, ll, 0, root, next);
    LenTableFor(ll, codes[..], next, root);
    ok, lt, dt := true, Table(false, 0, root), Table(false, next, droot);
  }

  lemma LenTableFor(l: seq<nat>, tab: seq<Entry>, next: nat, root: nat)
    requires Accepted(LENS, l) && Longest(l, MAXBITS) > 0 && next <= |tab| && 2 <= |tab| && 1 <= root <= MAXBITS
    requires AllPlaced(tab, LENS, l, 0, root, next) && (!Complete(l) ==> root == 1 && tab[1] == INVALID_CODE)
    ensures TableFor(LENS, l, tab, 0, root)
  {
    hide AllPlaced, Longest, Complete, Acceptable;
    PlacedWider(tab, LENS, l, 0, root, next);
  }

  lemma KeptAt(lens: seq<nat>, l: seq<nat>)
    requires LensKept(lens, l)
    ensures |lens| == 320 && forall i :: 0 <= i < |l| ==> lens[i] == l[i]
  {
  }

  method CodeLensCase(wrap: bool, input: seq<byte>, r0: Regs, lens: array<nat>, work: array<nat>, codes: array<Entry>,
                      ghost t0: seq<bool>, ghost a0: State)
    returns (leave: bool, r: Regs, ghost a: State)
    requires Idle(wrap, t0, input, r0, a0) && r0.mode == CODELENS && r0.have == |a0.lens|
    requires LensKept(lens[..], a0.lens)
    requires TableFor(CODES, a0.lcode, codes[..], r0.lencode.at, r0.lencode.root)
    requires work.Length == 288 && codes.Length == 1444 && work != lens
    modifies lens, work, codes
    ensures Idle(wrap, t0, input, r, a) && r0.b.next <= r.b.next && a.out == a0.out && a.p >= a0.p
    ensures leave ==> a.mode == CODELENS && r.b.next == |input| && StepIn(a, Stream(t0, input, r.b.next)).None?
    ensures leave ==> LensKept(lens[..], a.lens) && r.have == |a.lens| && r.lencode == r0.lencode
    ensures leave ==> TableFor(CODES, a.lcode, codes[..], r.lencode.at, r.lencode.root)
    ensures !leave ==> Forward(a0, a) && (a.mode == BAD || a.mode == LEN)
    ensures !leave && a.mode == LEN ==>
      !r.lencode.fixed && TableFor(LENS, a.lcode, codes[..], r.lencode.at, r.lencode.root)
    ensures !leave && a.mode == LEN ==>
      !r.distcode.fixed && TableFor(DISTS, a.dcode, codes[..], r.distcode.at, r.distcode.root)
  {
    hide Idle, StepIn, Stream, Accepted, TableFor, Got, LensKept, ModeRank;
    r, a, leave := r0, a0, false;
    KnownCounts(wrap, t0, input, r, a);
    while r.have < r.nlen + r.ndist
      invariant Idle(wrap, t0, input, r, a) && r0.b.next <= r.b.next && a.out == a0.out && a.p >= a0.p
      invariant a.mode == CODELENS
      invariant LensKept(lens[..], a.lens) && r.have == |a.lens| <= r.nlen + r.ndist && r.mode == CODELENS
      invariant r.lencode == r0.lencode && TableFor(CODES, a.lcode, codes[..], r.lencode.at, r.lencode.root)
      invariant r.nlen == a.nlen && r.ndist == a.ndist && 257 <= r.nlen <= 286 && 1 <= r.ndist <= 30
      decreases r.nlen + r.ndist - r.have
    {
      leave, r, a := ReadItemCase(wrap, input, r, lens, codes, t0, a);
      if leave { return; }
      if r.mode == BAD { return; }
    }
    var ok, lt, dt := BuildBoth(lens, r.nlen, r.ndist, work, codes, a.lens);
    TablesDone(wrap, t0, input, r, a, lt, dt);
    ForwardLonger(a0, a);
    if ok {
      r, a := r.(mode := LEN, lencode := lt, distcode := dt),
        a.(mode := LEN, lcode := a.lens[..a.nlen], dcode := a.lens[a.nlen..]);
    } else {
      r, a := r.(mode := BAD), Bad(a, 0);
    }
  }

  lemma KnownCounts(wrap: bool, t0: seq<bool>, input: seq<byte>, r: Regs, a: State)
    requires Idle(wrap, t0, input, r, a) && r.mode == CODELENS
    ensures r.nlen == a.nlen && r.ndist == a.ndist && a.mode == CODELENS && |a.lens| <= a.nlen + a.ndist
    ensures 257 <= a.nlen <= 286 && 1 <= a.ndist <= 30
  {
    hide Got, Lazy, Held, Accepted;
    IdleGot(wrap, t0, input, r, a);
    CountsKnown(wrap, t0, input, r, a);
    GotFacts(wrap, t0, input, r, a);
  }
}
