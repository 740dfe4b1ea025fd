/** Two-level decoding tables: what an entry means, and what a lookup returns. */
module DecodeTable {
  import opened Bits
  import opened Canonical

  /** op: 0 literal; 1..15 link to a table of that many bits; 16 + e length or
      distance base with e extra bits; 32 + 64 end of block; 64 set alone marks
      an invalid code. */
  datatype Entry = Entry(op: nat, bits: nat, val: nat)

  datatype CodeType = CODES | LENS | DISTS

  const LBASE: seq<nat> :=
    [3, 4, 5, 6, 7, 8, 9, 10, 11, 13, 15, 17, 19, 23, 27, 31,
     35, 43, 51, 59, 67, 83, 99, 115, 131, 163, 195, 227, 258, 0, 0]
  const LEXT: seq<nat> :=
    [16, 16, 16, 16, 16, 16, 16, 16, 17, 17, 17, 17, 18, 18, 18, 18,
     19, 19, 19, 19, 20, 20, 20, 20, 21, 21, 21, 21, 16, 72, 78]
  const DBASE: seq<nat> :=
    [1, 2, 3, 4, 5, 7, 9, 13, 17, 25, 33, 49, 65, 97, 129, 193,
     257, 385, 513, 769, 1025, 1537, 2049, 3073, 4097, 6145,
     8193, 12289, 16385, 24577, 0, 0]
  const DEXT: seq<nat> :=
    [16, 16, 16, 16, 17, 17, 18, 18, 19, 19, 20, 20, 21, 21, 22, 22,
     23, 23, 24, 24, 25, 25, 26, 26, 27, 27,
     28, 28, 29, 29, 64, 64]

  const INVALID_CODE: Entry := Entry(64, 1, 0)

  function MaxSymbols(ty: CodeType): nat {
    match ty case CODES => 19 case LENS => 288 case DISTS => 32
  }

  /** ENOUGH_LENS and ENOUGH_DISTS; a code length table has at most 7 bits. */
  function Enough(ty: CodeType): nat {
    match ty case CODES => 128 case LENS => 852 case DISTS => 592
  }

  /** The entry for symbol s when bits of its code remain to be dropped. */
  function EntryFor(ty: CodeType, s: nat, bits: nat): Entry
    requires s < MaxSymbols(ty)
  {
    Entry(EntryOp(ty, s), bits, EntryVal(ty, s))
  }

  function EntryOp(ty: CodeType, s: nat): (op: nat)
    requires s < MaxSymbols(ty)
    ensures op == 0 || op >= 16
  {
    match ty
    case CODES => 0
    case LENS => if s < 256 then 0 else if s == 256 then 96 else LEXT[s - 257]
    case DISTS => DEXT[s]
  }

  function EntryVal(ty: CodeType, s: nat): nat
    requires s < MaxSymbols(ty)
  {
    match ty
    case CODES => s
    case LENS => if s < 256 then s else if s == 256 then 0 else LBASE[s - 257]
    case DISTS => DBASE[s]
  }

  predicate EndsIn(i: nat, w: nat, r: nat) { Low(i, w) == r }

  /** Among the 2^n entries at base, those whose index ends in the w bits r are e. */
  ghost predicate Filled(t: seq<Entry>, base: nat, n: nat, w: nat, r: nat, e: Entry) {
    && base + Pow2(n) <= |t|
    && forall i: nat :: i < Pow2(n) && EndsIn(i, w, r) ==> t[base + i] == e
  }

  /** A code r (reversed) of l bits can be found in the table of root index bits
      that starts at index at and ends before index end. */
  ghost predicate PlacedAs(t: seq<Entry>, at: nat, root: nat, end: nat, l: nat, r: nat, op: nat, val: nat) {
    && at + Pow2(root) <= end <= |t|
    && if l <= root then
         Filled(t, at, root, l, r, Entry(op, l, val))
       else
         var e := t[at + Low(r, root)];
         && e.bits == root && l - root <= e.op <= MAXBITS
         && Pow2(root) <= e.val && at + e.val + Pow2(e.op) <= end
         && Filled(t, at + e.val, e.op, l - root, Shr(r, root), Entry(op, l - root, val))
  }

  ghost predicate Placed(t: seq<Entry>, ty: CodeType, lens: seq<nat>, at: nat, root: nat, end: nat, s: nat)
    requires s < |lens| <= MaxSymbols(ty)
  {
    PlacedAs(t, at, root, end, lens[s], RevCode(lens, s), EntryOp(ty, s), EntryVal(ty, s))
  }

  ghost predicate AllPlaced(t: seq<Entry>, ty: CodeType, lens: seq<nat>, at: nat, root: nat, end: nat)
    requires |lens| <= MaxSymbols(ty)
  {
    forall s :: 0 <= s < |lens| && lens[s] > 0 ==> Placed(t, ty, lens, at, root, end, s)
  }

  predicate IsLink(e: Entry) { 0 < e.op < 16 }

  /** A link at root index i stays inside the table and drops root bits. */
  predicate LinkOk(t: seq<Entry>, at: nat, root: nat, end: nat, i: nat) {
    && at + i < |t|
    && (IsLink(t[at + i]) ==> t[at + i].bits == root && at + t[at + i].val + Pow2(t[at + i].op) <= end <= |t|)
  }

  /** One decoding step of the inflate states: a lookup in the root table and,
      through a link, in a second table.  The result carries the bits of both. */
  function Lookup(t: seq<Entry>, at: nat, root: nat, hold: nat): Entry
    requires LinkOk(t, at, root, |t|, Low(hold, root))
  {
    var e := t[at + Low(hold, root)];
    if IsLink(e) then
      var sub := Low(Shr(hold, e.bits), e.op);
      var f := t[at + e.val + sub];
      Entry(f.op, e.bits + f.bits, f.val)
    else e
  }

  /** If the code of s leads the bits of hold, the lookup returns s and the
      exact length of its code. */
  lemma LookupFinds(t: seq<Entry>, ty: CodeType, lens: seq<nat>, at: nat, root: nat, end: nat, s: nat, hold: nat)
    requires s < |lens| <= MaxSymbols(ty) && Placed(t, ty, lens, at, root, end, s)
    requires Low(hold, lens[s]) == RevCode(lens, s)
    ensures LinkOk(t, at, root, end, Low(hold, root))
    ensures IsLink(t[at + Low(hold, root)]) <==> lens[s] > root
    ensures Lookup(t, at, root, hold) == EntryFor(ty, s, lens[s])
  {
    hide RevCode, EntryOp, EntryVal;
    if lens[s] <= root {
      ShortLookup(t, at, root, end, lens[s], RevCode(lens, s), EntryOp(ty, s), EntryVal(ty, s), hold);
    } else {
      LongLookup(t, at, root, end, lens[s], RevCode(lens, s), EntryOp(ty, s), EntryVal(ty, s), hold);
    }
  }

  lemma ShortLookup(t: seq<Entry>, at: nat, root: nat, end: nat, l: nat, r: nat, op: nat, val: nat, hold: nat)
    requires PlacedAs(t, at, root, end, l, r, op, val) && l <= root && Low(hold, l) == r
    requires !(0 < op < 16)
    ensures LinkOk(t, at, root, end, Low(hold, root)) && !IsLink(t[at + Low(hold, root)])
    ensures Lookup(t, at, root, hold) == Entry(op, l, val)
  {
    RootLookup(t, at, root, hold, l, r, Entry(op, l, val));
  }

  lemma LongLookup(t: seq<Entry>, at: nat, root: nat, end: nat, l: nat, r: nat, op: nat, val: nat, hold: nat)
    requires PlacedAs(t, at, root, end, l, r, op, val) && l > root && Low(hold, l) == r
    ensures LinkOk(t, at, root, end, Low(hold, root)) && IsLink(t[at + Low(hold, root)])
    ensures Lookup(t, at, root, hold) == Entry(op, l, val)
  {
    hide Low, Shr, Filled, Pow2;
    LowLow(hold, root, l);
    var e := t[at + Low(r, root)];
    LinkedLookup(t, at + e.val, e.op, root, hold, l, r, Entry(op, l - root, val));
  }

  lemma RootLookup(t: seq<Entry>, at: nat, root: nat, hold: nat, l: nat, r: nat, e: Entry)
    requires l <= root && Filled(t, at, root, l, r, e) && Low(hold, l) == r
    ensures t[at + Low(hold, root)] == e
  {
    LowLow(hold, l, root);
    assert EndsIn(Low(hold, root), l, r);
  }

  lemma LinkedLookup(t: seq<Entry>, base: nat, n: nat, root: nat, hold: nat, l: nat, r: nat, e: Entry)
    requires root < l <= root + n && Filled(t, base, n, l - root, Shr(r, root), e) && Low(hold, l) == r
    ensures t[base + Low(Shr(hold, root), n)] == e
  {
    LowLow(hold, root, l);
    LowLow(Shr(hold, root), l - root, n);
    assert EndsIn(Low(Shr(hold, root), n), l - root, Shr(r, root));
  }

  /** Every lookup in the table of a complete code finds the symbol whose code
      leads the bits. */
  lemma LookupTotal(t: seq<Entry>, ty: CodeType, lens: seq<nat>, at: nat, root: nat, end: nat, hold: nat)
    returns (s: nat)
    requires |lens| <= MaxSymbols(ty) && Complete(lens) && AllPlaced(t, ty, lens, at, root, end)
    requires end <= |t|
    ensures s < |lens| && lens[s] > 0 && Low(hold, lens[s]) == RevCode(lens, s)
    ensures LinkOk(t, at, root, |t|, Low(hold, root))
    ensures Lookup(t, at, root, hold) == EntryFor(ty, s, lens[s])
  {
    s := LowDecodes(lens, hold);
    LookupFinds(t, ty, lens, at, root, end, s, hold);
  }
}
