/** What inflate reads out of its tables is the symbol of the canonical code,
    however few bits are there yet. */
module TableDecoding {
  import opened Bits
  import opened Canonical
  import opened DecodeTable
  import opened Inftrees
  import opened CodeLengths
  import opened Machine
  import opened MachineLaws
  import opened BlockReader

  /** A table that inflate_table built, without an error, for lens at index at. */
  ghost predicate TableFor(ty: CodeType, lens: seq<nat>, tab: seq<Entry>, at: nat, root: nat) {
    && Accepted(ty, lens) && 1 <= root <= MAXBITS && at + 2 <= |tab|
    && if Longest(lens, MAXBITS) == 0 then root == 1 && tab[at] == INVALID_CODE && tab[at + 1] == INVALID_CODE
       else AllPlaced(tab, ty, lens, at, root, |tab|) && (!Complete(lens) ==> root == 1 && tab[at + 1] == INVALID_CODE)
  }

  lemma PlacedWider(t: seq<Entry>, ty: CodeType, lens: seq<nat>, at: nat, root: nat, end: nat)
    requires |lens| <= MaxSymbols(ty) && AllPlaced(t, ty, lens, at, root, end) && end <= |t|
    ensures AllPlaced(t, ty, lens, at, root, |t|)
  {
    hide RevCode, EntryOp, EntryVal, Filled, Pow2;
    forall s | 0 <= s < |lens| && lens[s] > 0 ensures Placed(t, ty, lens, at, root, |t|, s) {
      assert Placed(t, ty, lens, at, root, end, s);
    }
  }

  /** What a lookup on the bits b, zeros above them, has to do with the code. */
  ghost predicate Agrees(ty: CodeType, lens: seq<nat>, tab: seq<Entry>, at: nat, root: nat, b: seq<bool>) {
    && LinkOk(tab, at, root, |tab|, Low(FromBits(b), root))
    && var e := Lookup(tab, at, root, FromBits(b));
    && (e.bits <= |b| ==> Decode(ty, lens, b) == Some(e))
    && (Decode(ty, lens, b).Some? ==> Decode(ty, lens, b) == Some(e))
    && e.bits <= MAXBITS
  }

  lemma CompleteAgrees(ty: CodeType, lens: seq<nat>, tab: seq<Entry>, at: nat, root: nat, b: seq<bool>)
    requires TableFor(ty, lens, tab, at, root) && Complete(lens) && Longest(lens, MAXBITS) > 0
    ensures Agrees(ty, lens, tab, at, root, b)
  {
    hide RevCode, EntryOp, EntryVal, AllPlaced, Lookup, LinkOk, SymbolAt, Left, Codeword;
    var v := FromBits(b);
    var s := LookupTotal(tab, ty, lens, at, root, |tab|, v);
    SymbolIs(lens, b);
    RevIs(lens, s);
    if lens[s] <= |b| {
      LeadsIffLow(lens, s, b);
      SymbolRead(ty, lens, s, b);
    }
    var r := SymbolAt(lens, b, |lens|);
    if r.Some? {
      LeadsIffLow(lens, r.value, b);
      RevIs(lens, r.value);
      LowPrefixFree(lens, s, r.value, v);
    }
  }

  lemma RevIs(lens: seq<nat>, s: nat)
    requires s < |lens|
    ensures RevCode(lens, s) == Rev(Code(lens, s), lens[s])
  {
  }

  lemma EmptyAgrees(ty: CodeType, lens: seq<nat>, tab: seq<Entry>, at: nat, root: nat, b: seq<bool>)
    requires TableFor(ty, lens, tab, at, root) && Longest(lens, MAXBITS) == 0
    ensures Agrees(ty, lens, tab, at, root, b)
  {
    hide Left, Codeword, AllPlaced, SymbolAt, Longest;
    SymbolIs(lens, b);
    NoSymbols(lens);
    LowOne(FromBits(b));
    hide Low, FromBits;
    assert SymbolAt(lens, b, |lens|).None?;
  }

  lemma LowOne(v: nat)
    ensures Low(v, 1) == v % 2
  {
  }

  lemma NoSymbols(lens: seq<nat>)
    requires Longest(lens, MAXBITS) == 0 && Bounded(lens, MAXBITS)
    ensures !Complete(lens) && forall s :: 0 <= s < |lens| ==> lens[s] == 0
  {
    forall s | 0 <= s < |lens| ensures lens[s] == 0 {
      if lens[s] > 0 { LongestBounds(lens, s); }
    }
    assert Bounded(lens, 0);
    AllFree(lens, MAXBITS);
  }

  lemma {:induction false} AllFree(lens: seq<nat>, l: nat)
    requires Bounded(lens, 0)
    ensures Left(lens, l) > 0
  {
    if l > 0 {
      AllFree(lens, l - 1);
      NoSuchLength(lens, 0, l, |lens|);
    }
  }

  /** A single code of one bit. */
  lemma SingleCode(ty: CodeType, lens: seq<nat>) returns (s: nat)
    requires Accepted(ty, lens) && Longest(lens, MAXBITS) > 0 && !Complete(lens)
    ensures s < |lens| && lens[s] == 1 && RevCode(lens, s) == 0 && Fits(lens)
    ensures forall x :: 0 <= x < |lens| && lens[x] > 0 ==> x == s
  {
    hide Rev, SymIn;
    LeftSign(lens, 1, MAXBITS);
    if Left(lens, 1) <= 0 { NothingLeft(lens, 1, MAXBITS); }
    assert Left(lens, 1) == 2 - Count(lens, 1);
    assert Count(lens, 1) == 1;
    s := Sym(lens, 1, 0);
    AcceptedFits(ty, lens);
    forall x | 0 <= x < |lens| && lens[x] > 0 ensures x == s {
      RankOf(lens, x);
      SameRank(lens, x, s);
    }
    FirstIsZero(lens, s);
  }

  lemma FirstIsZero(lens: seq<nat>, s: nat)
    requires s < |lens| && lens[s] == 1 && Rank(lens, s) == 0
    ensures RevCode(lens, s) == 0
  {
    assert FirstCode(lens, 1) == 0;
    assert Code(lens, s) == 0;
  }

  lemma SingleAgrees(ty: CodeType, lens: seq<nat>, tab: seq<Entry>, at: nat, root: nat, b: seq<bool>)
    requires TableFor(ty, lens, tab, at, root) && !Complete(lens) && Longest(lens, MAXBITS) > 0
    ensures Agrees(ty, lens, tab, at, root, b)
  {
    hide Left, Codeword, Placed, SymbolAt, Longest, RevCode, Low, Rev, FromBits, EntryOp, EntryVal, Complete;
    var s := SingleCode(ty, lens);
    var v := FromBits(b);
    SymbolIs(lens, b);
    RevIs(lens, s);
    LowOne(v);
    if 1 <= |b| { LeadsIffLow(lens, s, b); } else { NoBitsValue(b); }
    if v % 2 == 0 {
      LookupFinds(tab, ty, lens, at, root, |tab|, s, v);
      if 1 <= |b| { SymbolRead(ty, lens, s, b); }
    } else {
      assert SymbolAt(lens, b, |lens|).None?;
    }
  }

  lemma NoBitsValue(b: seq<bool>)
    requires b == []
    ensures FromBits(b) == 0
  {
  }

  /** Decoding by table: a lookup whose bits are all there is the code's symbol, and
      a symbol that is there is found. */
  lemma TableDecodes(ty: CodeType, lens: seq<nat>, tab: seq<Entry>, at: nat, root: nat, b: seq<bool>)
    requires TableFor(ty, lens, tab, at, root)
    ensures Agrees(ty, lens, tab, at, root, b)
  {
    hide Agrees, TableFor;
    if Longest(lens, MAXBITS) == 0 {
      EmptyAgrees(ty, lens, tab, at, root, b);
    } else if Complete(lens) {
      CompleteAgrees(ty, lens, tab, at, root, b);
    } else {
      SingleAgrees(ty, lens, tab, at, root, b);
    }
  }

  /** The first lookup of two: the link does not change when more bits arrive. */
  lemma LinkStays(tab: seq<Entry>, at: nat, root: nat, b: seq<bool>, c: seq<bool>)
    requires root <= |b|
    ensures Low(FromBits(b + c), root) == Low(FromBits(b), root)
  {
    hide Low, FromBits;
    FromBitsSplit(b, root);
    FromBitsSplit(b + c, root);
    assert (b + c)[..root] == b[..root];
  }
}
