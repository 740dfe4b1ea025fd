/** Reading one symbol through the decoding tables (deps/libz/inflate.c: the
    lookup loops of CODELENS, LEN and DIST): bytes are pulled one at a time until
    the entry found needs no more bits than there are. */
module SymbolReader {
  import opened Bits
  import opened Canonical
  import opened DecodeTable
  import opened CodeLengths
  import opened Machine
  import opened MachineLaws
  import opened TableDecoding
  import opened BitBuffer

  /** The bits at hand, in terms of the buffer. */
  lemma HeldBits(t0: seq<bool>, input: seq<byte>, b: Buffer, q: nat)
    requires Held(t0, input, b, q)
    ensures q <= |Stream(t0, input, b.next)| && FromBits(Stream(t0, input, b.next)[q..]) == b.hold
    ensures |Stream(t0, input, b.next)[q..]| == b.bits && b.next <= |input|
  {
    hide FromBits;
  }

  /** What the first lookup gives. */
  lemma FirstLookup(ty: CodeType, lens: seq<nat>, tab: seq<Entry>, at: nat, root: nat, s: seq<bool>)
    requires Agrees(ty, lens, tab, at, root, s)
    ensures at + Low(FromBits(s), root) < |tab|
    ensures var e := tab[at + Low(FromBits(s), root)];
      && (IsLink(e) ==> e.bits == root)
      && (!IsLink(e) ==> e == Lookup(tab, at, root, FromBits(s)) && e.bits <= MAXBITS)
      && (!IsLink(e) && e.bits <= |s| ==> Decode(ty, lens, s) == Some(e))
      && (e.bits > |s| ==> Decode(ty, lens, s).None?)
  {
    hide Decode, FromBits, Low;
    if Decode(ty, lens, s).Some? { DecodeBits(ty, lens, s); }
  }

  /** The second lookup, from the link e. */
  lemma SecondLookup(ty: CodeType, lens: seq<nat>, tab: seq<Entry>, at: nat, root: nat, s: seq<bool>, e: Entry)
    requires Agrees(ty, lens, tab, at, root, s) && at + Low(FromBits(s), root) < |tab|
    requires e == tab[at + Low(FromBits(s), root)] && IsLink(e)
    ensures var sub := Low(Shr(FromBits(s), e.bits), e.op);
      && at + e.val + sub < |tab|
      && var f := tab[at + e.val + sub];
      && (e.bits + f.bits <= |s| ==> Decode(ty, lens, s) == Some(Entry(f.op, e.bits + f.bits, f.val)))
      && (e.bits + f.bits > |s| ==> Decode(ty, lens, s).None?)
      && e.bits + f.bits <= MAXBITS
  {
    hide Decode, FromBits, Shr, Low, Pow2;
    LowFit(Shr(FromBits(s), e.bits), e.op);
    if Decode(ty, lens, s).Some? { DecodeBits(ty, lens, s); }
  }

  lemma LowFit(v: nat, n: nat)
    ensures Low(v, n) < Pow2(n)
  {
  }

  /** BITS(last.bits + last.op) >> last.bits */
  lemma SecondIndex(hold: nat, i: nat, n: nat)
    ensures Shr(Low(hold, i + n), i) == Low(Shr(hold, i), n)
  {
    LowLow(hold, i, i + n);
  }

  /** The last byte pulled was needed: without it there was no whole symbol. */
  ghost predicate Needed(ty: CodeType, lens: seq<nat>, t0: seq<bool>, input: seq<byte>, b0: Buffer, b: Buffer, q: nat) {
    && b0.next <= b.next <= |input| && (b.next == b0.next ==> b == b0)
    && (b.next > b0.next ==>
        q <= |Stream(t0, input, b.next - 1)| && Decode(ty, lens, Stream(t0, input, b.next - 1)[q..]).None?)
  }

  /** So less than a byte is left over. */
  lemma LeftOver(ty: CodeType, lens: seq<nat>, t0: seq<bool>, input: seq<byte>, b0: Buffer, b: Buffer, q: nat, e: Entry)
    requires Held(t0, input, b, q) && Needed(ty, lens, t0, input, b0, b, q) && Accepted(ty, lens)
    requires q <= |Stream(t0, input, b.next)| && Decode(ty, lens, Stream(t0, input, b.next)[q..]) == Some(e)
    ensures b == b0 || b.bits < e.bits + 8
  {
    hide Decode, Accepted, Stream, FromBits;
    if b.next > b0.next && b.bits >= e.bits + 8 {
      var s := Stream(t0, input, b.next - 1);
      StreamGrows(t0, input, b.next - 1);
      StreamSize(t0, input, b.next - 1);
      assert Stream(t0, input, b.next)[q..] == s[q..] + ToBits(input[b.next - 1], 8);
      DecodeLess(ty, lens, s[q..], ToBits(input[b.next - 1], 8));
    }
  }

  lemma StreamSize(t0: seq<bool>, input: seq<byte>, next: nat)
    requires next < |input|
    ensures |Stream(t0, input, next + 1)| == |Stream(t0, input, next)| + 8
  {
  }

  /** What is known at the head of both loops: the entry e for the bits at hand. */
  ghost predicate AtEntry(ty: CodeType, lens: seq<nat>, tab: seq<Entry>, at: nat, root: nat, t0: seq<bool>,
                          input: seq<byte>, b: Buffer, q: nat, e: Entry) {
    && Held(t0, input, b, q) && q <= |Stream(t0, input, b.next)|
    && at + Low(b.hold, root) < |tab| && e == tab[at + Low(b.hold, root)]
    && (IsLink(e) ==> e.bits == root)
    && (!IsLink(e) ==> e.bits <= MAXBITS)
    && (!IsLink(e) && e.bits <= b.bits ==> Decode(ty, lens, Stream(t0, input, b.next)[q..]) == Some(e))
    && (e.bits > b.bits ==> Decode(ty, lens, Stream(t0, input, b.next)[q..]).None?)
  }

  lemma EntryAt(ty: CodeType, lens: seq<nat>, tab: seq<Entry>, at: nat, root: nat, t0: seq<bool>, input: seq<byte>,
                b: Buffer, q: nat)
    requires Held(t0, input, b, q) && TableFor(ty, lens, tab, at, root)
    ensures at + Low(b.hold, root) < |tab| && b.next <= |input|
    ensures AtEntry(ty, lens, tab, at, root, t0, input, b, q, tab[at + Low(b.hold, root)])
  {
    hide Held, Stream, TableFor, Agrees, Decode, Low, FromBits, Lookup;
    HeldBits(t0, input, b, q);
    var s := Stream(t0, input, b.next)[q..];
    TableDecodes(ty, lens, tab, at, root, s);
    FirstLookup(ty, lens, tab, at, root, s);
  }

  lemma NeededMore(ty: CodeType, lens: seq<nat>, t0: seq<bool>, input: seq<byte>, b0: Buffer, b: Buffer, b': Buffer,
                   q: nat)
    requires Needed(ty, lens, t0, input, b0, b, q) && b'.next == b.next + 1 <= |input|
    requires q <= |Stream(t0, input, b.next)|
    requires Decode(ty, lens, Stream(t0, input, b.next)[q..]).None?
    ensures Needed(ty, lens, t0, input, b0, b', q)
  {
    hide Decode, Stream;
  }

  /** The first loop: a literal entry, or a link. */
  method FirstEntry(input: seq<byte>, b0: Buffer, tab: array<Entry>, at: nat, root: nat, ghost t0: seq<bool>,
                    ghost q: nat, ghost ty: CodeType, ghost lens: seq<nat>)
    returns (ok: bool, e: Entry, b: Buffer)
    requires Held(t0, input, b0, q) && TableFor(ty, lens, tab[..], at, root) && b0.bits < 23 && root <= MAXBITS
    ensures AtEntry(ty, lens, tab[..], at, root, t0, input, b, q, e) && Needed(ty, lens, t0, input, b0, b, q)
    ensures b.bits < 23
    ensures if ok then e.bits <= b.bits else b.next == |input| && b.bits < e.bits
  {
    hide Held, Stream, TableFor, Decode, Low, AtEntry, Needed;
    b := b0;
    EntryAt(ty, lens, tab[..], at, root, t0, input, b, q);
    e := tab[at + Low(b.hold, root)];
    EntryFacts(ty, lens, tab[..], at, root, t0, input, b, q, e);
    NeededNone(ty, lens, t0, input, b, q);
    while b.bits < e.bits
      invariant Held(t0, input, b, q) && AtEntry(ty, lens, tab[..], at, root, t0, input, b, q, e)
      invariant Needed(ty, lens, t0, input, b0, b, q) && b.bits < 23 && b.next <= |input|
      decreases |input| - b.next
    {
      EntryFacts(ty, lens, tab[..], at, root, t0, input, b, q, e);
      ghost var b1 := b;
      var pulled;
      pulled, b := PullByte(input, b, t0, q);
      if !pulled { return false, e, b; }
      NeededMore(ty, lens, t0, input, b0, b1, b, q);
      EntryAt(ty, lens, tab[..], at, root, t0, input, b, q);
      e := tab[at + Low(b.hold, root)];
    }
    ok := true;
  }

  lemma NeededNone(ty: CodeType, lens: seq<nat>, t0: seq<bool>, input: seq<byte>, b: Buffer, q: nat)
    requires b.next <= |input|
    ensures Needed(ty, lens, t0, input, b, b, q)
  {
    hide Decode, Stream;
  }

  lemma EntryFacts(ty: CodeType, lens: seq<nat>, tab: seq<Entry>, at: nat, root: nat, t0: seq<bool>, input: seq<byte>,
                   b: Buffer, q: nat, e: Entry)
    requires AtEntry(ty, lens, tab, at, root, t0, input, b, q, e) && root <= MAXBITS
    ensures Held(t0, input, b, q) && e.bits <= MAXBITS && (IsLink(e) ==> e.bits == root)
    ensures q <= |Stream(t0, input, b.next)|
    ensures e.bits > b.bits ==> Decode(ty, lens, Stream(t0, input, b.next)[q..]).None?
    ensures !IsLink(e) && e.bits <= b.bits ==> Decode(ty, lens, Stream(t0, input, b.next)[q..]) == Some(e)
  {
    hide Held, Stream, Decode, Low;
  }

  /** What is known at the head of the second loop: last is the link, f the entry it leads to. */
  ghost predicate AtSecond(ty: CodeType, lens: seq<nat>, tab: seq<Entry>, at: nat, root: nat, t0: seq<bool>,
                           input: seq<byte>, b: Buffer, q: nat, last: Entry, f: Entry) {
    && Held(t0, input, b, q) && q <= |Stream(t0, input, b.next)| && root <= b.bits
    && at + Low(b.hold, root) < |tab| && last == tab[at + Low(b.hold, root)] && IsLink(last)
    && last.bits + f.bits <= MAXBITS
    && (last.bits + f.bits <= b.bits ==>
        Decode(ty, lens, Stream(t0, input, b.next)[q..]) == Some(Entry(f.op, last.bits + f.bits, f.val)))
    && (last.bits + f.bits > b.bits ==> Decode(ty, lens, Stream(t0, input, b.next)[q..]).None?)
  }

  lemma SecondAt(ty: CodeType, lens: seq<nat>, tab: seq<Entry>, at: nat, root: nat, t0: seq<bool>, input: seq<byte>,
                 b: Buffer, q: nat, last: Entry)
    requires Held(t0, input, b, q) && TableFor(ty, lens, tab, at, root) && root <= b.bits
    requires at + Low(b.hold, root) < |tab| && last == tab[at + Low(b.hold, root)] && IsLink(last)
    ensures var i := Shr(Low(b.hold, last.bits + last.op), last.bits);
            at + last.val + i < |tab| && b.next <= |input|
            && AtSecond(ty, lens, tab, at, root, t0, input, b, q, last, tab[at + last.val + i])
  {
    hide Held, Stream, TableFor, Agrees, Decode, Low, Shr, FromBits, Lookup;
    HeldBits(t0, input, b, q);
    var s := Stream(t0, input, b.next)[q..];
    TableDecodes(ty, lens, tab, at, root, s);
    SecondLookup(ty, lens, tab, at, root, s, last);
    SecondIndex(b.hold, last.bits, last.op);
  }

  /** Pulling a byte does not change the link. */
  lemma LinkKept(t0: seq<bool>, input: seq<byte>, b: Buffer, b': Buffer, q: nat, root: nat)
    requires Held(t0, input, b, q) && Held(t0, input, b', q) && b'.next == b.next + 1 && root <= b.bits
    ensures Low(b'.hold, root) == Low(b.hold, root)
  {
    hide Held, Stream, Low, FromBits, ToBits;
    HeldBits(t0, input, b, q);
    HeldBits(t0, input, b', q);
    StreamGrows(t0, input, b.next);
    var s := Stream(t0, input, b.next);
    assert Stream(t0, input, b'.next)[q..] == s[q..] + ToBits(input[b.next], 8);
    LinkStays([], 0, root, s[q..], ToBits(input[b.next], 8));
  }

  lemma SecondFacts(ty: CodeType, lens: seq<nat>, tab: seq<Entry>, at: nat, root: nat, t0: seq<bool>, input: seq<byte>,
                    b: Buffer, q: nat, last: Entry, f: Entry)
    requires AtSecond(ty, lens, tab, at, root, t0, input, b, q, last, f)
    ensures Held(t0, input, b, q) && q <= |Stream(t0, input, b.next)| && root <= b.bits && last.bits + f.bits <= MAXBITS
    ensures at + Low(b.hold, root) < |tab| && last == tab[at + Low(b.hold, root)] && IsLink(last)
    ensures last.bits + f.bits > b.bits ==> Decode(ty, lens, Stream(t0, input, b.next)[q..]).None?
    ensures last.bits + f.bits <= b.bits ==>
      Decode(ty, lens, Stream(t0, input, b.next)[q..]) == Some(Entry(f.op, last.bits + f.bits, f.val))
  {
    hide Held, Stream, Decode, Low;
  }

  /** The second loop, from the link last. */
  method SecondEntry(input: seq<byte>, ghost b0: Buffer, b1: Buffer, tab: array<Entry>, at: nat, root: nat, last: Entry,
                     ghost t0: seq<bool>, ghost q: nat, ghost ty: CodeType, ghost lens: seq<nat>)
    returns (ok: bool, f: Entry, b: Buffer)
    requires AtEntry(ty, lens, tab[..], at, root, t0, input, b1, q, last) && Needed(ty, lens, t0, input, b0, b1, q)
    requires TableFor(ty, lens, tab[..], at, root) && b1.bits < 23 && root <= MAXBITS && IsLink(last)
    requires last.bits <= b1.bits
    ensures AtSecond(ty, lens, tab[..], at, root, t0, input, b, q, last, f) && Needed(ty, lens, t0, input, b0, b, q)
    ensures b.bits < 23
    ensures if ok then last.bits + f.bits <= b.bits else b.next == |input| && b.bits < last.bits + f.bits
  {
    hide Held, Stream, TableFor, Decode, Low, Shr, AtEntry, AtSecond, Needed;
    b := b1;
    EntryPlace(ty, lens, tab[..], at, root, t0, input, b, q, last);
    SecondAt(ty, lens, tab[..], at, root, t0, input, b, q, last);
    f := tab[at + last.val + Shr(Low(b.hold, last.bits + last.op), last.bits)];
    while b.bits < last.bits + f.bits
      invariant AtSecond(ty, lens, tab[..], at, root, t0, input, b, q, last, f)
      invariant Needed(ty, lens, t0, input, b0, b, q) && b.bits < 23 && b.next <= |input|
      decreases |input| - b.next
    {
      SecondFacts(ty, lens, tab[..], at, root, t0, input, b, q, last, f);
      ghost var b2 := b;
      var pulled;
      pulled, b := PullByte(input, b, t0, q);
      if !pulled { return false, f, b; }
      NeededMore(ty, lens, t0, input, b0, b2, b, q);
      LinkKept(t0, input, b2, b, q, root);
      SecondAt(ty, lens, tab[..], at, root, t0, input, b, q, last);
      f := tab[at + last.val + Shr(Low(b.hold, last.bits + last.op), last.bits)];
    }
    ok := true;
  }

  lemma EntryPlace(ty: CodeType, lens: seq<nat>, tab: seq<Entry>, at: nat, root: nat, t0: seq<bool>, input: seq<byte>,
                   b: Buffer, q: nat, e: Entry)
    requires AtEntry(ty, lens, tab, at, root, t0, input, b, q, e)
    ensures Held(t0, input, b, q) && at + Low(b.hold, root) < |tab| && e == tab[at + Low(b.hold, root)]
    ensures (IsLink(e) ==> e.bits == root)
  {
    hide Held, Stream, Decode, Low;
  }

  /** Both loops: the entry of the symbol that leads the bits, with the bits of
      both lookups, or false when the input ends inside the symbol. */
  method ReadSymbol(input: seq<byte>, b0: Buffer, tab: array<Entry>, at: nat, root: nat, ghost t0: seq<bool>,
                    ghost q: nat, ghost ty: CodeType, ghost lens: seq<nat>)
    returns (ok: bool, here: Entry, b: Buffer)
    requires Held(t0, input, b0, q) && TableFor(ty, lens, tab[..], at, root) && b0.bits < 23 && root <= MAXBITS
    ensures Held(t0, input, b, q) && b0.next <= b.next <= |input| && q <= |Stream(t0, input, b.next)| && b.bits < 23
    ensures ok ==> Decode(ty, lens, Stream(t0, input, b.next)[q..]) == Some(here) && here.bits <= b.bits
    ensures ok ==> b == b0 || b.bits < here.bits + 8
    ensures !ok ==> b.next == |input| && Decode(ty, lens, Stream(t0, input, b.next)[q..]).None?
  {
    hide Held, Stream, TableFor, Decode, Low, Shr, AtEntry, AtSecond, Needed, Accepted;
    TableAccepted(ty, lens, tab[..], at, root);
    ok, here, b := FirstEntry(input, b0, tab, at, root, t0, q, ty, lens);
    EntryFacts(ty, lens, tab[..], at, root, t0, input, b, q, here);
    NeededFacts(ty, lens, t0, input, b0, b, q);
    if !ok { return; }
    if IsLink(here) {
      var last := here;
      var f;
      ok, f, b := SecondEntry(input, b0, b, tab, at, root, last, t0, q, ty, lens);
      SecondFacts(ty, lens, tab[..], at, root, t0, input, b, q, last, f);
      NeededFacts(ty, lens, t0, input, b0, b, q);
      here := Entry(f.op, last.bits + f.bits, f.val);
      if !ok { return; }
    }
    LeftOver(ty, lens, t0, input, b0, b, q, here);
  }

  lemma TableAccepted(ty: CodeType, lens: seq<nat>, tab: seq<Entry>, at: nat, root: nat)
    requires TableFor(ty, lens, tab, at, root)
    ensures Accepted(ty, lens)
  {
  }

  lemma NeededFacts(ty: CodeType, lens: seq<nat>, t0: seq<bool>, input: seq<byte>, b0: Buffer, b: Buffer, q: nat)
    requires Needed(ty, lens, t0, input, b0, b, q)
    ensures b0.next <= b.next <= |input|
  {
  }
}
