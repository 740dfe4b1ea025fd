/** The states LEN and DIST of inflate (deps/libz/inflate.c). */
module SymbolStates {
  import opened Bits
  import opened Canonical
  import opened DecodeTable
  import opened CodeLengths
  import opened Machine
  import opened TableDecoding
  import opened BitBuffer
  import opened InflateStates
  import opened SymbolReader

  /** A symbol is decoded at the latest when MAXBITS bits are there. */
  lemma DecodedBy15(ty: CodeType, lens: seq<nat>, tab: seq<Entry>, at: nat, root: nat, b: seq<bool>)
    requires TableFor(ty, lens, tab, at, root) && Decode(ty, lens, b).None?
    ensures |b| < 15
  {
    hide Decode, TableFor, Lookup, LinkOk;
    TableDecodes(ty, lens, tab, at, root, b);
  }

  // ---- LEN ----

  function LenMode(op: nat): Mode {
    if op == 0 then LIT else if op / 32 % 2 == 1 then TYPE else if op / 64 % 2 == 1 then BAD else LENEXT
  }

  /** DROPBITS(here.bits), and what the entry says. */
  function LenNext(r: Regs, here: Entry): Regs
    requires here.bits <= r.b.bits
  {
    var n := r.(b := Drop(r.b, here.bits), length := here.val, mode := LenMode(here.op));
    if n.mode == LENEXT then n.(extra := here.op % 16) else n
  }

  function LenState(a: State, e: Entry): State {
    var n := a.(p := a.p + e.bits, length := e.val, mode := LenMode(e.op));
    if n.mode == LENEXT then n.(extra := e.op % 16) else n
  }

  lemma LenFacts(a: State, t: seq<bool>)
    requires a.mode == LEN && a.p <= |t|
    ensures Decode(LENS, a.lcode, t[a.p..]).None? ==> StepIn(a, t).None?
    ensures Decode(LENS, a.lcode, t[a.p..]).Some? ==>
      StepIn(a, t) == Some(LenState(a, Decode(LENS, a.lcode, t[a.p..]).value))
    ensures !NeedsOut(a)
  {
    hide Decode, Grows;
  }

  lemma LenLazy(bits: nat, a: State, t: seq<bool>, tab: seq<Entry>, at: nat, root: nat)
    requires Lazy(bits, a, t) && a.mode == LEN && a.p + bits == |t| && TableFor(LENS, a.lcode, tab, at, root)
    ensures bits < 15
  {
    hide Decode, TableFor, StepIn;
    LenFacts(a, t);
    if bits >= 8 { DecodedBy15(LENS, a.lcode, tab, at, root, t[a.p..]); }
  }

  lemma LenMoves(wrap: bool, t0: seq<bool>, input: seq<byte>, r: Regs, a: State, here: Entry)
    requires Got(wrap, t0, input, r, a) && r.mode == LEN && here.bits <= r.b.bits < here.bits + 8
    requires a.p <= |Stream(t0, input, r.b.next)|
    requires Decode(LENS, a.lcode, Stream(t0, input, r.b.next)[a.p..]) == Some(here)
    ensures StepIn(a, Stream(t0, input, r.b.next)) == Some(LenState(a, here))
    ensures Idle(wrap, t0, input, LenNext(r, here), LenState(a, here))
  {
    hide Idle, Got, Held, Buffered, Sound, StepIn, Stream, Grows, Shr, Low, Decode;
    GotFacts(wrap, t0, input, r, a);
    LenFacts(a, Stream(t0, input, r.b.next));
    Dropped(t0, input, r.b, a.p, here.bits);
    Moved(wrap, t0, input, r, a, LenNext(r, here), LenState(a, here));
  }

  method LenCase(wrap: bool, input: seq<byte>, r0: Regs, tab: array<Entry>, ghost t0: seq<bool>, ghost a0: State)
    returns (leave: bool, r: Regs, ghost a: State)
    requires Idle(wrap, t0, input, r0, a0) && r0.mode == LEN
    requires TableFor(LENS, a0.lcode, tab[..], r0.lencode.at, r0.lencode.root)
    ensures Idle(wrap, t0, input, r, a) && r0.b.next <= r.b.next && r.lencode == r0.lencode && r.distcode == r0.distcode
    ensures leave ==> Starved(t0, input, r0, r, a0, a)
    ensures !leave ==> Forward(a0, a) && a.out == a0.out && a.lcode == a0.lcode && a.dcode == a0.dcode
    ensures !leave ==> a.mode == LIT || a.mode == TYPE || a.mode == BAD || a.mode == LENEXT
  {
    hide Idle, Got, Held, Buffered, Sound, StepIn, Stream, Grows, Lazy, Shr, Low, Forward, TableFor, Decode;
    IdleGot(wrap, t0, input, r0, a0);
    GotFacts(wrap, t0, input, r0, a0);
    RootBound(LENS, a0.lcode, tab[..], r0.lencode.at, r0.lencode.root);
    LenLazy(r0.b.bits, a0, Stream(t0, input, r0.b.next), tab[..], r0.lencode.at, r0.lencode.root);
    LenFacts(a0, Stream(t0, input, r0.b.next));
    var ok, here, b := ReadSymbol(input, r0.b, tab, r0.lencode.at, r0.lencode.root, t0, a0.p, LENS, a0.lcode);
    r := r0.(b := b);
    GotMore(wrap, t0, input, r0, a0, b);
    GotFacts(wrap, t0, input, r, a0);
    LenFacts(a0, Stream(t0, input, b.next));
    if !ok {
      Waiting(wrap, t0, input, r, a0);
      return true, r, a0;
    }
    if b == r0.b { LazyBits(r0.b.bits, a0, Stream(t0, input, r0.b.next)); }
    LenMoves(wrap, t0, input, r, a0, here);
    StepForward(a0, Stream(t0, input, b.next));
    leave, r, a := false, LenNext(r, here), LenState(a0, here);
  }

  lemma RootBound(ty: CodeType, lens: seq<nat>, tab: seq<Entry>, at: nat, root: nat)
    requires TableFor(ty, lens, tab, at, root)
    ensures 1 <= root <= MAXBITS
  {
  }

  // ---- DIST ----

  function DistNext(r: Regs, here: Entry): Regs
    requires here.bits <= r.b.bits
  {
    var n := r.(b := Drop(r.b, here.bits));
    if here.op / 64 % 2 == 1 then n.(mode := BAD) else n.(mode := DISTEXT, offset := here.val, extra := here.op % 16)
  }

  function DistState(a: State, e: Entry): State {
    var n := a.(p := a.p + e.bits);
    if e.op / 64 % 2 == 1 then n.(mode := BAD) else n.(mode := DISTEXT, offset := e.val, extra := e.op % 16)
  }

  lemma DistFacts(a: State, t: seq<bool>)
    requires a.mode == DIST && a.p <= |t|
    ensures Decode(DISTS, a.dcode, t[a.p..]).None? ==> StepIn(a, t).None?
    ensures Decode(DISTS, a.dcode, t[a.p..]).Some? ==>
      StepIn(a, t) == Some(DistState(a, Decode(DISTS, a.dcode, t[a.p..]).value))
    ensures !NeedsOut(a)
  {
    hide Decode, Grows;
  }

  lemma DistLazy(bits: nat, a: State, t: seq<bool>, tab: seq<Entry>, at: nat, root: nat)
    requires Lazy(bits, a, t) && a.mode == DIST && a.p + bits == |t| && TableFor(DISTS, a.dcode, tab, at, root)
    ensures bits < 15
  {
    hide Decode, TableFor, StepIn;
    DistFacts(a, t);
    if bits >= 8 { DecodedBy15(DISTS, a.dcode, tab, at, root, t[a.p..]); }
  }

  lemma DistFields(r: Regs, a: State, here: Entry)
    requires Fields(r, a) && r.mode == DIST && here.bits <= r.b.bits
    ensures Fields(DistNext(r, here), DistState(a, here))
  {
    hide Shr;
  }

  lemma DistMoves(wrap: bool, t0: seq<bool>, input: seq<byte>, r: Regs, a: State, here: Entry)
    requires Got(wrap, t0, input, r, a) && r.mode == DIST && here.bits <= r.b.bits < here.bits + 8
    requires a.p <= |Stream(t0, input, r.b.next)|
    requires Decode(DISTS, a.dcode, Stream(t0, input, r.b.next)[a.p..]) == Some(here)
    ensures StepIn(a, Stream(t0, input, r.b.next)) == Some(DistState(a, here))
    ensures Idle(wrap, t0, input, DistNext(r, here), DistState(a, here))
  {
    hide Idle, Got, Held, Buffered, Sound, StepIn, Stream, Grows, Shr, Low, Decode, Fields;
    GotFacts(wrap, t0, input, r, a);
    GotFields(wrap, t0, input, r, a);
    DistFields(r, a, here);
    DistFacts(a, Stream(t0, input, r.b.next));
    Dropped(t0, input, r.b, a.p, here.bits);
    Moved(wrap, t0, input, r, a, DistNext(r, here), DistState(a, here));
  }

  method DistCase(wrap: bool, input: seq<byte>, r0: Regs, tab: array<Entry>, ghost t0: seq<bool>, ghost a0: State)
    returns (leave: bool, r: Regs, ghost a: State)
    requires Idle(wrap, t0, input, r0, a0) && r0.mode == DIST
    requires TableFor(DISTS, a0.dcode, tab[..], r0.distcode.at, r0.distcode.root)
    ensures Idle(wrap, t0, input, r, a) && r0.b.next <= r.b.next && r.lencode == r0.lencode && r.distcode == r0.distcode
    ensures leave ==> Starved(t0, input, r0, r, a0, a)
    ensures !leave ==> Forward(a0, a) && a.out == a0.out && a.lcode == a0.lcode && a.dcode == a0.dcode
    ensures !leave ==> a.mode == BAD || a.mode == DISTEXT
  {
    hide Idle, Got, Held, Buffered, Sound, StepIn, Stream, Grows, Lazy, Shr, Low, Forward, TableFor, Decode;
    IdleGot(wrap, t0, input, r0, a0);
    GotFacts(wrap, t0, input, r0, a0);
    RootBound(DISTS, a0.dcode, tab[..], r0.distcode.at, r0.distcode.root);
    DistLazy(r0.b.bits, a0, Stream(t0, input, r0.b.next), tab[..], r0.distcode.at, r0.distcode.root);
    DistFacts(a0, Stream(t0, input, r0.b.next));
    var ok, here, b := ReadSymbol(input, r0.b, tab, r0.distcode.at, r0.distcode.root, t0, a0.p, DISTS, a0.dcode);
    r := r0.(b := b);
    GotMore(wrap, t0, input, r0, a0, b);
    GotFacts(wrap, t0, input, r, a0);
    DistFacts(a0, Stream(t0, input, b.next));
    if !ok {
      Waiting(wrap, t0, input, r, a0);
      return true, r, a0;
    }
    if b == r0.b { LazyBits(r0.b.bits, a0, Stream(t0, input, r0.b.next)); }
    DistMoves(wrap, t0, input, r, a0, here);
    StepForward(a0, Stream(t0, input, b.next));
    leave, r, a := false, DistNext(r, here), DistState(a0, here);
  }
}
