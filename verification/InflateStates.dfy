/** The states of inflate that need no arrays (deps/libz/inflate.c: HEAD, DICTID,
    TYPE, STORED, TABLE, LENEXT, DISTEXT): what the code does to the registers
    once the bits are there, and that the decoding machine does the same. */
module InflateStates {
  import opened Bits
  import opened DecodeTable
  import A32 = Adler32
  import opened FixedCodes
  import opened CodeLengths
  import opened BitWriter
  import opened Machine
  import opened BitBuffer

  // ---- HEAD ----

  /** The header check fails, or the method is not deflate. */
  predicate BadHeader(hold: nat) {
    (Low(hold, 8) * 256 + Shr(hold, 8)) % 31 != 0 || Low(hold, 4) != 8
  }

  function HeadMode(b: Buffer): Mode
    requires b.bits == 16
  {
    var d := Drop(b, 4);
    if BadHeader(b.hold) || Low(d.hold, 4) + 8 > 15 then BAD
    else if Shr(d.hold, 9) % 2 == 1 then DICTID
    else TYPE
  }

  function HeadNext(r: Regs): Regs
    requires r.b.bits == 16
  {
    var b := if BadHeader(r.b.hold) then r.b else if HeadMode(r.b) == BAD then Drop(r.b, 4) else Init(r.b);
    r.(mode := HeadMode(r.b), b := b)
  }

  lemma HeadStay(a: State, t: seq<bool>)
    requires a.mode == HEAD && a.p <= |t|
    ensures !a.wrap ==> StepIn(a, t) == Some(a.(mode := TYPE))
    ensures a.wrap && |t| < a.p + 16 ==> StepIn(a, t).None?
    ensures a.wrap && |t| >= a.p + 16 ==> StepIn(a, t).Some?
    ensures Sound(a) ==> a.p % 8 == 0
  {
    hide Val, Grows;
  }

  lemma HeadFacts(a: State, b: Buffer, t: seq<bool>)
    requires a.mode == HEAD && a.wrap && Buffered(b.hold, b.bits, t, a.p) && b.bits == 16
    ensures StepIn(a, t) == Some(a.(mode := HeadMode(b),
              p := a.p + if BadHeader(b.hold) then 0 else if HeadMode(b) == BAD then 4 else 16))
  {
    hide Low, Shr, Val, FromBits, Grows;
    Peek(b.hold, b.bits, t, a.p, 0, 8);
    Peek(b.hold, b.bits, t, a.p, 8, 8);
    Peek(b.hold, b.bits, t, a.p, 0, 4);
    Peek(b.hold, b.bits, t, a.p, 4, 4);
    PeekBit(b.hold, b.bits, t, a.p, 13);
    ShrShr(b.hold, 4, 9);
  }

  lemma HeadMoves(wrap: bool, t0: seq<bool>, input: seq<byte>, r: Regs, a: State)
    requires Got(wrap, t0, input, r, a) && r.mode == HEAD && wrap && r.b.bits == 16
    ensures var a' := After(a, Stream(t0, input, r.b.next));
            && StepIn(a, Stream(t0, input, r.b.next)) == Some(a') && Idle(wrap, t0, input, HeadNext(r), a')
            && a' == a.(mode := HeadMode(r.b), p := a'.p)
  {
    hide Idle, Got, Held, Buffered, Sound, Shr, Low, StepIn, Stream, BadHeader, HeadMode, Grows;
    GotFacts(wrap, t0, input, r, a);
    HeadFacts(a, r.b, Stream(t0, input, r.b.next));
    HeadKinds(r.b);
    Dropped(t0, input, r.b, a.p, 4);
    Cleared(t0, input, r.b, a.p);
    MovedPlain(wrap, t0, input, r, a, HeadNext(r), After(a, Stream(t0, input, r.b.next)));
  }

  lemma HeadKinds(b: Buffer)
    requires b.bits == 16
    ensures HeadMode(b) == BAD || HeadMode(b) == DICTID || HeadMode(b) == TYPE
    ensures BadHeader(b.hold) ==> HeadMode(b) == BAD
  {
  }

  // ---- DICTID ----

  function DictNext(r: Regs): Regs { r.(mode := DICT, b := Init(r.b)) }

  lemma DictStep(a: State, t: seq<bool>)
    requires a.mode == DICTID && a.p <= |t|
    ensures StepIn(a, t) == if |t| < a.p + 32 then None else Some(a.(mode := DICT, p := a.p + 32))
    ensures Sound(a) ==> a.p % 8 == 0
  {
  }

  lemma DictMoves(wrap: bool, t0: seq<bool>, input: seq<byte>, r: Regs, a: State)
    requires Got(wrap, t0, input, r, a) && r.mode == DICTID && r.b.bits == 32
    ensures Idle(wrap, t0, input, DictNext(r), a.(mode := DICT, p := a.p + 32))
    ensures StepIn(a, Stream(t0, input, r.b.next)) == Some(a.(mode := DICT, p := a.p + 32))
  {
    hide Idle, Got, Held, Buffered, Sound, StepIn, Stream, Grows;
    GotFacts(wrap, t0, input, r, a);
    DictStep(a, Stream(t0, input, r.b.next));
    Cleared(t0, input, r.b, a.p);
    MovedPlain(wrap, t0, input, r, a, DictNext(r), a.(mode := DICT, p := a.p + 32));
  }

  // ---- TYPE ----

  function TypeMode(kind: nat): Mode {
    if kind == 0 then STORED else if kind == 1 then LEN else if kind == 2 then TABLE else BAD
  }

  /** After the last block: BYTEBITS.  Otherwise the last flag and the kind of block. */
  function TypeNext(r: Regs): Regs
    requires r.last || r.b.bits >= 3
  {
    if r.last then r.(mode := CHECK, b := Drop(r.b, r.b.bits % 8))
    else
      var d := Drop(r.b, 1);
      var n := r.(last := Low(r.b.hold, 1) == 1, mode := TypeMode(Low(d.hold, 2)), b := Drop(d, 2));
      if n.mode == LEN then n.(lencode := Table(true, 0, 9), distcode := Table(true, 512, 5)) else n
  }

  function TypeState(a: State, kind: nat, last: bool): State {
    var n := a.(last := last, p := a.p + 3, mode := TypeMode(kind));
    if n.mode == LEN then n.(lcode := FixedLens(), dcode := FixedDistLens()) else n
  }

  lemma TypeStepIn(a: State, t: seq<bool>)
    requires a.mode == TYPE && a.p <= |t|
    ensures StepIn(a, t) == TypeStep(a, t[a.p..])
  {
    hide TypeStep;
  }

  lemma PaddingIs(p: nat, bits: nat)
    requires (p + bits) % 8 == 0
    ensures bits % 8 == Padding(p)
  {
  }

  lemma TypeFacts(a: State, b: Buffer, t: seq<bool>)
    requires a.mode == TYPE && Buffered(b.hold, b.bits, t, a.p) && |t| % 8 == 0
    ensures a.last ==> b.bits % 8 == Padding(a.p) && StepIn(a, t) == Some(a.(mode := CHECK, p := a.p + b.bits % 8))
    ensures !a.last && b.bits < 3 ==> StepIn(a, t).None?
    ensures !a.last && b.bits >= 3 ==> StepIn(a, t) == Some(TypeState(a, Low(Shr(b.hold, 1), 2), Low(b.hold, 1) == 1))
  {
    hide Grows, FromBits, FixedLens, FixedDistLens, Low, Shr, StepIn, Padding;
    TypeStepIn(a, t);
    PaddingIs(a.p, b.bits);
    if !a.last && b.bits >= 3 { TypeBits(b.hold, b.bits, t, a.p); }
  }

  lemma TypeBits(hold: nat, bits: nat, t: seq<bool>, q: nat)
    requires Buffered(hold, bits, t, q) && bits >= 3
    ensures |t[q..]| == bits && (Low(hold, 1) == 1 <==> t[q..][0])
    ensures Low(Shr(hold, 1), 2) == (if t[q..][1] then 1 else 0) + (if t[q..][2] then 2 else 0)
  {
    hide FromBits;
    PeekBit(hold, bits, t, q, 0);
    PeekBit(hold, bits, t, q, 1);
    PeekBit(hold, bits, t, q, 2);
    ShrShr(hold, 1, 1);
    LowTwo(Shr(hold, 1));
  }

  lemma LowTwo(v: nat)
    ensures Low(v, 2) == v % 2 + 2 * (v / 2 % 2) && Shr(v, 1) == v / 2
  {
  }

  lemma LastMoves(wrap: bool, t0: seq<bool>, input: seq<byte>, r: Regs, a: State)
    requires Got(wrap, t0, input, r, a) && r.mode == TYPE && r.last && r.b.bits < 8
    ensures Idle(wrap, t0, input, TypeNext(r), a.(mode := CHECK, p := a.p + r.b.bits % 8))
    ensures StepIn(a, Stream(t0, input, r.b.next)) == Some(a.(mode := CHECK, p := a.p + r.b.bits % 8))
  {
    hide Idle, Got, Held, Buffered, Sound, StepIn, Stream, Grows, Shr, Padding;
    GotFacts(wrap, t0, input, r, a);
    TypeFacts(a, r.b, Stream(t0, input, r.b.next));
    Dropped(t0, input, r.b, a.p, r.b.bits % 8);
    MovedPlain(wrap, t0, input, r, a, TypeNext(r), a.(mode := CHECK, p := a.p + r.b.bits % 8));
  }

  lemma TypeMoves(wrap: bool, t0: seq<bool>, input: seq<byte>, r: Regs, a: State)
    requires Got(wrap, t0, input, r, a) && r.mode == TYPE && !r.last && 3 <= r.b.bits < 11
    ensures var a' := After(a, Stream(t0, input, r.b.next));
            && StepIn(a, Stream(t0, input, r.b.next)) == Some(a') && Idle(wrap, t0, input, TypeNext(r), a')
            && a'.out == a.out
            && (a'.mode == LEN ==> a'.lcode == FixedLens() && a'.dcode == FixedDistLens())
            && (a'.mode == LEN || a'.mode == STORED || a'.mode == TABLE || a'.mode == BAD)
  {
    hide Idle, Got, Held, Buffered, Sound, StepIn, Stream, Grows, Shr, Low, FixedLens, FixedDistLens;
    GotFacts(wrap, t0, input, r, a);
    TypeFacts(a, r.b, Stream(t0, input, r.b.next));
    Dropped(t0, input, r.b, a.p, 1);
    Dropped(t0, input, Drop(r.b, 1), a.p + 1, 2);
    MovedPlain(wrap, t0, input, r, a, TypeNext(r), TypeState(a, Low(Shr(r.b.hold, 1), 2), Low(r.b.hold, 1) == 1));
  }

  // ---- STORED ----

  /** BYTEBITS, and then the length and its complement. */
  function StoredNext(r: Regs): Regs {
    if r.b.bits % 8 != 0 then r.(b := Drop(r.b, r.b.bits % 8))
    else if Low(r.b.hold, 16) != 65535 - Low(Shr(r.b.hold, 16), 16) then r.(mode := BAD)
    else r.(length := Low(r.b.hold, 16), mode := COPY, b := Init(r.b))
  }

  lemma StoredStepIn(a: State, t: seq<bool>)
    requires a.mode == STORED && a.p <= |t|
    ensures StepIn(a, t) == StoredStep(a, t[a.p..])
  {
    hide StoredStep;
  }

  lemma StoredFacts(a: State, b: Buffer, t: seq<bool>)
    requires a.mode == STORED && Buffered(b.hold, b.bits, t, a.p) && |t| % 8 == 0
    ensures b.bits % 8 == Padding(a.p)
    ensures b.bits % 8 != 0 ==> StepIn(a, t) == Some(a.(p := a.p + b.bits % 8))
    ensures b.bits % 8 == 0 && b.bits < 32 ==> StepIn(a, t).None?
    ensures b.bits % 8 == 0 && b.bits >= 32 ==> StepIn(a, t) == Some(
      if Low(b.hold, 16) != 65535 - Low(Shr(b.hold, 16), 16) then Bad(a, 0)
      else a.(mode := COPY, length := Low(b.hold, 16), p := a.p + 32))
  {
    hide FromBits, Low, Shr, Val, Grows, StepIn, Padding;
    StoredStepIn(a, t);
    PaddingIs(a.p, b.bits);
    if b.bits >= 32 {
      Peek(b.hold, b.bits, t, a.p, 16, 16);
      Peek(b.hold, b.bits, t, a.p, 0, 16);
    }
  }

  lemma AlignMoves(wrap: bool, t0: seq<bool>, input: seq<byte>, r: Regs, a: State)
    requires Got(wrap, t0, input, r, a) && r.mode == STORED && 0 < r.b.bits % 8 && r.b.bits < 8
    ensures Idle(wrap, t0, input, StoredNext(r), a.(p := a.p + r.b.bits % 8))
    ensures StepIn(a, Stream(t0, input, r.b.next)) == Some(a.(p := a.p + r.b.bits % 8))
  {
    hide Idle, Got, Held, Buffered, Sound, StepIn, Stream, Grows, Shr, Low, Padding;
    GotFacts(wrap, t0, input, r, a);
    StoredFacts(a, r.b, Stream(t0, input, r.b.next));
    Dropped(t0, input, r.b, a.p, r.b.bits % 8);
    MovedPlain(wrap, t0, input, r, a, StoredNext(r), a.(p := a.p + r.b.bits % 8));
  }

  lemma StoredMoves(wrap: bool, t0: seq<bool>, input: seq<byte>, r: Regs, a: State)
    requires Got(wrap, t0, input, r, a) && r.mode == STORED && r.b.bits == 32
    ensures var a' := After(a, Stream(t0, input, r.b.next));
            && StepIn(a, Stream(t0, input, r.b.next)) == Some(a') && Idle(wrap, t0, input, StoredNext(r), a')
            && a'.out == a.out
            && (a'.mode == COPY || a'.mode == BAD)
  {
    hide Idle, Got, Held, Buffered, Sound, StepIn, Stream, Grows, Shr, Low, Padding;
    GotFacts(wrap, t0, input, r, a);
    StoredFacts(a, r.b, Stream(t0, input, r.b.next));
    if Low(r.b.hold, 16) != 65535 - Low(Shr(r.b.hold, 16), 16) {
      MovedPlain(wrap, t0, input, r, a, r.(mode := BAD), Bad(a, 0));
    } else {
      Cleared(t0, input, r.b, a.p);
      Moved(wrap, t0, input, r, a, StoredNext(r), a.(mode := COPY, length := Low(r.b.hold, 16), p := a.p + 32));
    }
  }

  // ---- TABLE ----

  function TableNext(r: Regs): Regs
    requires r.b.bits >= 14
  {
    var d := Drop(r.b, 5);
    var e := Drop(d, 5);
    var n := r.(nlen := Low(r.b.hold, 5) + 257, ndist := Low(d.hold, 5) + 1, ncode := Low(e.hold, 4) + 4,
      b := Drop(e, 4));
    if n.nlen > 286 || n.ndist > 30 then n.(mode := BAD) else n.(have := 0, mode := LENLENS)
  }

  function TableState(a: State, l: nat, d: nat, c: nat): State {
    var n := a.(nlen := l, ndist := d, ncode := c, p := a.p + 14);
    if l > 286 || d > 30 then n.(mode := BAD) else n.(mode := LENLENS, lens := [])
  }

  lemma TableFacts(a: State, b: Buffer, t: seq<bool>)
    requires a.mode == TABLE && Buffered(b.hold, b.bits, t, a.p)
    ensures b.bits < 14 ==> StepIn(a, t).None?
    ensures b.bits >= 14 ==> StepIn(a, t) == Some(
      TableState(a, Low(b.hold, 5) + 257, Low(Shr(b.hold, 5), 5) + 1, Low(Shr(Shr(b.hold, 5), 5), 4) + 4))
  {
    hide FromBits, Low, Shr, Val, Grows;
    if b.bits >= 14 {
      Peek(b.hold, b.bits, t, a.p, 0, 5);
      Peek(b.hold, b.bits, t, a.p, 5, 5);
      Peek(b.hold, b.bits, t, a.p, 10, 4);
      ShrShr(b.hold, 5, 5);
    }
  }

  lemma TableMoves(wrap: bool, t0: seq<bool>, input: seq<byte>, r: Regs, a: State)
    requires Got(wrap, t0, input, r, a) && r.mode == TABLE && 14 <= r.b.bits < 22
    ensures var a' := After(a, Stream(t0, input, r.b.next));
            && StepIn(a, Stream(t0, input, r.b.next)) == Some(a') && Idle(wrap, t0, input, TableNext(r), a')
            && a'.out == a.out
            && (a'.mode == BAD || (a'.mode == LENLENS && a'.lens == []))
  {
    hide Idle, Got, Held, Buffered, Sound, StepIn, Stream, Grows, Shr, Low;
    GotFacts(wrap, t0, input, r, a);
    TableFacts(a, r.b, Stream(t0, input, r.b.next));
    Dropped(t0, input, r.b, a.p, 5);
    Dropped(t0, input, Drop(r.b, 5), a.p + 5, 5);
    Dropped(t0, input, Drop(Drop(r.b, 5), 5), a.p + 10, 4);
    Moved(wrap, t0, input, r, a, TableNext(r),
      TableState(a, Low(r.b.hold, 5) + 257, Low(Shr(r.b.hold, 5), 5) + 1, Low(Shr(Shr(r.b.hold, 5), 5), 4) + 4));
  }

  // ---- LENEXT and DISTEXT ----

  function ExtraNext(r: Regs): Regs
    requires r.extra <= r.b.bits
  {
    var n := r.(b := Drop(r.b, r.extra));
    if r.mode == LENEXT then n.(length := r.length + Low(r.b.hold, r.extra), mode := DIST)
    else n.(offset := r.offset + Low(r.b.hold, r.extra), mode := MATCH)
  }

  function ExtraState(a: State, v: nat): State {
    if a.mode == LENEXT then a.(mode := DIST, length := a.length + v, p := a.p + a.extra)
    else a.(mode := MATCH, offset := a.offset + v, p := a.p + a.extra)
  }

  lemma ExtraFacts(a: State, b: Buffer, t: seq<bool>)
    requires (a.mode == LENEXT || a.mode == DISTEXT) && Buffered(b.hold, b.bits, t, a.p)
    ensures b.bits < a.extra ==> StepIn(a, t).None?
    ensures b.bits >= a.extra ==> StepIn(a, t) == Some(ExtraState(a, Low(b.hold, a.extra)))
    ensures Sound(a) ==> a.extra <= 13
  {
    hide FromBits, Low, Shr, Val, Grows, Accepted;
    if b.bits >= a.extra { Peek(b.hold, b.bits, t, a.p, 0, a.extra); }
  }

  lemma ExtraMoves(wrap: bool, t0: seq<bool>, input: seq<byte>, r: Regs, a: State)
    requires Got(wrap, t0, input, r, a) && (r.mode == LENEXT || r.mode == DISTEXT) && r.extra <= r.b.bits < r.extra + 8
    ensures var a' := After(a, Stream(t0, input, r.b.next));
            && StepIn(a, Stream(t0, input, r.b.next)) == Some(a') && Idle(wrap, t0, input, ExtraNext(r), a')
            && a'.out == a.out
            && a'.lcode == a.lcode && a'.dcode == a.dcode && a'.mode == if a.mode == LENEXT then DIST else MATCH
  {
    hide Idle, Got, Held, Buffered, Sound, StepIn, Stream, Grows, Shr, Low;
    GotFacts(wrap, t0, input, r, a);
    GotFields(wrap, t0, input, r, a);
    ExtraFacts(a, r.b, Stream(t0, input, r.b.next));
    Dropped(t0, input, r.b, a.p, r.extra);
    Moved(wrap, t0, input, r, a, ExtraNext(r), ExtraState(a, Low(r.b.hold, a.extra)));
  }

  // ---- The cases of the switch ----

  /** Mode changes without input go down. */
  function ModeRank(m: Mode): nat {
    match m
    case HEAD => 5 case COPY => 5 case TYPE => 4 case LENLENS => 4 case CODELENS => 3 case LENEXT => 3 case DISTEXT => 3
    case DIST => 2 case LEN => 2 case CHECK => 2 case MATCH => 2
    case BAD => 0 case DONE => 0
    case _ => 1
  }

  /** A step that consumes input or goes down. */
  ghost predicate Forward(a: State, a': State) {
    a'.p > a.p || (a'.p == a.p && ModeRank(a'.mode) < ModeRank(a.mode))
  }

  /** The case can make no step, for want of input. */
  ghost predicate Starved(t0: seq<bool>, input: seq<byte>, r0: Regs, r: Regs, a0: State, a: State) {
    a == a0 && r == r0.(b := r.b) && r.b.next == |input| && StepIn(a, Stream(t0, input, r.b.next)).None?
  }

  /** Every step consumes input, produces output or goes down. */
  lemma StepForward(a: State, t: seq<bool>)
    requires StepIn(a, t).Some?
    ensures Forward(a, After(a, t)) || |After(a, t).out| > |a.out|
  {
    hide HeadStep, CopyStep, LenExtStep, DistExtStep, MatchStep, CheckStep, LenStep, DistStep, TypeStep, CodeLensStep,
      LenLensStep, StoredStep, TableStep, Grows, Forward;
    var b := t[a.p..];
    match a.mode
    case HEAD => ForwardHead(a, b);
    case LEN => ForwardLen(a, b);
    case DIST => ForwardDist(a, b);
    case CODELENS => ForwardCodeLens(a, b);
    case LENLENS => ForwardLenLens(a, b);
    case TYPE => ForwardType(a, b);
    case STORED => ForwardStored(a, b);
    case _ => ForwardOther(a, b);
  }

  lemma ForwardHead(a: State, b: seq<bool>)
    requires a.mode == HEAD && HeadStep(a, b).Some?
    ensures Forward(a, HeadStep(a, b).value)
  {
    hide Val, Grows;
  }

  lemma ForwardLen(a: State, b: seq<bool>)
    requires a.mode == LEN && LenStep(a, b).Some?
    ensures Forward(a, LenStep(a, b).value)
  {
    hide Decode, Grows;
    DecodeBits(LENS, a.lcode, b);
  }

  lemma ForwardDist(a: State, b: seq<bool>)
    requires a.mode == DIST && DistStep(a, b).Some?
    ensures Forward(a, DistStep(a, b).value)
  {
    hide Decode, Grows;
    DecodeBits(DISTS, a.dcode, b);
  }

  lemma ForwardCodeLens(a: State, b: seq<bool>)
    requires a.mode == CODELENS && CodeLensStep(a, b).Some?
    ensures Forward(a, CodeLensStep(a, b).value)
  {
    hide Decode, Grows, Val, Apply, Accepted, ExtraBl;
    if |a.lens| < a.nlen + a.ndist { DecodeBits(CODES, a.lcode, b); }
  }

  lemma ForwardLenLens(a: State, b: seq<bool>)
    requires a.mode == LENLENS && LenLensStep(a, b).Some?
    ensures Forward(a, LenLensStep(a, b).value)
  {
    hide Grows, Val, Accepted, Ordered;
  }

  lemma ForwardType(a: State, b: seq<bool>)
    requires a.mode == TYPE && TypeStep(a, b).Some?
    ensures Forward(a, TypeStep(a, b).value)
  {
    hide Grows, Padding, FixedLens, FixedDistLens;
  }

  lemma ForwardStored(a: State, b: seq<bool>)
    requires a.mode == STORED && StoredStep(a, b).Some?
    ensures Forward(a, StoredStep(a, b).value)
  {
    hide Grows, Padding, Val;
  }

  lemma ForwardOther(a: State, b: seq<bool>)
    requires a.mode != HEAD && a.mode != LEN && a.mode != DIST && a.mode != CODELENS && a.mode != LENLENS
    requires a.mode != TYPE
    requires a.mode != STORED && Step(a, b).Some?
    ensures Forward(a, Step(a, b).value) || |Step(a, b).value.out| > |a.out|
  {
    hide LenStep, DistStep, TypeStep, CodeLensStep, LenLensStep, StoredStep, HeadStep, Grows, Val, A32.Adler, Swap;
  }

  lemma LazyBits(bits: nat, a: State, t: seq<bool>)
    requires Lazy(bits, a, t) && StepIn(a, t).Some? && a.mode != BAD
    ensures bits < 8
  {
    hide StepIn;
  }

  method HeadState(wrap: bool, input: seq<byte>, r0: Regs, ghost t0: seq<bool>, ghost a0: State)
    returns (leave: bool, r: Regs, ghost a: State)
    requires Idle(wrap, t0, input, r0, a0) && r0.mode == HEAD
    ensures Idle(wrap, t0, input, r, a) && r0.b.next <= r.b.next
    ensures leave ==> Starved(t0, input, r0, r, a0, a)
    ensures !leave ==> Forward(a0, a) && a.out == a0.out && (a.mode == BAD || a.mode == DICTID || a.mode == TYPE)
  {
    hide Idle, Got, Held, Buffered, Sound, StepIn, Stream, Grows, Lazy, HeadMode;
    IdleGot(wrap, t0, input, r0, a0);
    GotFacts(wrap, t0, input, r0, a0);
    HeadStay(a0, Stream(t0, input, r0.b.next));
    leave, r := false, r0;
    if !wrap {
      LazyBits(r0.b.bits, a0, Stream(t0, input, r0.b.next));
      a, r := a0.(mode := TYPE), r0.(mode := TYPE);
      MovedPlain(wrap, t0, input, r0, a0, r, a);
      return;
    }
    HeadLazy(r0.b.bits, a0, Stream(t0, input, r0.b.next));
    var ok, b := NeedBits(input, r0.b, 16, t0, a0.p);
    r := r0.(b := b);
    GotMore(wrap, t0, input, r0, a0, b);
    GotFacts(wrap, t0, input, r, a0);
    HeadStay(a0, Stream(t0, input, b.next));
    if !ok {
      Waiting(wrap, t0, input, r, a0);
      return true, r, a0;
    }
    HeadMoves(wrap, t0, input, r, a0);
    HeadKinds(b);
    a := After(a0, Stream(t0, input, b.next));
    StepForward(a0, Stream(t0, input, b.next));
    r := HeadNext(r);
  }

  lemma HeadLazy(bits: nat, a: State, t: seq<bool>)
    requires Lazy(bits, a, t) && a.mode == HEAD && a.wrap && a.p + bits == |t|
    ensures bits < 16
  {
    HeadStay(a, t);
    hide StepIn;
  }

  method DictState(wrap: bool, input: seq<byte>, r0: Regs, ghost t0: seq<bool>, ghost a0: State)
    returns (leave: bool, r: Regs, ghost a: State)
    requires Idle(wrap, t0, input, r0, a0) && r0.mode == DICTID
    ensures Idle(wrap, t0, input, r, a) && r0.b.next <= r.b.next
    ensures leave ==> Starved(t0, input, r0, r, a0, a)
    ensures !leave ==> Forward(a0, a) && a.out == a0.out && a.mode == DICT
  {
    hide Idle, Got, Held, Buffered, Sound, StepIn, Stream, Grows, Lazy;
    IdleGot(wrap, t0, input, r0, a0);
    GotFacts(wrap, t0, input, r0, a0);
    DictStep(a0, Stream(t0, input, r0.b.next));
    DictLazy(r0.b.bits, a0, Stream(t0, input, r0.b.next));
    var ok, b := NeedBits(input, r0.b, 32, t0, a0.p);
    r := r0.(b := b);
    GotMore(wrap, t0, input, r0, a0, b);
    GotFacts(wrap, t0, input, r, a0);
    DictStep(a0, Stream(t0, input, b.next));
    if !ok {
      Waiting(wrap, t0, input, r, a0);
      return true, r, a0;
    }
    DictMoves(wrap, t0, input, r, a0);
    leave, r, a := false, DictNext(r), a0.(mode := DICT, p := a0.p + 32);
  }

  lemma DictLazy(bits: nat, a: State, t: seq<bool>)
    requires Lazy(bits, a, t) && a.mode == DICTID && a.p + bits == |t|
    ensures bits < 32
  {
    DictStep(a, t);
    hide StepIn;
  }

  method TypeCase(wrap: bool, input: seq<byte>, r0: Regs, ghost t0: seq<bool>, ghost a0: State)
    returns (leave: bool, r: Regs, ghost a: State)
    requires Idle(wrap, t0, input, r0, a0) && r0.mode == TYPE
    ensures Idle(wrap, t0, input, r, a) && r0.b.next <= r.b.next
    ensures leave ==> Starved(t0, input, r0, r, a0, a)
    ensures !leave ==> Forward(a0, a) && a.out == a0.out
    ensures !leave ==> a.mode == CHECK || a.mode == LEN || a.mode == STORED || a.mode == TABLE || a.mode == BAD
    ensures !leave && a.mode == LEN ==> a.lcode == FixedLens() && a.dcode == FixedDistLens()
    ensures !leave && a.mode == LEN ==> r.lencode == Table(true, 0, 9) && r.distcode == Table(true, 512, 5)
  {
    hide Idle, Got, Held, Buffered, Sound, StepIn, Stream, Grows, Lazy, Shr, Low, FixedLens, FixedDistLens, Forward,
      Padding;
    IdleGot(wrap, t0, input, r0, a0);
    GotFacts(wrap, t0, input, r0, a0);
    TypeFacts(a0, r0.b, Stream(t0, input, r0.b.next));
    leave, r := false, r0;
    if r0.last {
      LazyBits(r0.b.bits, a0, Stream(t0, input, r0.b.next));
      LastMoves(wrap, t0, input, r0, a0);
      StepForward(a0, Stream(t0, input, r0.b.next));
      a, r := a0.(mode := CHECK, p := a0.p + r0.b.bits % 8), TypeNext(r0);
      return;
    }
    TypeLazy(r0.b, a0, Stream(t0, input, r0.b.next));
    var ok, b := NeedBits(input, r0.b, 3, t0, a0.p);
    r := r0.(b := b);
    GotMore(wrap, t0, input, r0, a0, b);
    GotFacts(wrap, t0, input, r, a0);
    TypeFacts(a0, b, Stream(t0, input, b.next));
    if !ok {
      Waiting(wrap, t0, input, r, a0);
      return true, r, a0;
    }
    TypeMoves(wrap, t0, input, r, a0);
    StepForward(a0, Stream(t0, input, b.next));
    a := After(a0, Stream(t0, input, b.next));
    r := TypeNext(r);
    GotModes(wrap, t0, input, r, a);
  }

  lemma GotModes(wrap: bool, t0: seq<bool>, input: seq<byte>, r: Regs, a: State)
    requires Idle(wrap, t0, input, r, a)
    ensures r.mode == a.mode
  {
    hide Got, Lazy;
    IdleGot(wrap, t0, input, r, a);
    GotFacts(wrap, t0, input, r, a);
  }

  lemma TypeLazy(b: Buffer, a: State, t: seq<bool>)
    requires Lazy(b.bits, a, t) && a.mode == TYPE && !a.last && Buffered(b.hold, b.bits, t, a.p) && |t| % 8 == 0
    ensures b.bits < 8
  {
    TypeFacts(a, b, t);
    hide StepIn;
  }

  method StoredCase(wrap: bool, input: seq<byte>, r0: Regs, ghost t0: seq<bool>, ghost a0: State)
    returns (leave: bool, r: Regs, ghost a: State)
    requires Idle(wrap, t0, input, r0, a0) && r0.mode == STORED
    ensures Idle(wrap, t0, input, r, a) && r0.b.next <= r.b.next
    ensures leave ==>
      a.out == a0.out && a.mode == STORED && r.b.next == |input| && StepIn(a, Stream(t0, input, r.b.next)).None?
    ensures leave ==> r == r0.(b := r.b)
    ensures !leave ==> Forward(a0, a) && a.out == a0.out && (a.mode == COPY || a.mode == BAD)
  {
    hide Idle, Got, Held, Buffered, Sound, StepIn, Stream, Grows, Lazy, Shr, Low, Padding;
    leave, r, a := false, r0, a0;
    r, a := Align(wrap, input, r0, t0, a0);
    IdleGot(wrap, t0, input, r, a);
    GotFacts(wrap, t0, input, r, a);
    StoredLazy(r.b, a, Stream(t0, input, r.b.next));
    ghost var a1, r1 := a, r;
    var ok, b := NeedBits(input, r.b, 32, t0, a.p);
    r := r.(b := b);
    GotMore(wrap, t0, input, r1, a, b);
    GotFacts(wrap, t0, input, r, a);
    StoredFacts(a, b, Stream(t0, input, b.next));
    if !ok {
      Waiting(wrap, t0, input, r, a);
      return true, r, a;
    }
    StoredMoves(wrap, t0, input, r, a);
    StepForward(a, Stream(t0, input, b.next));
    a := After(a, Stream(t0, input, b.next));
    r := StoredNext(r);
  }

  /** BYTEBITS */
  method Align(wrap: bool, input: seq<byte>, r0: Regs, ghost t0: seq<bool>, ghost a0: State)
    returns (r: Regs, ghost a: State)
    requires Idle(wrap, t0, input, r0, a0) && r0.mode == STORED
    ensures Idle(wrap, t0, input, r, a) && a == a0.(p := a.p) && a.p >= a0.p && r == r0.(b := r.b)
    ensures r.b.next == r0.b.next
    ensures r.b.bits % 8 == 0
  {
    hide Idle, Got, Held, Buffered, Sound, StepIn, Stream, Grows, Lazy, Shr, Low, Padding;
    IdleGot(wrap, t0, input, r0, a0);
    GotFacts(wrap, t0, input, r0, a0);
    StoredFacts(a0, r0.b, Stream(t0, input, r0.b.next));
    r, a := r0, a0;
    if r0.b.bits % 8 != 0 {
      LazyBits(r0.b.bits, a0, Stream(t0, input, r0.b.next));
      AlignMoves(wrap, t0, input, r0, a0);
      r, a := StoredNext(r0), a0.(p := a0.p + r0.b.bits % 8);
    }
  }

  lemma StoredLazy(b: Buffer, a: State, t: seq<bool>)
    requires Lazy(b.bits, a, t) && a.mode == STORED && Buffered(b.hold, b.bits, t, a.p) && |t| % 8 == 0
    requires b.bits % 8 == 0
    requires b.bits <= 32
    ensures b.bits < 32
  {
    StoredFacts(a, b, t);
    hide StepIn, Low, Shr;
  }

  method TableCase(wrap: bool, input: seq<byte>, r0: Regs, ghost t0: seq<bool>, ghost a0: State)
    returns (leave: bool, r: Regs, ghost a: State)
    requires Idle(wrap, t0, input, r0, a0) && r0.mode == TABLE
    ensures Idle(wrap, t0, input, r, a) && r0.b.next <= r.b.next
    ensures leave ==> Starved(t0, input, r0, r, a0, a)
    ensures !leave ==>
      Forward(a0, a) && a.out == a0.out && (a.mode == BAD || (a.mode == LENLENS && a.lens == [] && r.have == 0))
  {
    hide Idle, Got, Held, Buffered, Sound, StepIn, Stream, Grows, Lazy, Shr, Low, Forward;
    IdleGot(wrap, t0, input, r0, a0);
    GotFacts(wrap, t0, input, r0, a0);
    TableLazy(r0.b, a0, Stream(t0, input, r0.b.next));
    var ok, b := NeedBits(input, r0.b, 14, t0, a0.p);
    r := r0.(b := b);
    GotMore(wrap, t0, input, r0, a0, b);
    GotFacts(wrap, t0, input, r, a0);
    TableFacts(a0, b, Stream(t0, input, b.next));
    if !ok {
      Waiting(wrap, t0, input, r, a0);
      return true, r, a0;
    }
    TableMoves(wrap, t0, input, r, a0);
    StepForward(a0, Stream(t0, input, b.next));
    leave, r, a := false, TableNext(r), After(a0, Stream(t0, input, b.next));
    GotModes(wrap, t0, input, r, a);
  }

  lemma TableLazy(b: Buffer, a: State, t: seq<bool>)
    requires Lazy(b.bits, a, t) && a.mode == TABLE && Buffered(b.hold, b.bits, t, a.p)
    ensures b.bits < 14
  {
    TableFacts(a, b, t);
    hide StepIn, Low, Shr;
  }

  /** LENEXT and DISTEXT */
  method ExtraCase(wrap: bool, input: seq<byte>, r0: Regs, ghost t0: seq<bool>, ghost a0: State)
    returns (leave: bool, r: Regs, ghost a: State)
    requires Idle(wrap, t0, input, r0, a0) && (r0.mode == LENEXT || r0.mode == DISTEXT)
    ensures Idle(wrap, t0, input, r, a) && r0.b.next <= r.b.next && r.lencode == r0.lencode && r.distcode == r0.distcode
    ensures leave ==> Starved(t0, input, r0, r, a0, a)
    ensures !leave ==> Forward(a0, a) && a.out == a0.out && a.lcode == a0.lcode && a.dcode == a0.dcode
    ensures !leave ==> a.mode == if a0.mode == LENEXT then DIST else MATCH
  {
    hide Idle, Got, Held, Buffered, Sound, StepIn, Stream, Grows, Lazy, Shr, Low, Forward;
    IdleGot(wrap, t0, input, r0, a0);
    GotFacts(wrap, t0, input, r0, a0);
    GotExtra(wrap, t0, input, r0, a0);
    ExtraFacts(a0, r0.b, Stream(t0, input, r0.b.next));
    ExtraLazy(r0.b, a0, Stream(t0, input, r0.b.next));
    var ok, b := NeedBits(input, r0.b, r0.extra, t0, a0.p);
    r := r0.(b := b);
    GotMore(wrap, t0, input, r0, a0, b);
    GotFacts(wrap, t0, input, r, a0);
    ExtraFacts(a0, b, Stream(t0, input, b.next));
    if !ok {
      Waiting(wrap, t0, input, r, a0);
      return true, r, a0;
    }
    ExtraMoves(wrap, t0, input, r, a0);
    StepForward(a0, Stream(t0, input, b.next));
    leave, r, a := false, ExtraNext(r), After(a0, Stream(t0, input, b.next));
  }

  lemma GotExtra(wrap: bool, t0: seq<bool>, input: seq<byte>, r: Regs, a: State)
    requires Got(wrap, t0, input, r, a) && (r.mode == LENEXT || r.mode == DISTEXT)
    ensures r.extra == a.extra
  {
    hide Held, Follows;
  }

  lemma ExtraLazy(b: Buffer, a: State, t: seq<bool>)
    requires Lazy(b.bits, a, t) && (a.mode == LENEXT || a.mode == DISTEXT) && Buffered(b.hold, b.bits, t, a.p)
    ensures b.bits < a.extra + 8
  {
    ExtraFacts(a, b, t);
    hide StepIn, Low;
  }
}
