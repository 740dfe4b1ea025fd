/** inflate (deps/libz/inflate.c) for zlib and raw streams with a 32K window and
    without flush: the loop over the states, and a whole call. */
module Inflate {
  import opened Bits
  import opened DecodeTable
  import opened FixedCodes
  import opened CodeLengths
  import opened BlockReader
  import opened Machine
  import opened MachineLaws
  import opened FixedTables
  import opened TableDecoding
  import opened BitBuffer
  import opened InflateStates
  import opened SymbolStates
  import opened LengthStates
  import opened CodeLengthStates
  import opened OutputStates
  import opened CheckState
  import opened Window
  import opened InflateFast
  import A32 = Adler32

  /** Modes between two symbols of a block and inside a symbol. */
  predicate InSymbols(m: Mode) { m == LEN || m == LENEXT || m == DIST || m == DISTEXT || m == MATCH || m == LIT }

  /** Modes in which check is the checksum of the output. */
  predicate Checked(m: Mode) { m != HEAD && m != DICTID && m != DICT && m != BAD }

  ghost predicate LengthsOk(r: Regs, a: State, lens: seq<nat>) {
    && |lens| == 320
    && (a.mode == LENLENS ==> r.have == |a.lens| && LensRead(lens, a.lens))
    && (a.mode == CODELENS ==> r.have == |a.lens| && LensKept(lens, a.lens))
  }

  ghost predicate TablesReady(r: Regs, a: State, codes: seq<Entry>, fixed: seq<Entry>) {
    && (a.mode == CODELENS ==> !r.lencode.fixed && TableFor(CODES, a.lcode, codes, r.lencode.at, r.lencode.root))
    && (InSymbols(a.mode) ==>
        TableFor(LENS, a.lcode, if r.lencode.fixed then fixed else codes, r.lencode.at, r.lencode.root))
    && (InSymbols(a.mode) ==>
        TableFor(DISTS, a.dcode, if r.distcode.fixed then fixed else codes, r.distcode.at, r.distcode.root))
  }

  /** check covers hist and out[..start]. */
  ghost predicate CheckOk(wrap: bool, m: Mode, check: nat, out: seq<byte>, start: nat, put: nat, hist: seq<byte>) {
    && start <= put <= |out| && (m != DONE && m != BAD ==> start == 0)
    && (m == DONE ==> start == if wrap then put else 0)
    && (wrap && Checked(m) ==> check == A32.Adler(hist + out[..start]))
  }

  class Inflater {
    const wrap: bool
    var r: Regs
    var check: A32.uint32
    const lens: array<nat>
    const work: array<nat>
    const codes: array<Entry>
    const fixed: array<Entry>
    const win: OutputWindow
    // the run so far: all bits pulled, the state of the machine, and what the window holds
    ghost var t: seq<bool>
    ghost var a: State
    ghost var kept: seq<byte>

    /** Sizes, distinctness, and the tables of the fixed codes. */
    ghost predicate Shape()
      reads fixed
    {
      && lens.Length == 320 && work.Length == 288 && work != lens
      && codes.Length == 1444 && fixed.Length == 1444 && codes != fixed && win.size == 32768
      && TableFor(LENS, FixedLens(), fixed[..], 0, 9) && TableFor(DISTS, FixedDistLens(), fixed[..], 512, 5)
    }

    /** Within a call: the registers, output and arrays follow the machine. */
    ghost predicate Running(input: seq<byte>, out: array<byte>, r: Regs, put: nat, start: nat, check: A32.uint32,
                            t0: seq<bool>, a: State, hist: seq<byte>)
      reads lens, codes, fixed, out, win, win.window
    {
      && Shape() && out != win.window
      && Idle(wrap, t0, input, r, a) && Produced(out[..], put, a, hist)
      && LengthsOk(r, a, lens[..]) && TablesReady(r, a, codes[..], fixed[..])
      && CheckOk(wrap, a.mode, check as nat, out[..], start, put, hist)
      && (a.mode != DONE && a.mode != BAD ==> win.Holds(hist))
    }

    /** Between two calls. */
    ghost predicate Ready()
      reads this, lens, codes, fixed, win, win.window
    {
      && Shape() && r.b.next == 0 && Idle(wrap, t, [], r, a)
      && LengthsOk(r, a, lens[..]) && TablesReady(r, a, codes[..], fixed[..])
      && win.Holds(kept) && (a.mode != DONE && a.mode != BAD ==> kept == a.out)
      && (wrap && Checked(a.mode) ==> check as nat == A32.Adler(a.out))
    }

    constructor (wrap: bool, lens: array<nat>, work: array<nat>, codes: array<Entry>, fixed: array<Entry>,
                 win: OutputWindow)
      ensures this.wrap == wrap && this.lens == lens && this.work == work && this.codes == codes && this.fixed == fixed
      ensures this.win == win && check == 1 && t == [] && a == Start(wrap) && kept == []
      ensures r == Regs(HEAD, false, Buffer(0, 0, 0), 0, 0, 0, 0, 0, 0, 0, Table(false, 0, 0), Table(false, 0, 0))
    {
      this.wrap, this.lens, this.work, this.codes, this.fixed, this.win := wrap, lens, work, codes, fixed, win;
      r := Regs(HEAD, false, Buffer(0, 0, 0), 0, 0, 0, 0, 0, 0, 0, Table(false, 0, 0), Table(false, 0, 0));
      check, t, a, kept := 1, [], Start(wrap), [];
    }

    /** HEAD and DICTID */
    method StartTurn(input: seq<byte>, out: array<byte>, r0: Regs, put: nat, check0: A32.uint32,
                     ghost t0: seq<bool>, ghost a0: State, ghost hist: seq<byte>)
      returns (leave: bool, r: Regs, check: A32.uint32, ghost a: State)
      requires Running(input, out, r0, put, 0, check0, t0, a0, hist)
      requires r0.mode == HEAD || r0.mode == DICTID
      ensures Running(input, out, r, put, 0, check, t0, a, hist)
      ensures leave ==> r.b.next == |input| && StepIn(a, Stream(t0, input, r.b.next)).None?
      ensures !leave ==> Forward(a0, a)
    {
      hide Inflater.Running, Idle, Stream, StepIn, Forward, TableFor, FixedLens, FixedDistLens, A32.Adler;
      check := check0;
      RunningMode(this, input, out, r0, put, 0, check0, t0, a0, hist);
      RunningCheck(this, input, out, r0, put, 0, check0, t0, a0, hist);
      if r0.mode == HEAD {
        leave, r, a := HeadState(wrap, input, r0, t0, a0);
        if !leave { check := 1; }
      } else {
        leave, r, a := DictState(wrap, input, r0, t0, a0);
      }
      if leave {
        TurnStarved(this, input, out, r0, put, 0, check0, t0, a0, hist, r);
      } else {
        TurnDone(this, input, out, r0, put, 0, check0, t0, a0, hist, r, a, check);
      }
    }

    /** TYPE, STORED and TABLE */
    method HeaderTurn(input: seq<byte>, out: array<byte>, r0: Regs, put: nat, check: A32.uint32,
                      ghost t0: seq<bool>, ghost a0: State, ghost hist: seq<byte>)
      returns (leave: bool, r: Regs, ghost a: State)
      requires Running(input, out, r0, put, 0, check, t0, a0, hist)
      requires r0.mode == TYPE || r0.mode == STORED || r0.mode == TABLE
      ensures Running(input, out, r, put, 0, check, t0, a, hist)
      ensures leave ==> r.b.next == |input| && StepIn(a, Stream(t0, input, r.b.next)).None?
      ensures !leave ==> Forward(a0, a)
    {
      hide Inflater.Running, Idle, Stream, StepIn, Forward, TableFor, FixedLens, FixedDistLens, A32.Adler;
      RunningMode(this, input, out, r0, put, 0, check, t0, a0, hist);
      RunningCheck(this, input, out, r0, put, 0, check, t0, a0, hist);
      if r0.mode == TYPE {
        leave, r, a := TypeCase(wrap, input, r0, t0, a0);
      } else if r0.mode == STORED {
        leave, r, a := StoredCase(wrap, input, r0, t0, a0);
      } else {
        leave, r, a := TableCase(wrap, input, r0, t0, a0);
      }
      if leave && r0.mode != STORED {
        TurnStarved(this, input, out, r0, put, 0, check, t0, a0, hist, r);
      } else {
        TurnDone(this, input, out, r0, put, 0, check, t0, a0, hist, r, a, check);
      }
    }

    /** LENLENS */
    method LenLensTurn(input: seq<byte>, out: array<byte>, r0: Regs, put: nat, check: A32.uint32,
                  ghost t0: seq<bool>, ghost a0: State, ghost hist: seq<byte>)
      returns (leave: bool, r: Regs, ghost a: State)
      requires Running(input, out, r0, put, 0, check, t0, a0, hist) && r0.mode == LENLENS
      modifies lens, work, codes
      ensures Running(input, out, r, put, 0, check, t0, a, hist)
      ensures leave ==> r.b.next == |input| && StepIn(a, Stream(t0, input, r.b.next)).None?
      ensures !leave ==> Forward(a0, a)
    {
      hide Inflater.Running, CheckOk, OutputWindow.Holds, Idle, Stream, StepIn, Forward, TableFor, FixedLens,
        FixedDistLens, A32.Adler, LensRead, LensKept, Produced, LengthsOk, TablesReady;
      RunningParts(this, input, out, r0, put, 0, check, t0, a0, hist);
      LenLensBegin(r0, a0, lens[..]);
      leave, r, a := LenLensCase(wrap, input, r0, lens, work, codes, t0, a0);
      ModeAgrees(wrap, t0, input, r, a);
      LenLensEnd(r, a, lens[..], codes[..], fixed[..]);
      SameOutput(out[..], put, a0, a, hist);
      CheckKept(wrap, a0.mode, a.mode, check as nat, out[..], put, hist);
      RunningIs(this, input, out, r, put, 0, check, t0, a, hist);
    }

    /** CODELENS */
    method CodeLensTurn(input: seq<byte>, out: array<byte>, r0: Regs, put: nat, check: A32.uint32,
                  ghost t0: seq<bool>, ghost a0: State, ghost hist: seq<byte>)
      returns (leave: bool, r: Regs, ghost a: State)
      requires Running(input, out, r0, put, 0, check, t0, a0, hist) && r0.mode == CODELENS
      modifies lens, work, codes
      ensures Running(input, out, r, put, 0, check, t0, a, hist)
      ensures leave ==> r.b.next == |input| && StepIn(a, Stream(t0, input, r.b.next)).None?
      ensures !leave ==> Forward(a0, a)
    {
      hide Inflater.Running, CheckOk, OutputWindow.Holds, Idle, Stream, StepIn, Forward, TableFor, FixedLens,
        FixedDistLens, A32.Adler, LensRead, LensKept, Produced, LengthsOk, TablesReady;
      RunningParts(this, input, out, r0, put, 0, check, t0, a0, hist);
      CodeLensBegin(r0, a0, lens[..], codes[..], fixed[..]);
      leave, r, a := CodeLensCase(wrap, input, r0, lens, work, codes, t0, a0);
      ModeAgrees(wrap, t0, input, r, a);
      SameOutput(out[..], put, a0, a, hist);
      CheckKept(wrap, a0.mode, a.mode, check as nat, out[..], put, hist);
      CodeLensEnd(r, a, lens[..], codes[..], fixed[..]);
      RunningIs(this, input, out, r, put, 0, check, t0, a, hist);
    }

    /** LEN */
    method LenTurn(input: seq<byte>, out: array<byte>, r0: Regs, put: nat, check: A32.uint32,
                  ghost t0: seq<bool>, ghost a0: State, ghost hist: seq<byte>)
      returns (leave: bool, r: Regs, ghost a: State)
      requires Running(input, out, r0, put, 0, check, t0, a0, hist) && r0.mode == LEN
      ensures Running(input, out, r, put, 0, check, t0, a, hist)
      ensures leave ==> r.b.next == |input| && StepIn(a, Stream(t0, input, r.b.next)).None?
      ensures !leave ==> Forward(a0, a)
    {
      hide Inflater.Running, Idle, Stream, StepIn, Forward, TableFor, FixedLens, FixedDistLens, A32.Adler;
      RunningMode(this, input, out, r0, put, 0, check, t0, a0, hist);
      RunningCheck(this, input, out, r0, put, 0, check, t0, a0, hist);
      SymbolTables(this, input, out, r0, put, 0, check, t0, a0, hist);
      leave, r, a := LenCase(wrap, input, r0, if r0.lencode.fixed then fixed else codes, t0, a0);
      if leave {
        TurnStarved(this, input, out, r0, put, 0, check, t0, a0, hist, r);
      } else {
        TurnDone(this, input, out, r0, put, 0, check, t0, a0, hist, r, a, check);
      }
    }

    /** DIST */
    method DistTurn(input: seq<byte>, out: array<byte>, r0: Regs, put: nat, check: A32.uint32,
                  ghost t0: seq<bool>, ghost a0: State, ghost hist: seq<byte>)
      returns (leave: bool, r: Regs, ghost a: State)
      requires Running(input, out, r0, put, 0, check, t0, a0, hist) && r0.mode == DIST
      ensures Running(input, out, r, put, 0, check, t0, a, hist)
      ensures leave ==> r.b.next == |input| && StepIn(a, Stream(t0, input, r.b.next)).None?
      ensures !leave ==> Forward(a0, a)
    {
      hide Inflater.Running, Idle, Stream, StepIn, Forward, TableFor, FixedLens, FixedDistLens, A32.Adler;
      RunningMode(this, input, out, r0, put, 0, check, t0, a0, hist);
      RunningCheck(this, input, out, r0, put, 0, check, t0, a0, hist);
      SymbolTables(this, input, out, r0, put, 0, check, t0, a0, hist);
      leave, r, a := DistCase(wrap, input, r0, if r0.distcode.fixed then fixed else codes, t0, a0);
      if leave {
        TurnStarved(this, input, out, r0, put, 0, check, t0, a0, hist, r);
      } else {
        TurnDone(this, input, out, r0, put, 0, check, t0, a0, hist, r, a, check);
      }
    }

    /** LENEXT and DISTEXT */
    method ExtraTurn(input: seq<byte>, out: array<byte>, r0: Regs, put: nat, check: A32.uint32,
                  ghost t0: seq<bool>, ghost a0: State, ghost hist: seq<byte>)
      returns (leave: bool, r: Regs, ghost a: State)
      requires Running(input, out, r0, put, 0, check, t0, a0, hist) && (r0.mode == LENEXT || r0.mode == DISTEXT)
      ensures Running(input, out, r, put, 0, check, t0, a, hist)
      ensures leave ==> r.b.next == |input| && StepIn(a, Stream(t0, input, r.b.next)).None?
      ensures !leave ==> Forward(a0, a)
    {
      hide Inflater.Running, Idle, Stream, StepIn, Forward, TableFor, FixedLens, FixedDistLens, A32.Adler;
      RunningMode(this, input, out, r0, put, 0, check, t0, a0, hist);
      RunningCheck(this, input, out, r0, put, 0, check, t0, a0, hist);
      SymbolTables(this, input, out, r0, put, 0, check, t0, a0, hist);
      leave, r, a := ExtraCase(wrap, input, r0, t0, a0);
      if leave {
        TurnStarved(this, input, out, r0, put, 0, check, t0, a0, hist, r);
      } else {
        TurnDone(this, input, out, r0, put, 0, check, t0, a0, hist, r, a, check);
      }
    }

    /** COPY, MATCH and LIT */
    method OutputTurn(input: seq<byte>, out: array<byte>, r0: Regs, put0: nat, check: A32.uint32,
                      ghost t0: seq<bool>, ghost a0: State, ghost hist: seq<byte>)
      returns (leave: bool, r: Regs, put: nat, ghost a: State)
      requires Running(input, out, r0, put0, 0, check, t0, a0, hist)
      requires (r0.mode == COPY || r0.mode == MATCH || r0.mode == LIT)
      modifies out
      ensures Running(input, out, r, put, 0, check, t0, a, hist) && put0 <= put <= out.Length
      ensures leave ==> NeedsOut(a) && (put == out.Length || (a.mode == COPY && r.b.next == |input|))
      ensures !leave ==> a.p >= a0.p && (Forward(a0, a) || put > put0)
    {
      hide *;
      RunningParts(this, input, out, r0, put0, 0, check, t0, a0, hist);
      ShapeWindow(this);
      leave, r, put, a := OutputCase(wrap, input, r0, out, put0, win, t0, a0, hist);
      ProducedWithin(out[..], put, a, hist);
      OutputKept(r0, a0, r, a);
      CheckMoved(wrap, a0.mode, a.mode, check as nat, old(out[..]), put0, out[..], put, hist);
      TablesKept(r0, a0, r, a, lens[..], codes[..], fixed[..]);
      CopyLength(wrap, t0, input, r, a);
      RunningIs(this, input, out, r, put, 0, check, t0, a, hist);
    }

    /** CHECK */
    method CheckTurn(input: seq<byte>, out: array<byte>, r0: Regs, put: nat, check0: A32.uint32,
                     ghost t0: seq<bool>, ghost a0: State, ghost hist: seq<byte>)
      returns (leave: bool, r: Regs, start: nat, check: A32.uint32, ghost a: State)
      requires Running(input, out, r0, put, 0, check0, t0, a0, hist) && r0.mode == CHECK
      ensures Running(input, out, r, put, start, check, t0, a, hist)
      ensures leave ==> r.b.next == |input| && StepIn(a, Stream(t0, input, r.b.next)).None? && start == 0
      ensures !leave ==> a.p >= a0.p && (r.mode == DONE || r.mode == BAD)
    {
      hide Idle, Stream, StepIn, TableFor, FixedLens, FixedDistLens, A32.Adler, LensRead, LensKept;
      CopyLength(wrap, t0, input, r0, a0);
      assert hist + out[..0] == hist;
      leave, r, start, check, a := CheckCase(wrap, input, r0, out, put, check0, t0, a0, hist);
    }

    /** LEN, by inflate_fast when there are six bytes of input and 258 bytes of room. */
    method SymbolTurn(input: seq<byte>, out: array<byte>, r0: Regs, put0: nat, check: A32.uint32,
                      ghost t0: seq<bool>, ghost a0: State, ghost hist: seq<byte>)
      returns (leave: bool, r: Regs, put: nat, ghost a: State, ghost fast: seq<nat>)
      requires Running(input, out, r0, put0, 0, check, t0, a0, hist) && r0.mode == LEN
      modifies out
      ensures Running(input, out, r, put, 0, check, t0, a, hist) && put0 <= put <= out.Length
      ensures leave ==> r.b.next == |input| && StepIn(a, Stream(t0, input, r.b.next)).None?
      ensures !leave ==> Forward(a0, a)
      ensures fast == if EntersFast(r0, |input|, put0, out.Length) then [r0.b.bits] else []
    {
      hide Inflater.Running, CheckOk, OutputWindow.Holds, Idle, Stream, StepIn, TableFor, FixedLens, FixedDistLens,
        A32.Adler, LensRead, LensKept, LengthsOk, TablesReady, Produced;
      RunningParts(this, input, out, r0, put0, 0, check, t0, a0, hist);
      SymbolTables(this, input, out, r0, put0, 0, check, t0, a0, hist);
      put := put0;
      if EntersFast(r0, |input|, put, out.Length) {
        fast := [r0.b.bits];
        r, put, a := DecodeFast(input, r0, out, put, win, if r0.lencode.fixed then fixed else codes,
                                 if r0.distcode.fixed then fixed else codes, wrap, t0, a0, hist);
        CopyLength(wrap, t0, input, r, a);
        ProducedWithin(out[..], put, a, hist);
        CheckMoved(wrap, a0.mode, a.mode, check as nat, old(out[..]), put0, out[..], put, hist);
        TablesKept(r0, a0, r, a, lens[..], codes[..], fixed[..]);
        RunningIs(this, input, out, r, put, 0, check, t0, a, hist);
        leave := false;
      } else {
        fast := [];
        leave, r, a := LenTurn(input, out, r0, put, check, t0, a0, hist);
        RunningMode(this, input, out, r, put, 0, check, t0, a, hist);
      }
    }

    /** One pass of the loop: the state's case. */
    method Turn(input: seq<byte>, out: array<byte>, r0: Regs, put0: nat, start0: nat, check0: A32.uint32,
                ghost t0: seq<bool>, ghost a0: State, ghost hist: seq<byte>)
      returns (leave: bool, r: Regs, put: nat, start: nat, check: A32.uint32, ghost a: State, ghost fast: seq<nat>)
      requires Running(input, out, r0, put0, start0, check0, t0, a0, hist)
      modifies lens, work, codes, out
      ensures Running(input, out, r, put, start, check, t0, a, hist) && put0 <= put
      ensures leave ==> Stuck(Stream(t0, input, r.b.next), put == out.Length, r.b.next == |input|, a)
      ensures !leave ==> Advanced(a0, put0, a, put)
      ensures fast == if EntersFast(r0, |input|, put0, out.Length) then [r0.b.bits] else []
      ensures a0.mode == DONE || a0.mode == BAD ==> leave && a == a0
    {
      hide Inflater.Running, Idle, Stream, StepIn;
      RunningMode(this, input, out, r0, put0, start0, check0, t0, a0, hist);
      leave, r, put, start, check, a, fast := true, r0, put0, start0, check0, a0, [];
      if r.mode == DONE || r.mode == BAD || r.mode == DICT { return; }
      if r.mode == LEN {
        leave, r, put, a, fast := SymbolTurn(input, out, r0, put0, check0, t0, a0, hist);
      } else if r.mode == DIST {
        leave, r, a := DistTurn(input, out, r0, put0, check0, t0, a0, hist);
      } else if r.mode == LENEXT || r.mode == DISTEXT {
        leave, r, a := ExtraTurn(input, out, r0, put0, check0, t0, a0, hist);
      } else if r.mode == COPY || r.mode == MATCH || r.mode == LIT {
        leave, r, put, a := OutputTurn(input, out, r0, put0, check0, t0, a0, hist);
        RunningStarved(this, input, out, r, put, start, check, t0, a, hist);
      } else if r.mode == LENLENS {
        leave, r, a := LenLensTurn(input, out, r0, put0, check0, t0, a0, hist);
      } else if r.mode == CODELENS {
        leave, r, a := CodeLensTurn(input, out, r0, put0, check0, t0, a0, hist);
      } else if r.mode == CHECK {
        leave, r, start, check, a := CheckTurn(input, out, r0, put0, check0, t0, a0, hist);
        RunningMode(this, input, out, r, put, start, check, t0, a, hist);
      } else if r.mode == HEAD || r.mode == DICTID {
        leave, r, check, a := StartTurn(input, out, r0, put0, check0, t0, a0, hist);
      } else {
        leave, r, a := HeaderTurn(input, out, r0, put0, check0, t0, a0, hist);
      }
    }

    /** The loop.  fast lists the bits held at each entry of inflate_fast: a byte or more
        only if the loop begins with it, with what a call before has left. */
    method Loop(input: seq<byte>, out: array<byte>, r0: Regs, check0: A32.uint32,
                ghost t0: seq<bool>, ghost a0: State, ghost hist: seq<byte>)
      returns (r: Regs, put: nat, start: nat, check: A32.uint32, ghost a: State, ghost fast: seq<nat>)
      requires Running(input, out, r0, 0, 0, check0, t0, a0, hist) && r0.b.next == 0
      modifies lens, work, codes, out
      ensures Running(input, out, r, put, start, check, t0, a, hist)
      ensures Stuck(Stream(t0, input, r.b.next), put == out.Length, r.b.next == |input|, a)
      ensures a0.mode == DONE || a0.mode == BAD ==> a == a0
      ensures ByteOnlyFirst(fast, EntersFast(r0, |input|, 0, out.Length), r0.b.bits)
    {
      hide Running, Stuck, Stream, Advanced, EntersFast, Idle, ByteOnlyFirst;
      r, put, start, check, a := r0, 0, 0, check0, a0;
      RunningBounds(this, input, out, r, put, start, check, t0, a, hist);
      RunningIdle(this, input, out, r, put, start, check, t0, a, hist);
      fast := [];
      ghost var moved, enters := false, EntersFast(r0, |input|, 0, out.Length);
      while true
        invariant Running(input, out, r, put, start, check, t0, a, hist)
        invariant a.p <= |t0| + 8 * |input| && put <= out.Length
        invariant a0.mode == DONE || a0.mode == BAD ==> a == a0
        invariant if moved then Advanced(a0, 0, a, put) else r == r0 && a == a0 && put == 0
        invariant if moved then ByteOnlyFirst(fast, enters, r0.b.bits) else fast == []
        decreases |t0| + 8 * |input| - a.p, out.Length - put, ModeRank(a.mode)
      {
        var leave;
        ghost var entry;
        if moved {
          RunningIdle(this, input, out, r, put, start, check, t0, a, hist);
          EntryBits(wrap, t0, input, r0, a0, r, a, put, out.Length);
        }
        ghost var a1, put1, r1 := a, put, r;
        leave, r, put, start, check, a, entry := Turn(input, out, r, put, start, check, t0, a, hist);
        NextEntry(fast, moved, enters, r0.b.bits, entry);
        fast := fast + entry;
        RunningBounds(this, input, out, r, put, start, check, t0, a, hist);
        if leave { break; }
        AdvancedOn(a1, put1, a, put);
        if moved { AdvancedMore(a0, a1, put1, a, put); }
        moved := true;
      }
    }

    /** inflateGetDictionary */
    method GetDictionary() returns (d: seq<byte>)
      requires Ready()
      ensures d == LastPart(kept, 32768)
    {
      hide Idle, TableFor, FixedLens, FixedDistLens, A32.Adler, LengthsOk, TablesReady, LastPart, OutputWindow.Holds;
      d := win.GetDictionary(kept);
    }

    /** inf_leave: the window and the check take in the output from start on. */
    method Epilogue(out: array<byte>, mode: Mode, put: nat, start: nat, check0: A32.uint32, ghost hist: seq<byte>,
                    ghost kept0: seq<byte>)
      returns (check: A32.uint32, ghost kept: seq<byte>)
      requires win.Holds(kept0) && out != win.window && mode != DICT
      requires CheckOk(wrap, mode, check0 as nat, out[..], start, put, hist)
      requires mode != DONE && mode != BAD ==> kept0 == hist
      modifies win, win.window
      ensures win.Holds(kept)
      ensures mode != DONE && mode != BAD ==> kept == hist + out[..put]
      ensures mode == DONE ==> kept == if wrap then kept0 else kept0 + out[..put]
      ensures wrap && Checked(mode) ==> check as nat == A32.Adler(hist + out[..put])
    {
      hide *;
      SumParts(wrap, mode, check0 as nat, out[..], start, put, hist);
      check, kept := check0, kept0;
      if win.wsize != 0 || (put != start && mode != BAD) {
        win.Update(out, put, put - start, kept);
        kept := kept + out[start..put];
      }
      if wrap && put != start {
        check := A32.Adler32(check, A32.Bytes(out[start..put]));
      }
      if wrap && Checked(mode) {
        SumContinues(hist, out[..], start, put, check0 as nat);
      }
    }

    /** The state is ready for the next call. */
    method Settle(out: array<byte>, put: nat, start: nat, ghost hist: seq<byte>)
      requires Shape() && r.b.next == 0 && Idle(wrap, t, [], r, a) && r.mode == a.mode && out != win.window
      requires LengthsOk(r, a, lens[..]) && TablesReady(r, a, codes[..], fixed[..])
      requires put <= out.Length && a.out == hist + out[..put] && (a.mode == DICT ==> a.out == [])
      requires CheckOk(wrap, a.mode, check as nat, out[..], start, put, hist)
      requires win.Holds(kept) && (a.mode != DONE && a.mode != BAD ==> kept == hist)
      modifies this`check, this`kept, win, win.window
      ensures Ready()
      ensures a.mode == DONE ==> kept == if wrap then old(kept) else old(kept) + out[..put]
    {
      hide Idle, Stream, TableFor, FixedLens, FixedDistLens, A32.Adler, LengthsOk, TablesReady, Inflater.Ready,
        Inflater.Shape, CheckOk, OutputWindow.Holds;
      if r.mode != DICT {
        check, kept := Epilogue(out, r.mode, put, start, check, hist, kept);
      }
      ReadyAgain(this);
    }

    /** inflate, from one call to the next: used bytes of the input and put bytes of
        the output, which continue the run of the decoding machine.  fast lists the bits
        held at each entry of inflate_fast. */
    method Inflate(input: seq<byte>, out: array<byte>)
      returns (ret: Return, used: nat, put: nat, ghost fast: seq<nat>)
      requires Ready() && out != win.window
      modifies this, lens, work, codes, out, win, win.window
      ensures Ready() && used <= |input| && put <= out.Length
      ensures t == old(t) + BytesToBits(input[..used]) && a.out == old(a.out) + out[..put]
      ensures Stuck(t, put == out.Length, used == |input|, a)
      ensures ret == ReturnCode(a.mode, used, put)
      ensures HoldsByte(fast) <==> EntersFast(old(r), |input|, 0, out.Length) && old(r.b.bits) >= 8
      ensures ByteOnlyFirst(fast, EntersFast(old(r), |input|, 0, out.Length), old(r.b.bits))
      ensures old(a.mode) != DONE && old(a.mode) != BAD && a.mode == DONE ==> kept == if wrap then old(a.out) else a.out
    {
      hide *;
      ghost var t0, hist := t, a.out;
      BeginCall(this, input, out);
      var start, regs;
      regs, put, start, check, a, fast := Loop(input, out, r, check, t, a, a.out);
      FirstEntry(fast, EntersFast(old(r), |input|, 0, out.Length), old(r.b.bits));
      EndCall(this, input, out, regs, put, start, check, t0, a, hist);
      used := regs.b.next;
      r := regs.(b := Buffer(regs.b.hold, regs.b.bits, 0));
      t := Stream(t0, input, used);
      ret := ReturnCode(r.mode, used, put);
      Settle(out, put, start, hist);
    }
  }

  /** Return codes; the first two are for an input that goes on. */
  datatype Return = Z_OK | Z_BUF_ERROR | Z_STREAM_END | Z_NEED_DICT | Z_DATA_ERROR

  function ReturnCode(m: Mode, used: nat, put: nat): Return {
    match m
    case DONE => Z_STREAM_END
    case BAD => Z_DATA_ERROR
    case DICT => Z_NEED_DICT
    case _ => if used == 0 && put == 0 then Z_BUF_ERROR else Z_OK
  }

  /** The input of a new call. */
  lemma Restart(wrap: bool, t: seq<bool>, input: seq<byte>, r: Regs, a: State)
    requires Idle(wrap, t, [], r, a) && r.b.next == 0
    ensures Idle(wrap, t, input, r, a)
  {
    hide Follows, StepIn, Buffered, Fields, BytesToBits;
    StreamNone(t, input);
    StreamNone(t, []);
  }

  lemma StreamNone(t: seq<bool>, input: seq<byte>)
    ensures Stream(t, input, 0) == t
  {
    assert input[..0] == [];
    assert BytesToBits([]) == [];
  }

  lemma BeginCall(s: Inflater, input: seq<byte>, out: array<byte>)
    requires s.Ready() && out != s.win.window
    ensures s.Running(input, out, s.r, 0, 0, s.check, s.t, s.a, s.a.out) && s.r.b.next == 0
    ensures s.win.Holds(s.kept) && (s.a.mode != DONE && s.a.mode != BAD ==> s.kept == s.a.out)
  {
    hide Idle, Stream, TableFor, FixedLens, FixedDistLens, A32.Adler, LensRead, LensKept;
    Restart(s.wrap, s.t, input, s.r, s.a);
    assert s.a.out + out[..0] == s.a.out;
  }

  lemma EndCall(s: Inflater, input: seq<byte>, out: array<byte>, r: Regs, put: nat, start: nat, check: A32.uint32,
                t0: seq<bool>, a: State, hist: seq<byte>)
    requires s.Running(input, out, r, put, start, check, t0, a, hist)
    ensures put <= out.Length && a.out == hist + out[..put] && r.mode == a.mode && (a.mode == DICT ==> a.out == [])
    ensures r.b.next <= |input| && Stream(t0, input, r.b.next) == t0 + BytesToBits(input[..r.b.next])
    ensures s.Shape() && CheckOk(s.wrap, a.mode, check as nat, out[..], start, put, hist)
    ensures var r' := r.(b := Buffer(r.b.hold, r.b.bits, 0));
      Idle(s.wrap, Stream(t0, input, r.b.next), [], r', a) && LengthsOk(r', a, s.lens[..])
        && TablesReady(r', a, s.codes[..], s.fixed[..])
  {
    hide Idle, Stream, TableFor, FixedLens, FixedDistLens, A32.Adler, LensRead, LensKept;
    Leave(s.wrap, t0, input, r, a);
    CopyLength(s.wrap, t0, input, r, a);
    DictEmpty(s.wrap, t0, input, r, a);
  }

  lemma ReadyAgain(s: Inflater)
    requires s.Shape() && s.r.b.next == 0 && Idle(s.wrap, s.t, [], s.r, s.a)
    requires LengthsOk(s.r, s.a, s.lens[..]) && TablesReady(s.r, s.a, s.codes[..], s.fixed[..])
    requires s.win.Holds(s.kept) && (s.a.mode != DONE && s.a.mode != BAD ==> s.kept == s.a.out)
    requires s.wrap && Checked(s.a.mode) ==> s.check as nat == A32.Adler(s.a.out)
    ensures s.Ready()
  {
    hide Idle, Stream, LengthsOk, TablesReady, A32.Adler, Inflater.Shape, OutputWindow.Holds;
  }

  lemma DictEmpty(wrap: bool, t0: seq<bool>, input: seq<byte>, r: Regs, a: State)
    requires Idle(wrap, t0, input, r, a)
    ensures a.mode == DICT ==> a.out == []
  {
    hide Got, Held, Buffered, StepIn, Stream, Lazy, Accepted;
    IdleGot(wrap, t0, input, r, a);
    GotFacts(wrap, t0, input, r, a);
  }

  /** The state left for the next call. */
  lemma Leave(wrap: bool, t0: seq<bool>, input: seq<byte>, r: Regs, a: State)
    requires Idle(wrap, t0, input, r, a)
    ensures r.b.next <= |input| && Stream(t0, input, r.b.next) == t0 + BytesToBits(input[..r.b.next])
    ensures Idle(wrap, Stream(t0, input, r.b.next), [], r.(b := Buffer(r.b.hold, r.b.bits, 0)), a)
  {
    hide Follows, StepIn, Buffered, BytesToBits;
    StreamNone(Stream(t0, input, r.b.next), []);
  }

  /** When the state LEN calls inflate_fast. */
  predicate EntersFast(r: Regs, have: nat, put: nat, room: nat) {
    r.mode == LEN && have - r.b.next >= 6 && room - put >= 258
  }

  /** Of the entries of inflate_fast in a call, only the first can find a byte or more in the
      bit buffer: when the call begins with it. */
  ghost predicate ByteOnlyFirst(fast: seq<nat>, enters: bool, bits: nat) {
    && (enters ==> fast != [] && fast[0] == bits)
    && forall i :: 0 <= i < |fast| && fast[i] >= 8 ==> i == 0 && enters
  }

  /** inflate_fast was entered with a byte or more in the bit buffer. */
  ghost predicate HoldsByte(fast: seq<nat>) { exists i :: 0 <= i < |fast| && fast[i] >= 8 }

  lemma NextEntry(fast: seq<nat>, moved: bool, enters: bool, bits: nat, entry: seq<nat>)
    requires if moved then ByteOnlyFirst(fast, enters, bits) else fast == []
    requires moved ==> forall i :: 0 <= i < |entry| ==> entry[i] < 8
    requires !moved ==> entry == if enters then [bits] else []
    ensures ByteOnlyFirst(fast + entry, enters, bits)
  {
  }

  lemma FirstEntry(fast: seq<nat>, enters: bool, bits: nat)
    requires ByteOnlyFirst(fast, enters, bits)
    ensures HoldsByte(fast) <==> enters && bits >= 8
  {
  }

  lemma RunningIdle(s: Inflater, input: seq<byte>, out: array<byte>, r: Regs, put: nat, start: nat, check: A32.uint32,
                    t0: seq<bool>, a: State, hist: seq<byte>)
    requires s.Running(input, out, r, put, start, check, t0, a, hist)
    ensures Idle(s.wrap, t0, input, r, a) && |a.out| == |hist| + put
  {
    hide Idle, TableFor, FixedLens, FixedDistLens, A32.Adler, LensRead, LensKept;
  }

  // ---- The entry of inflate_fast ----

  /** a' comes after a in a run. */
  ghost predicate Ahead(a: State, a': State) {
    a'.p > a.p || (a'.p == a.p && (|a'.out| > |a.out| || (|a'.out| == |a.out| && ModeRank(a'.mode) < ModeRank(a.mode))))
  }

  lemma StepAhead(a: State, t: seq<bool>)
    requires StepIn(a, t).Some?
    ensures Ahead(a, StepIn(a, t).value)
  {
    hide Step, ModeRank;
    StepForward(a, t);
    StepGrows(a, t[a.p..]);
  }

  lemma {:induction false} StepsAhead(a: State, t: seq<bool>, n: nat)
    requires n > 0 && Steps(a, t, n).Some?
    ensures Ahead(a, Steps(a, t, n).value)
    decreases n
  {
    hide StepIn, ModeRank;
    StepAhead(a, t);
    if n > 1 { StepsAhead(StepIn(a, t).value, t, n - 1); }
  }

  /** A state that can make no step is the last of all runs over the bits. */
  lemma StuckLast(wrap: bool, t: seq<bool>, a0: State, a: State)
    requires Follows(wrap, t, a0) && Follows(wrap, t, a) && StepIn(a0, t).None?
    ensures a == a0 || Ahead(a, a0)
  {
    hide Sound, StepIn, Steps, Ahead;
    var m: nat :| Steps(Start(wrap), t, m) == Some(a0);
    var n: nat :| Steps(Start(wrap), t, n) == Some(a);
    StuckAfter(Start(wrap), t, m, n);
  }

  lemma StuckAfter(s: State, t: seq<bool>, m: nat, n: nat)
    requires Steps(s, t, m).Some? && Steps(s, t, n).Some? && StepIn(Steps(s, t, m).value, t).None?
    ensures Steps(s, t, n) == Steps(s, t, m) || Ahead(Steps(s, t, n).value, Steps(s, t, m).value)
  {
    hide StepIn, Ahead;
    if n < m {
      RunAdd(s, t, n, m - n);
      StepsAhead(Steps(s, t, n).value, t, m - n);
    } else if n > m {
      RunAdd(s, t, m, n - m);
      assert false;
    }
  }

  /** Progress: input, then output, then a lower mode. */
  ghost predicate Advanced(a0: State, put0: nat, a: State, put: nat) {
    a.p > a0.p || (a.p == a0.p && (put > put0 || (put == put0 && ModeRank(a.mode) < ModeRank(a0.mode))))
  }

  /** A call returns at an end, or for want of output space, or of input. */
  ghost predicate Stuck(t: seq<bool>, full: bool, drained: bool, a: State) {
    a.mode == DONE || a.mode == BAD || a.mode == DICT || (full && NeedsOut(a)) || (drained && StepIn(a, t).None?)
  }

  lemma AdvancedOn(a0: State, put0: nat, a: State, put: nat)
    requires Advanced(a0, put0, a, put)
    ensures a.p >= a0.p && (a.p > a0.p || put > put0 || (put == put0 && ModeRank(a.mode) < ModeRank(a0.mode)))
  {
    hide ModeRank;
  }

  lemma AdvancedMore(a0: State, a1: State, put1: nat, a: State, put: nat)
    requires Advanced(a0, 0, a1, put1) && Advanced(a1, put1, a, put)
    ensures Advanced(a0, 0, a, put)
  {
    hide ModeRank;
  }

  /** Once a call has made progress, inflate_fast is entered with less than a byte. */
  lemma EntryBits(wrap: bool, t0: seq<bool>, input: seq<byte>, r0: Regs, a0: State, r: Regs, a: State, put: nat,
                  room: nat)
    requires Idle(wrap, t0, input, r0, a0) && r0.b.next == 0 && Idle(wrap, t0, input, r, a)
    requires Advanced(a0, 0, a, put) && |a.out| == |a0.out| + put
    ensures EntersFast(r, |input|, put, room) ==> r.b.bits < 8
  {
    hide *;
    if EntersFast(r, |input|, put, room) && r.b.bits >= 8 {
      EntryPlace(wrap, t0, input, r, a, put, room);
      StreamNone(t0, input);
      IdleFacts(wrap, t0, input, r0, a0);
      IdleFacts(wrap, t0, input, r, a);
      NoWayBack(a0, a, put);
      StuckLast(wrap, t0, a0, a);
    }
  }

  lemma EntryPlace(wrap: bool, t0: seq<bool>, input: seq<byte>, r: Regs, a: State, put: nat, room: nat)
    requires Idle(wrap, t0, input, r, a) && EntersFast(r, |input|, put, room) && r.b.bits >= 8
    ensures r.b.next == 0
  {
    hide Got, Lazy;
  }

  /** The bits at hand, and that a byte of them was left because no step was possible. */
  lemma IdleFacts(wrap: bool, t0: seq<bool>, input: seq<byte>, r: Regs, a: State)
    requires Idle(wrap, t0, input, r, a)
    ensures Follows(wrap, Stream(t0, input, r.b.next), a) && a.p + r.b.bits == |Stream(t0, input, r.b.next)|
    ensures r.b.bits >= 8 ==> StepIn(a, Stream(t0, input, r.b.next)).None?
  {
    hide Got, StepIn, Stream, Follows;
    IdleGot(wrap, t0, input, r, a);
    GotFacts(wrap, t0, input, r, a);
    GotFollows(wrap, t0, input, r, a);
    if a.mode == BAD { EndSteps(a, Stream(t0, input, r.b.next)); }
  }

  lemma NoWayBack(a0: State, a: State, put: nat)
    requires Advanced(a0, 0, a, put) && |a.out| == |a0.out| + put
    ensures a.p >= a0.p && a != a0 && !Ahead(a, a0)
  {
    hide ModeRank;
  }

  lemma RunningBounds(s: Inflater, input: seq<byte>, out: array<byte>, r: Regs, put: nat, start: nat, check: A32.uint32,
                      t0: seq<bool>, a: State, hist: seq<byte>)
    requires s.Running(input, out, r, put, start, check, t0, a, hist)
    ensures a.p <= |t0| + 8 * |input| && put <= out.Length
  {
    hide Idle, TableFor, FixedLens, FixedDistLens, A32.Adler, LensRead, LensKept;
    GotSize(s.wrap, t0, input, r, a);
    CopyLength(s.wrap, t0, input, r, a);
  }

  lemma RunningMode(s: Inflater, input: seq<byte>, out: array<byte>, r: Regs, put: nat, start: nat, check: A32.uint32,
                    t0: seq<bool>, a: State, hist: seq<byte>)
    requires s.Running(input, out, r, put, start, check, t0, a, hist)
    ensures r.mode == a.mode && put <= out.Length && (a.mode != DONE && a.mode != BAD ==> start == 0)
  {
    hide Idle, TableFor, FixedLens, FixedDistLens, A32.Adler, LensRead, LensKept;
    CopyLength(s.wrap, t0, input, r, a);
  }

  lemma RunningStarved(s: Inflater, input: seq<byte>, out: array<byte>, r: Regs, put: nat, start: nat,
                       check: A32.uint32, t0: seq<bool>, a: State, hist: seq<byte>)
    requires s.Running(input, out, r, put, start, check, t0, a, hist)
    ensures a.mode == COPY && NeedsOut(a) ==> StepIn(a, Stream(t0, input, r.b.next)).None?
  {
    hide Idle, Stream, StepIn, TableFor, FixedLens, FixedDistLens, A32.Adler, LensRead, LensKept;
    CopyStarved(s.wrap, t0, input, r, a);
  }

  lemma CopyStarved(wrap: bool, t0: seq<bool>, input: seq<byte>, r: Regs, a: State)
    requires Idle(wrap, t0, input, r, a)
    ensures a.mode == COPY && NeedsOut(a) ==> StepIn(a, Stream(t0, input, r.b.next)).None?
  {
    hide *;
    IdleGot(wrap, t0, input, r, a);
    GotFacts(wrap, t0, input, r, a);
    LazyCopy(r.b.bits, a, Stream(t0, input, r.b.next));
    CopyWaits(a, Stream(t0, input, r.b.next));
  }

  lemma LazyCopy(bits: nat, a: State, t: seq<bool>)
    requires Lazy(bits, a, t)
    ensures a.mode == COPY ==> bits == 0
    ensures NeedsOut(a) && a.mode == COPY ==> a.length > 0
  {
    hide StepIn;
  }

  /** A stored byte needs all its bits. */
  lemma CopyWaits(a: State, t: seq<bool>)
    ensures a.mode == COPY && a.length > 0 && |t| < a.p + 8 ==> StepIn(a, t).None?
  {
    hide HeadStep, TypeStep, StoredStep, TableStep, LenLensStep, CodeLensStep, LenStep, LenExtStep, DistStep,
      DistExtStep, MatchStep, CheckStep, Grows, Val;
  }

  /** What holds within a call, part by part. */
  lemma RunningParts(s: Inflater, input: seq<byte>, out: array<byte>, r: Regs, put: nat, start: nat, check: A32.uint32,
                     t0: seq<bool>, a: State, hist: seq<byte>)
    requires s.Running(input, out, r, put, start, check, t0, a, hist)
    ensures s.Shape() && out != s.win.window && Idle(s.wrap, t0, input, r, a) && Produced(out[..], put, a, hist)
    ensures r.mode == a.mode
    ensures LengthsOk(r, a, s.lens[..]) && TablesReady(r, a, s.codes[..], s.fixed[..])
    ensures CheckOk(s.wrap, a.mode, check as nat, out[..], start, put, hist)
    ensures a.mode != DONE && a.mode != BAD ==> s.win.Holds(hist)
  {
    hide Idle, Inflater.Shape, Produced, LengthsOk, TablesReady, CheckOk, OutputWindow.Holds;
    ModeAgrees(s.wrap, t0, input, r, a);
  }

  lemma RunningIs(s: Inflater, input: seq<byte>, out: array<byte>, r: Regs, put: nat, start: nat, check: A32.uint32,
                  t0: seq<bool>, a: State, hist: seq<byte>)
    requires s.Shape() && out != s.win.window && Idle(s.wrap, t0, input, r, a) && Produced(out[..], put, a, hist)
    requires LengthsOk(r, a, s.lens[..]) && TablesReady(r, a, s.codes[..], s.fixed[..])
    requires CheckOk(s.wrap, a.mode, check as nat, out[..], start, put, hist)
    requires a.mode != DONE && a.mode != BAD ==> s.win.Holds(hist)
    ensures s.Running(input, out, r, put, start, check, t0, a, hist)
  {
    hide Idle, Inflater.Shape, Produced, LengthsOk, TablesReady, CheckOk, OutputWindow.Holds;
  }

  /** The codes in use stay, or are the fixed ones, or none is in use. */
  ghost predicate CodesKept(r0: Regs, a0: State, r: Regs, a: State) {
    InSymbols(a0.mode) && r.lencode == r0.lencode && r.distcode == r0.distcode && a.lcode == a0.lcode
      && a.dcode == a0.dcode
  }

  ghost predicate CodesFixed(r: Regs, a: State) {
    && a.lcode == FixedLens() && a.dcode == FixedDistLens()
    && r.lencode == Table(true, 0, 9) && r.distcode == Table(true, 512, 5)
  }

  lemma RunningCheck(s: Inflater, input: seq<byte>, out: array<byte>, r0: Regs, put: nat, start: nat,
                     check0: A32.uint32, t0: seq<bool>, a0: State, hist: seq<byte>)
    requires s.Running(input, out, r0, put, start, check0, t0, a0, hist)
    ensures s.wrap && Checked(a0.mode) && a0.mode != DONE ==> start == 0 && check0 as nat == A32.Adler(hist)
    ensures Idle(s.wrap, t0, input, r0, a0) && (a0.mode == HEAD ==> A32.Adler(hist) == 1)
  {
    hide Idle, Inflater.Shape, LengthsOk, TablesReady, OutputWindow.Holds;
    assert hist + out[..0] == hist;
    if a0.mode == HEAD {
      ModeAgrees(s.wrap, t0, input, r0, a0);
      HeadEmpty(s.wrap, t0, input, r0, a0);
      AdlerStart();
    }
    hide A32.Adler;
  }

  lemma SymbolTables(s: Inflater, input: seq<byte>, out: array<byte>, r0: Regs, put: nat, start: nat,
                     check0: A32.uint32, t0: seq<bool>, a0: State, hist: seq<byte>)
    requires s.Running(input, out, r0, put, start, check0, t0, a0, hist) && InSymbols(a0.mode)
    ensures TableFor(LENS, a0.lcode, (if r0.lencode.fixed then s.fixed else s.codes)[..], r0.lencode.at,
      r0.lencode.root)
    ensures TableFor(DISTS, a0.dcode, (if r0.distcode.fixed then s.fixed else s.codes)[..], r0.distcode.at,
      r0.distcode.root)
    ensures out != s.win.window && s.win.Holds(hist) && s.win.size == 32768 && Produced(out[..], put, a0, hist)
    ensures Idle(s.wrap, t0, input, r0, a0)
  {
    hide Idle, LengthsOk, OutputWindow.Holds, TableFor, FixedLens, FixedDistLens, CheckOk;
  }

  /** After a turn that writes to no array. */
  lemma TurnDone(s: Inflater, input: seq<byte>, out: array<byte>, r0: Regs, put: nat, start: nat, check0: A32.uint32,
                 t0: seq<bool>, a0: State, hist: seq<byte>,
                 r: Regs, a: State, check: A32.uint32)
    requires s.Running(input, out, r0, put, start, check0, t0, a0, hist) && start == 0 && Idle(s.wrap, t0, input, r, a)
    requires a.out == a0.out
    requires a.mode != DONE && a.mode != CODELENS && (a.mode == LENLENS ==> r.have == 0 && a.lens == [])
    requires InSymbols(a.mode) ==> CodesKept(r0, a0, r, a) || CodesFixed(r, a)
    requires s.wrap && Checked(a.mode) ==> check as nat == A32.Adler(hist)
    requires a0.mode != DONE && a0.mode != BAD
    ensures s.Running(input, out, r, put, 0, check, t0, a, hist)
  {
    hide Idle, OutputWindow.Holds, TableFor, FixedLens, FixedDistLens, A32.Adler, LensRead, LensKept;
    EmptyLengths(s.lens[..]);
    assert hist + out[..0] == hist;
  }

  /** After a turn that only pulled bytes. */
  lemma TurnStarved(s: Inflater, input: seq<byte>, out: array<byte>, r0: Regs, put: nat, start: nat,
                    check0: A32.uint32, t0: seq<bool>, a0: State, hist: seq<byte>, r: Regs)
    requires s.Running(input, out, r0, put, start, check0, t0, a0, hist) && Idle(s.wrap, t0, input, r, a0)
    requires r == r0.(b := r.b)
    ensures s.Running(input, out, r, put, start, check0, t0, a0, hist)
  {
    hide Idle, Inflater.Shape, OutputWindow.Holds, TableFor, A32.Adler, LensRead, LensKept, CheckOk;
  }

  lemma CheckKept(wrap: bool, m: Mode, m': Mode, check: nat, out: seq<byte>, put: nat, hist: seq<byte>)
    requires CheckOk(wrap, m, check, out, 0, put, hist) && Checked(m) && m' != DONE
    ensures CheckOk(wrap, m', check, out, 0, put, hist)
  {
    hide A32.Adler;
  }

  lemma ShapeWindow(s: Inflater)
    requires s.Shape()
    ensures s.win.size == 32768
  {
    hide TableFor, FixedLens, FixedDistLens;
  }

  /** What a state that writes output leaves alone. */
  lemma OutputKept(r0: Regs, a0: State, r: Regs, a: State)
    requires a0.mode == COPY || a0.mode == MATCH || a0.mode == LIT
    requires a0.mode == COPY ==> a.mode == COPY || a.mode == TYPE
    requires a0.mode != COPY ==> a.mode == LEN || a.mode == MATCH || a.mode == LIT || a.mode == BAD
    requires a0.mode != COPY ==>
      r.lencode == r0.lencode && r.distcode == r0.distcode && a.lcode == a0.lcode && a.dcode == a0.dcode
    ensures Checked(a0.mode) && (InSymbols(a.mode) ==> CodesKept(r0, a0, r, a))
  {
  }

  /** The checksum does not cover the output of this call yet. */
  lemma CheckMoved(wrap: bool, m: Mode, m': Mode, check: nat, out: seq<byte>, put: nat, out': seq<byte>, put': nat,
                   hist: seq<byte>)
    requires CheckOk(wrap, m, check, out, 0, put, hist) && Checked(m) && m' != DONE && put' <= |out'|
    ensures CheckOk(wrap, m', check, out', 0, put', hist)
  {
    hide A32.Adler;
    assert out[..0] == out'[..0];
  }

  lemma SumParts(wrap: bool, m: Mode, check: nat, out: seq<byte>, start: nat, put: nat, hist: seq<byte>)
    requires CheckOk(wrap, m, check, out, start, put, hist)
    ensures start <= put <= |out| && (m != DONE && m != BAD ==> start == 0)
    ensures m == DONE ==> start == if wrap then put else 0
    ensures wrap && Checked(m) ==> check == A32.Adler(hist + out[..start])
  {
    hide A32.Adler;
  }

  lemma SumContinues(hist: seq<byte>, out: seq<byte>, start: nat, put: nat, check: nat)
    requires start <= put <= |out| && check == A32.Adler(hist + out[..start])
    ensures put == start ==> check == A32.Adler(hist + out[..put])
    ensures A32.Pack(A32.Update(A32.Unpack(check), out[start..put])) == A32.Adler(hist + out[..put])
  {
    hide A32.Adler, A32.Update, A32.Pack, A32.Unpack;
    A32.Continued(hist + out[..start], out[start..put]);
    assert hist + out[..start] + out[start..put] == hist + out[..put];
  }

  lemma ProducedWithin(out: seq<byte>, put: nat, a: State, hist: seq<byte>)
    requires Produced(out, put, a, hist)
    ensures put <= |out|
  {
  }

  lemma LenLensBegin(r: Regs, a: State, lens: seq<nat>)
    requires LengthsOk(r, a, lens) && a.mode == LENLENS
    ensures r.have == |a.lens| && LensRead(lens, a.lens) && |lens| == 320
  {
    hide LensRead;
  }

  lemma LenLensEnd(r: Regs, a: State, lens: seq<nat>, codes: seq<Entry>, fixed: seq<Entry>)
    requires |lens| == 320 && (a.mode == LENLENS || a.mode == CODELENS || a.mode == BAD)
    requires a.mode == LENLENS ==> r.have == |a.lens| && LensRead(lens, a.lens)
    requires a.mode == CODELENS ==> r.have == 0 && a.lens == [] && !r.lencode.fixed
    requires a.mode == CODELENS ==> TableFor(CODES, a.lcode, codes, r.lencode.at, r.lencode.root)
    ensures LengthsOk(r, a, lens) && TablesReady(r, a, codes, fixed)
  {
    EmptyLengths(lens);
    hide LensRead, LensKept, TableFor, TablesReady;
    LenLensTables(r, a, codes, fixed);
  }

  lemma LenLensTables(r: Regs, a: State, codes: seq<Entry>, fixed: seq<Entry>)
    requires a.mode == LENLENS || a.mode == CODELENS || a.mode == BAD
    requires a.mode == CODELENS ==> !r.lencode.fixed
    requires a.mode == CODELENS ==> TableFor(CODES, a.lcode, codes, r.lencode.at, r.lencode.root)
    ensures TablesReady(r, a, codes, fixed)
  {
    hide TableFor;
  }

  /** The arrays of lengths and tables are as before. */
  lemma TablesKept(r0: Regs, a0: State, r: Regs, a: State, lens: seq<nat>, codes: seq<Entry>, fixed: seq<Entry>)
    requires LengthsOk(r0, a0, lens) && TablesReady(r0, a0, codes, fixed) && a.mode != LENLENS && a.mode != CODELENS
    requires InSymbols(a.mode) ==> CodesKept(r0, a0, r, a)
    ensures LengthsOk(r, a, lens) && TablesReady(r, a, codes, fixed)
  {
    hide LensRead, LensKept, TableFor;
  }

  lemma CodeLensBegin(r: Regs, a: State, lens: seq<nat>, codes: seq<Entry>, fixed: seq<Entry>)
    requires LengthsOk(r, a, lens) && TablesReady(r, a, codes, fixed) && a.mode == CODELENS
    ensures r.have == |a.lens| && LensKept(lens, a.lens) && |lens| == 320
    ensures !r.lencode.fixed && TableFor(CODES, a.lcode, codes, r.lencode.at, r.lencode.root)
  {
    hide LensKept, TableFor;
  }

  lemma CodeLensEnd(r: Regs, a: State, lens: seq<nat>, codes: seq<Entry>, fixed: seq<Entry>)
    requires |lens| == 320 && (a.mode == CODELENS || a.mode == LEN || a.mode == BAD)
    requires a.mode == CODELENS ==> r.have == |a.lens| && LensKept(lens, a.lens) && !r.lencode.fixed
    requires a.mode == CODELENS ==> TableFor(CODES, a.lcode, codes, r.lencode.at, r.lencode.root)
    requires a.mode == LEN ==> !r.lencode.fixed && TableFor(LENS, a.lcode, codes, r.lencode.at, r.lencode.root)
    requires a.mode == LEN ==> !r.distcode.fixed && TableFor(DISTS, a.dcode, codes, r.distcode.at, r.distcode.root)
    ensures LengthsOk(r, a, lens) && TablesReady(r, a, codes, fixed)
  {
    hide LensKept, TableFor, TablesReady;
    CodeLensTables(r, a, codes, fixed);
  }

  lemma CodeLensTables(r: Regs, a: State, codes: seq<Entry>, fixed: seq<Entry>)
    requires a.mode == CODELENS || a.mode == LEN || a.mode == BAD
    requires a.mode == CODELENS || a.mode == LEN ==> !r.lencode.fixed
    requires a.mode == CODELENS ==> TableFor(CODES, a.lcode, codes, r.lencode.at, r.lencode.root)
    requires a.mode == LEN ==> TableFor(LENS, a.lcode, codes, r.lencode.at, r.lencode.root)
    requires a.mode == LEN ==> !r.distcode.fixed && TableFor(DISTS, a.dcode, codes, r.distcode.at, r.distcode.root)
    ensures TablesReady(r, a, codes, fixed)
  {
    hide TableFor;
  }

  lemma SameOutput(out: seq<byte>, put: nat, a0: State, a: State, hist: seq<byte>)
    requires Produced(out, put, a0, hist) && a.out == a0.out
    ensures Produced(out, put, a, hist)
  {
  }

  lemma ModeAgrees(wrap: bool, t0: seq<bool>, input: seq<byte>, r: Regs, a: State)
    requires Idle(wrap, t0, input, r, a)
    ensures r.mode == a.mode && r.b.next <= |input|
  {
    hide Idle;
    CopyLength(wrap, t0, input, r, a);
  }

  lemma AdlerStart()
    ensures A32.Adler([]) == 1
  {
  }

  lemma EmptyLengths(lens: seq<nat>)
    requires |lens| == 320
    ensures LensRead(lens, []) && LensKept(lens, [])
  {
  }

  lemma HeadEmpty(wrap: bool, t0: seq<bool>, input: seq<byte>, r: Regs, a: State)
    requires Idle(wrap, t0, input, r, a) && (r.mode == HEAD || r.mode == DICTID)
    ensures a.out == []
  {
    hide Got, Held, Buffered, StepIn, Stream, Lazy, Accepted;
    IdleGot(wrap, t0, input, r, a);
    GotFacts(wrap, t0, input, r, a);
  }

  /** inflateInit: zlib format (wrap) or raw data, with a window of 32K. */
  method InflateInit(wrap: bool) returns (s: Inflater)
    ensures fresh(s) && s.wrap == wrap && s.a == Start(wrap) && s.t == [] && s.Ready()
    ensures fresh(s.lens) && fresh(s.work) && fresh(s.codes) && fresh(s.fixed) && fresh(s.win) && fresh(s.win.window)
  {
    hide TableFor, FixedLens, FixedDistLens, Inflater.Ready;
    var lens, work := new nat[320](i => 0), new nat[288](i => 0);
    var fixed := BuildFixed(work);
    var codes := new Entry[1444](i => INVALID_CODE);
    WindowSize();
    var win := new OutputWindow(15);
    s := new Inflater(wrap, lens, work, codes, fixed, win);
    InitReady(s);
  }

  lemma WindowSize()
    ensures Pow2(15) == 32768
  {
    Pow2Values();
  }

  lemma InitReady(s: Inflater)
    requires s.r == Regs(HEAD, false, Buffer(0, 0, 0), 0, 0, 0, 0, 0, 0, 0, Table(false, 0, 0), Table(false, 0, 0))
    requires s.t == [] && s.a == Start(s.wrap) && s.kept == [] && s.lens.Length == 320 && s.work.Length == 288
    requires s.work != s.lens && s.codes.Length == s.fixed.Length == 1444 && s.codes != s.fixed
    requires s.win.size == 32768 && s.win.Holds([])
    requires TableFor(LENS, FixedLens(), s.fixed[..], 0, 9) && TableFor(DISTS, FixedDistLens(), s.fixed[..], 512, 5)
    ensures s.Ready()
  {
    hide TableFor, FixedLens, FixedDistLens, Accepted, A32.Adler, Idle;
    InitIdle(s.wrap, s.t, s.r, s.a);
  }

  lemma InitIdle(wrap: bool, t: seq<bool>, r: Regs, a: State)
    requires r == Regs(HEAD, false, Buffer(0, 0, 0), 0, 0, 0, 0, 0, 0, 0, Table(false, 0, 0), Table(false, 0, 0))
    requires t == [] && a == Start(wrap)
    ensures Idle(wrap, t, [], r, a)
  {
    hide Steps, StepIn, BytesToBits, Reaches, FromBits;
    StartSound(wrap);
    ReachSelf(a, Stream(t, [], r.b.next));
    NothingRead(t);
  }

  lemma NothingRead(t: seq<bool>)
    requires t == []
    ensures Stream(t, [], 0) == [] && FromBits(t[0..]) == 0
  {
  }
}
