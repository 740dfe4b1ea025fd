/** The state CHECK of inflate (deps/libz/inflate.c): the Adler-32 trailer. */
module CheckState {
  import opened Bits
  import opened CodeLengths
  import opened Machine
  import opened BitBuffer
  import opened InflateStates
  import opened OutputStates
  import A32 = Adler32

  /** ZSWAP32 */
  function Swapped(hold: nat): nat {
    Low(hold, 8) * 0x1000000 + Low(Shr(hold, 8), 8) * 0x10000 + Low(Shr(hold, 16), 8) * 0x100 + Low(Shr(hold, 24), 8)
  }

  function CheckMode(a: State, hold: nat): Mode { if Swapped(hold) != A32.Adler(a.out) then BAD else DONE }

  lemma CheckFacts(a: State, b: Buffer, t: seq<bool>)
    requires a.mode == CHECK && Buffered(b.hold, b.bits, t, a.p)
    ensures !a.wrap ==> StepIn(a, t) == Some(a.(mode := DONE))
    ensures a.wrap && b.bits < 32 ==> StepIn(a, t).None?
    ensures a.wrap && b.bits >= 32 ==>
      StepIn(a, t) == Some(if CheckMode(a, b.hold) == BAD then Bad(a, 0) else a.(mode := DONE, p := a.p + 32))
    ensures !NeedsOut(a)
  {
    hide Val, Low, Shr, FromBits, Grows, A32.Adler;
    if a.wrap && b.bits >= 32 {
      Peek(b.hold, b.bits, t, a.p, 0, 8);
      Peek(b.hold, b.bits, t, a.p, 8, 8);
      Peek(b.hold, b.bits, t, a.p, 16, 8);
      Peek(b.hold, b.bits, t, a.p, 24, 8);
    }
  }

  /** UPDATE(check, put - out, out) */
  method UpdateCheck(check0: A32.uint32, out: array<byte>, from: nat, to: nat, ghost x: seq<byte>)
    returns (check: A32.uint32)
    requires from <= to <= out.Length && check0 as nat == A32.Adler(x)
    ensures check as nat == A32.Adler(x + out[from..to])
  {
    hide A32.Update, A32.Pack, A32.Unpack;
    check := A32.Adler32(check0, A32.Bytes(out[from..to]));
    A32.Continued(x, out[from..to]);
  }

  lemma CheckSound(a: State, bits: nat, t: seq<bool>)
    requires Sound(a) && a.mode == CHECK && a.p + bits == |t| && |t| % 8 == 0
    ensures bits % 8 == 0
  {
  }

  lemma CheckLazy(b: Buffer, a: State, t: seq<bool>)
    requires Lazy(b.bits, a, t) && a.mode == CHECK && Buffered(b.hold, b.bits, t, a.p) && b.bits % 8 == 0
    requires b.bits <= 32
    ensures (a.wrap ==> b.bits < 32) && (!a.wrap ==> b.bits == 0)
  {
    CheckFacts(a, b, t);
    hide StepIn;
  }

  lemma CheckMoves(wrap: bool, t0: seq<bool>, input: seq<byte>, r: Regs, a: State)
    requires Got(wrap, t0, input, r, a) && r.mode == CHECK && wrap && r.b.bits == 32
    ensures var bad := CheckMode(a, r.b.hold) == BAD;
      Idle(wrap, t0, input, if bad then r.(mode := BAD) else r.(mode := DONE, b := Init(r.b)),
        if bad then Bad(a, 0) else a.(mode := DONE, p := a.p + 32))
  {
    hide Idle, Got, Held, Buffered, Sound, StepIn, Stream, Grows, Lazy, CheckMode;
    GotFacts(wrap, t0, input, r, a);
    CheckFacts(a, r.b, Stream(t0, input, r.b.next));
    Cleared(t0, input, r.b, a.p);
    if CheckMode(a, r.b.hold) == BAD {
      MovedPlain(wrap, t0, input, r, a, r.(mode := BAD), Bad(a, 0));
    } else {
      MovedPlain(wrap, t0, input, r, a, r.(mode := DONE, b := Init(r.b)), a.(mode := DONE, p := a.p + 32));
    }
  }

  method CheckCase(wrap: bool, input: seq<byte>, r0: Regs, out: array<byte>, put: nat, check0: A32.uint32,
                   ghost t0: seq<bool>, ghost a0: State, ghost hist: seq<byte>)
    returns (leave: bool, r: Regs, start: nat, check: A32.uint32, ghost a: State)
    requires Idle(wrap, t0, input, r0, a0) && r0.mode == CHECK && Produced(out[..], put, a0, hist)
    requires wrap ==> check0 as nat == A32.Adler(hist)
    ensures Idle(wrap, t0, input, r, a) && r0.b.next <= r.b.next && a.out == a0.out
    ensures leave ==> Starved(t0, input, r0, r, a0, a) && start == 0 && check == check0
    ensures !leave ==> a.mode == r.mode && (a.mode == DONE || a.mode == BAD) && a.p >= a0.p
    ensures !leave ==>
      start == (if wrap then put else 0) && (wrap ==> check as nat == A32.Adler(a.out)) && (!wrap ==> check == check0)
  {
    hide Idle, Got, Held, Buffered, Sound, StepIn, Stream, Grows, Lazy, A32.Adler, CheckMode, Swapped;
    IdleGot(wrap, t0, input, r0, a0);
    GotFacts(wrap, t0, input, r0, a0);
    CheckFacts(a0, r0.b, Stream(t0, input, r0.b.next));
    CheckSound(a0, r0.b.bits, Stream(t0, input, r0.b.next));
    CheckLazy(r0.b, a0, Stream(t0, input, r0.b.next));
    leave, start, check, r, a := false, 0, check0, r0, a0;
    if !wrap {
      MovedPlain(wrap, t0, input, r0, a0, r0.(mode := DONE), a0.(mode := DONE));
      r, a := r0.(mode := DONE), a0.(mode := DONE);
      return;
    }
    var ok, b := NeedBits(input, r0.b, 32, t0, a0.p);
    r := r0.(b := b);
    GotMore(wrap, t0, input, r0, a0, b);
    GotFacts(wrap, t0, input, r, a0);
    CheckFacts(a0, b, Stream(t0, input, b.next));
    if !ok {
      Waiting(wrap, t0, input, r, a0);
      leave := true;
      return;
    }
    CheckMoves(wrap, t0, input, r, a0);
    check := UpdateCheck(check, out, 0, put, hist);
    start := put;
    CheckIs(a0, b.hold, check as nat);
    if Swapped(b.hold) != check as nat {
      r, a := r.(mode := BAD), Bad(a0, 0);
    } else {
      r, a := r.(mode := DONE, b := Init(b)), a0.(mode := DONE, p := a0.p + 32);
    }
  }

  lemma CheckIs(a: State, hold: nat, check: nat)
    requires check == A32.Adler(a.out)
    ensures CheckMode(a, hold) == BAD <==> Swapped(hold) != check
  {
    hide A32.Adler, Swapped;
  }
}
