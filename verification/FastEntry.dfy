/** The entry of inflate_fast (deps/libz/inffast.c), which says that it expects
    bits < 8.  That is not so when the call before ended inside a symbol. */
module FastEntry {
  import opened Bits
  import opened Canonical
  import opened DecodeTable
  import opened FixedCodes
  import opened CodeLengths
  import opened BlockReader
  import opened Machine
  import opened MachineLaws
  import opened BitBuffer
  import opened Inflate
  import opened InflateRuns

  function Ones(n: nat): (r: seq<bool>)
    ensures |r| == n
  {
    seq(n, i => true)
  }

  /** The last code of nine bits is all ones. */
  lemma LastCode()
    ensures Codeword(FixedLens(), 255) == Ones(9)
  {
    hide CountIn, Pow2;
    CountFixed(9, 255);
    FixedCounts();
    FirstZeros(FixedLens(), 7);
    hide FixedLens;
    assert FirstCode(FixedLens(), 8) == 48;
    assert FirstCode(FixedLens(), 9) == 400;
    assert FixedLens()[255] == 9 && Code(FixedLens(), 255) == 511;
    MsbOnes();
  }

  lemma MsbOnes()
    ensures Msb(511, 9) == Ones(9)
  {
  }

  /** Eight ones are no whole symbol of the fixed code. */
  lemma EightOnes()
    ensures Decode(LENS, FixedLens(), Ones(8)).None?
  {
    hide FixedLens, Codeword, Left, EntryOp, EntryVal, Fits;
    var lens := FixedLens();
    SymbolIs(lens, Ones(8));
    var r := SymbolAt(lens, Ones(8), |lens|);
    FixedComplete();
    if r.Some? {
      LastCode();
      Last9();
      assert Ones(8) <= Ones(9);
      PrefixFree(lens, r.value, 255, Ones(9));
    }
  }

  lemma Last9()
    ensures FixedLens()[255] == 9
  {
  }

  lemma BetweenPlace(s: State, s': State, p: nat, out: seq<byte>)
    requires Between(s, s', p, out)
    ensures s'.p == p && s'.out == out
  {
  }

  lemma OnesSplit(m: nat, n: nat)
    ensures Ones(m + n) == Ones(m) + Ones(n)
  {
  }

  /** Every nine ones are a literal 255. */
  lemma {:induction false} ReadOnes(s: State, t: seq<bool>, n: nat) returns (s': State)
    requires InBlock(s, FixedLens(), FixedDistLens()) && At(s.p, t, Ones(9 * n))
    ensures Reaches(s, t, s') && InBlock(s', FixedLens(), FixedDistLens())
    ensures s'.p == s.p + 9 * n && |s'.out| == |s.out| + n
    decreases n
  {
    hide *;
    s' := s;
    ReachSelf(s, t);
    if n > 0 {
      LastCode();
      Last9();
      OnesSplit(9, 9 * (n - 1));
      AtSplit(s.p, t, Ones(9), Ones(9 * (n - 1)));
      var s1 := ReadLiteral(s, t, FixedLens(), FixedDistLens(), 255);
      BetweenPlace(s, s1, s.p + 9, s.out + [255]);
      assert 9 * n == 9 + 9 * (n - 1);
      s' := ReadOnes(s1, t, n - 1);
      ReachThen(s, t, s1, s');
    }
  }

  /** The bytes FB FF FF FF FF FF FF: a fixed block that is cut inside its sixth symbol. */
  function CutBlock(): (t: seq<bool>)
    ensures |t| == 56
  {
    [true, true, false] + Ones(53)
  }

  lemma BlockBegins() returns (s: State)
    ensures Reaches(Start(false), CutBlock(), s) && InBlock(s, FixedLens(), FixedDistLens()) && s.p == 3 && s.out == []
  {
    hide FixedLens, FixedDistLens, Reaches, Grows, Fits;
    var t := CutBlock();
    var s0 := Start(false).(mode := TYPE);
    FixedComplete();
    FixedDistComplete();
    assert StepIn(Start(false), t) == Some(s0);
    s := s0.(last := true, p := 3, mode := LEN, lcode := FixedLens(), dcode := FixedDistLens());
    assert t[0] && t[1] && !t[2];
    assert StepIn(s0, t) == Some(s);
    ReachOne(Start(false), t, s0);
    ReachStep(Start(false), t, s0, s);
  }

  /** The machine comes to the sixth symbol, which lacks a bit. */
  lemma CutEnd() returns (s: State)
    ensures Follows(false, CutBlock(), s) && s.mode == LEN && StepIn(s, CutBlock()).None? && s.p == 48 && |s.out| == 5
  {
    hide *;
    var t := CutBlock();
    var s0 := BlockBegins();
    CutParts();
    s := ReadOnes(s0, t, 5);
    ReachThen(Start(false), t, s0, s);
    ReachSound(false, t, s);
    InLen(s, t);
    EightOnes();
    NoSymbol(s, t);
  }

  lemma CutParts()
    ensures At(3, CutBlock(), Ones(9 * 5)) && CutBlock()[48..] == Ones(8)
  {
  }

  lemma InLen(s: State, t: seq<bool>)
    requires InBlock(s, FixedLens(), FixedDistLens())
    ensures s.mode == LEN && s.lcode == FixedLens()
  {
    hide FixedLens, FixedDistLens, Fits;
  }

  lemma NoSymbol(s: State, t: seq<bool>)
    requires s.mode == LEN && s.p <= |t| && Decode(LENS, s.lcode, t[s.p..]).None?
    ensures StepIn(s, t).None?
  {
    hide Decode, Grows;
  }

  lemma ReachSound(wrap: bool, t: seq<bool>, s: State)
    requires Reaches(Start(wrap), t, s)
    ensures Follows(wrap, t, s)
  {
    hide Sound, StepIn;
    StartSound(wrap);
    var n: nat :| Steps(Start(wrap), t, n) == Some(s);
    RunMore(Start(wrap), t, [], n);
    RunWrap(Start(wrap), t, n);
  }

  lemma {:induction false} RunWrap(s: State, t: seq<bool>, n: nat)
    requires Steps(s, t, n).Some?
    ensures Steps(s, t, n).value.wrap == s.wrap
    decreases n
  {
    hide StepIn;
    if n > 0 {
      StepInWrap(s, t);
      RunWrap(StepIn(s, t).value, t, n - 1);
    }
  }

  // ---- Two calls ----

  /** FB FF FF FF FF FF FF */
  function CutData(): (d: seq<byte>)
    ensures |d| == 7
  {
    [0xFB, 0xFF, 0xFF, 0xFF, 0xFF, 0xFF, 0xFF]
  }

  lemma OneByte(x: byte)
    ensures BytesToBits([x]) == ToBits(x, 8)
  {
    hide ToBits;
    assert BytesToBits([]) == [];
    BytesPush([], x);
    assert [] + [x] == [x];
  }

  lemma {:induction false} OnesBytes(n: nat)
    ensures BytesToBits(seq(n, i => 0xFF)) == Ones(8 * n)
  {
    if n > 0 {
      OnesBytes(n - 1);
      AllOnes();
      OneByte(0xFF);
      hide BytesToBits, ToBits;
      var x, y: seq<byte> := seq(n - 1, i => 0xFF), [0xFF];
      assert seq(n, i => 0xFF) == x + y;
      BytesConcat(x, y);
      OnesSplit(8 * (n - 1), 8);
    }
  }

  lemma AllOnes()
    ensures ToBits(0xFF, 8) == Ones(8) && ToBits(0xFB, 8) == [true, true, false] + Ones(5)
  {
    hide *;
    LowOnes(8);
    LowOnes(5);
    Pow2Values();
    NextBit(0xFB, 8);
    NextBit(125, 7);
    NextBit(62, 6);
    assert [true] + ([true] + ([false] + ToBits(31, 5))) == [true, true, false] + ToBits(31, 5);
  }

  lemma NextBit(v: nat, n: nat)
    requires n > 0
    ensures ToBits(v, n) == [v % 2 == 1] + ToBits(v / 2, n - 1)
  {
  }

  /** The bits of a number of n ones. */
  lemma {:induction false} LowOnes(n: nat)
    ensures ToBits(Pow2(n) - 1, n) == Ones(n)
  {
    if n > 0 {
      LowOnes(n - 1);
      assert Ones(n) == [true] + Ones(n - 1);
    }
  }

  lemma CutBits()
    ensures BytesToBits(CutData()) == CutBlock()
  {
    OneByte(0xFB);
    AllOnes();
    OnesBytes(6);
    OnesSplit(5, 48);
    hide BytesToBits, ToBits;
    var x: seq<byte>, y: seq<byte> := [0xFB], seq(6, i => 0xFF);
    assert CutData() == x + y;
    BytesConcat(x, y);
  }

  /** Wherever a call stops in this data with room for more than five bytes, it is there. */
  lemma StopsThere(pos: nat, a: State, full: bool) returns (e: State)
    requires Ran(false, CutData(), pos, a) && pos <= 7 && Stuck(BytesToBits(CutData()[..pos]), full, pos == 7, a)
    requires full ==> |a.out| == 10
    ensures pos == 7 && a == e && e.mode == LEN && e.p == 48
  {
    hide *;
    e := CutEnd();
    CutBits();
    var t := BytesToBits(CutData());
    RanWhole(false, CutData(), pos, a);
    EndOutput(false, t, e, a);
    StuckEnds(CutData(), pos, full, a);
    if Ended(CutData(), pos, a) {
      EndedStays(false, CutData(), pos, a);
      OneEnd(false, t, a, e);
      EndedInLen(CutData(), pos, a);
    }
  }

  lemma EndedInLen(data: seq<byte>, pos: nat, a: State)
    requires Ended(data, pos, a) && a.mode == LEN
    ensures pos == |data|
  {
    hide StepIn, BytesToBits;
  }

  /** A call that leaves a whole byte in the bit buffer in the mode LEN. */
  method HoldByte() returns (s: Inflater)
    ensures s.Ready() && s.r.mode == LEN && s.r.b.bits == 8 && s.t == BytesToBits(CutData()) && fresh(s)
    ensures fresh(s.lens) && fresh(s.work) && fresh(s.codes) && fresh(s.fixed) && fresh(s.win) && fresh(s.win.window)
  {
    hide *;
    s := InflateInit(false);
    var out := new byte[10];
    var ret, used, put;
    ghost var fast;
    StartBits(false);
    ret, used, put, fast := s.Inflate(CutData(), out);
    CutBits();
    ReadyRan(s, CutData(), used);
    ghost var e := StopsThere(used, s.a, put == 10);
    assert CutData()[..7] == CutData();
    HeldCount(s);
  }

  lemma StartBits(wrap: bool)
    ensures Start(wrap).out == [] && forall x: seq<bool> :: [] + x == x
  {
  }

  lemma HeldCount(s: Inflater)
    requires s.Ready()
    ensures s.r.mode == s.a.mode && s.a.p + s.r.b.bits == |s.t|
  {
    hide *;
    ReadyIdle(s);
    StreamNone(s.t, []);
    IdleGot(s.wrap, s.t, [], s.r, s.a);
    GotFacts(s.wrap, s.t, [], s.r, s.a);
  }

  /** So the next call on that stream, with six bytes and room for 258, enters inflate_fast with
      bits == 8. */
  method EnterWithByte(s: Inflater, input: seq<byte>, out: array<byte>)
    returns (ret: Return, used: nat, put: nat, ghost fast: seq<nat>)
    requires s.Ready() && s.r.mode == LEN && s.r.b.bits == 8 && out != s.win.window
    requires |input| >= 6 && out.Length >= 258
    modifies s, s.lens, s.work, s.codes, out, s.win, s.win.window
    ensures s.Ready() && used <= |input| && s.t == old(s.t) + BytesToBits(input[..used])
    ensures put <= out.Length && s.a.out == old(s.a.out) + out[..put]
    ensures fast != [] && fast[0] == 8 && HoldsByte(fast)
  {
    hide *;
    ReadyIdle(s);
    HeldEnters(s.r, |input|, out.Length);
    ret, used, put, fast := s.Inflate(input, out);
    EntersFirst(fast, 8);
  }

  lemma EntersFirst(fast: seq<nat>, bits: nat)
    requires ByteOnlyFirst(fast, true, bits)
    ensures fast != [] && fast[0] == bits
  {
  }

  lemma HeldEnters(r: Regs, n: nat, room: nat)
    requires r.mode == LEN && n - r.b.next >= 6 && room >= 258
    ensures EntersFast(r, n, 0, room)
  {
  }
}
