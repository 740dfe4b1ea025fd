/** Compression and decompression together: whatever deflate has sent, written as a
    raw or a zlib stream, is decoded to the input, however inflate is called. */
module RoundTrip {
  import opened Bits
  import opened CodeLengths
  import opened BitWriter
  import opened Tokens
  import opened BlockReader
  import opened BlockFormat
  import opened HeaderReader
  import opened Machine
  import opened BitBuffer
  import opened FastEntry
  import opened Emission
  import opened Tally
  import opened PieceWriter
  import opened InflateRuns
  import opened LzState
  import opened DeflateCalls
  import opened Encoder
  import A32 = Adler32

  // ---- Blocks ----

  lemma PieceBitsPlain(tb: Tables, b: Block, p: nat)
    requires BlockOk(tb, b)
    ensures PieceBits(tb, b, false, p) == BlockBits(tb, b, false, p)
  {
    hide BlockOk, BlockBits;
  }

  lemma PieceBitsLast(tb: Tables, b: Block, p: nat)
    requires BlockOk(tb, b)
    ensures var x := BlockBits(tb, b, true, p);
      PieceBits(tb, b, true, p) == x + Zeros(Padding(p + |x|))
  {
    hide BlockOk, BlockBits;
  }

  lemma AllBitsLast(tb: Tables, ps: seq<Piece>, bs: seq<Block>, p: nat)
    requires BlocksFor(tb, ps, bs) && ps != []
    ensures |ps| == |bs|
    ensures var n := |ps| - 1;
      && BlocksFor(tb, ps[..n], bs[..n]) && BlockOk(tb, bs[n]) && BlockFor(ps[n], bs[n])
      && var x := AllBits(tb, ps[..n], bs[..n], p);
         AllBits(tb, ps, bs, p) == x + PieceBits(tb, bs[n], IsLast(ps[n]), p + |x|)
  {
    hide BlockOk, BlockFor, PieceBits, BlocksFor, IsLast;
    BlocksLast(tb, ps, bs);
  }

  lemma BlocksLast(tb: Tables, ps: seq<Piece>, bs: seq<Block>)
    requires BlocksFor(tb, ps, bs) && ps != []
    ensures |ps| == |bs|
    ensures var n := |ps| - 1; BlocksFor(tb, ps[..n], bs[..n]) && BlockOk(tb, bs[n]) && BlockFor(ps[n], bs[n])
  {
    hide BlockOk, BlockFor;
  }

  lemma PiecesLast(ps: seq<Piece>, out: seq<byte>)
    requires Pieces([], ps, out) && ps != []
    ensures var p := ps[|ps| - 1];
      && LenOf(p) <= |out| && PieceOk(out[..|out| - LenOf(p)], p, out)
      && Pieces([], ps[..|ps| - 1], out[..|out| - LenOf(p)])
  {
    hide PieceOk;
  }

  lemma UnfinishedFront(ps: seq<Piece>)
    requires Unfinished(ps) && ps != []
    ensures Unfinished(ps[..|ps| - 1]) && !IsLast(ps[|ps| - 1])
  {
  }

  /** The machine decodes the blocks, one after another, to what the pieces stand for. */
  lemma {:induction false} ReadPieces(s: State, t: seq<bool>, tb: Tables, ps: seq<Piece>, bs: seq<Block>,
                                      out: seq<byte>)
    returns (s': State)
    requires s.mode == TYPE && !s.last && s.out == [] && BlocksFor(tb, ps, bs) && Pieces([], ps, out) && Unfinished(ps)
    requires At(s.p, t, AllBits(tb, ps, bs, s.p))
    ensures Reaches(s, t, s') && s'.mode == TYPE && !s'.last && s'.wrap == s.wrap && s'.out == out
    ensures s'.p == s.p + |AllBits(tb, ps, bs, s.p)|
    decreases |ps|
  {
    hide *;
    if ps == [] {
      s' := s;
      ReachSelf(s, t);
      NothingSent(tb, bs, out, s.p);
    } else {
      var n := |ps| - 1;
      AllBitsLast(tb, ps, bs, s.p);
      PiecesLast(ps, out);
      UnfinishedFront(ps);
      var mid := out[..|out| - LenOf(ps[n])];
      var x := AllBits(tb, ps[..n], bs[..n], s.p);
      PieceBitsPlain(tb, bs[n], s.p + |x|);
      AtSplit(s.p, t, x, PieceBits(tb, bs[n], false, s.p + |x|));
      var s1 := ReadPieces(s, t, tb, ps[..n], bs[..n], mid);
      BlockMeans(mid, ps[n], out, bs[n]);
      s' := ReadBlock(s1, t, tb, bs[n], false);
      ReachThen(s, t, s1, s');
    }
  }

  lemma NothingSent(tb: Tables, bs: seq<Block>, out: seq<byte>, p: nat)
    requires BlocksFor(tb, [], bs) && Pieces([], [], out)
    ensures AllBits(tb, [], bs, p) == [] && out == []
  {
  }

  /** After the last block the machine checks the output, at a byte boundary. */
  lemma ReadComplete(s: State, t: seq<bool>, tb: Tables, ps: seq<Piece>, bs: seq<Block>, out: seq<byte>)
    returns (s': State)
    requires s.mode == TYPE && !s.last && s.out == [] && BlocksFor(tb, ps, bs) && Pieces([], ps, out) && Closed(ps)
    requires At(s.p, t, AllBits(tb, ps, bs, s.p))
    ensures Reaches(s, t, s') && s'.mode == CHECK && s'.wrap == s.wrap && s'.out == out
    ensures s'.p == s.p + |AllBits(tb, ps, bs, s.p)| && s'.p % 8 == 0
  {
    hide *;
    CompleteFront(ps);
    var n := |ps| - 1;
    AllBitsLast(tb, ps, bs, s.p);
    PiecesLast(ps, out);
    var mid := out[..|out| - LenOf(ps[n])];
    var x := AllBits(tb, ps[..n], bs[..n], s.p);
    var p := s.p + |x|;
    PieceBitsLast(tb, bs[n], p);
    var y := BlockBits(tb, bs[n], true, p);
    AtSplit(s.p, t, x, PieceBits(tb, bs[n], true, p));
    AtSplit(p, t, y, Zeros(Padding(p + |y|)));
    var s1 := ReadPieces(s, t, tb, ps[..n], bs[..n], mid);
    BlockMeans(mid, ps[n], out, bs[n]);
    var s2 := ReadBlock(s1, t, tb, bs[n], true);
    ReachThen(s, t, s1, s2);
    s' := ReadPadding(s2, t);
    ReachStep(s, t, s2, s');
    ZerosSize(Padding(p + |y|));
  }

  lemma CompleteFront(ps: seq<Piece>)
    requires Closed(ps)
    ensures ps != [] && IsLast(ps[|ps| - 1]) && Unfinished(ps[..|ps| - 1])
  {
  }

  lemma ReadPadding(s: State, t: seq<bool>) returns (s': State)
    requires s.mode == TYPE && s.last && At(s.p, t, Zeros(Padding(s.p)))
    ensures StepIn(s, t) == Some(s') && s' == s.(mode := CHECK, p := s.p + Padding(s.p)) && s'.p % 8 == 0
  {
    hide *;
    s' := s.(mode := CHECK, p := s.p + Padding(s.p));
    AtEnd(s.p, t, Zeros(Padding(s.p)));
    ZerosSize(Padding(s.p));
    Aligned(s.p);
    TypeEnds(s, t);
  }

  lemma TypeEnds(s: State, t: seq<bool>)
    requires s.mode == TYPE && s.last && s.p + Padding(s.p) <= |t|
    ensures StepIn(s, t) == Some(s.(mode := CHECK, p := s.p + Padding(s.p)))
  {
    hide Padding, Grows;
  }

  lemma Aligned(p: nat)
    ensures (p + Padding(p)) % 8 == 0
  {
  }

  // ---- Restart after a full flush ----

  lemma BlocksSplit(tb: Tables, ps: seq<Piece>, qs: seq<Piece>, bs: seq<Block>)
    requires BlocksFor(tb, ps + qs, bs)
    ensures |bs| == |ps| + |qs| && bs == bs[..|ps|] + bs[|ps|..]
    ensures BlocksFor(tb, ps, bs[..|ps|]) && BlocksFor(tb, qs, bs[|ps|..])
  {
    hide BlockOk, BlockFor;
    forall i | 0 <= i < |ps| ensures BlockOk(tb, bs[i]) && BlockFor(ps[i], bs[i]) { assert (ps + qs)[i] == ps[i]; }
    forall i | 0 <= i < |qs| ensures BlockOk(tb, bs[|ps|..][i]) && BlockFor(qs[i], bs[|ps|..][i]) {
      assert (ps + qs)[|ps| + i] == qs[i];
    }
  }

  lemma {:induction false} AllBitsConcat(tb: Tables, ps: seq<Piece>, qs: seq<Piece>, bs: seq<Block>, cs: seq<Block>,
                                         p: nat)
    requires BlocksFor(tb, ps, bs) && BlocksFor(tb, qs, cs)
    ensures BlocksFor(tb, ps + qs, bs + cs)
    ensures var x := AllBits(tb, ps, bs, p);
      AllBits(tb, ps + qs, bs + cs, p) == x + AllBits(tb, qs, cs, p + |x|)
    decreases |qs|
  {
    hide *;
    SameCount(tb, ps, bs);
    SameCount(tb, qs, cs);
    var x := AllBits(tb, ps, bs, p);
    if qs == [] {
      assert ps + qs == ps && bs + cs == bs;
      NothingBits(tb, cs, p + |x|);
    } else {
      var n := |qs| - 1;
      AllBitsLast(tb, qs, cs, p + |x|);
      AllBitsConcat(tb, ps, qs[..n], bs, cs[..n], p);
      assert ps + qs == ps + qs[..n] + [qs[n]] && bs + cs == bs + cs[..n] + [cs[n]];
      AllBitsPush(tb, ps + qs[..n], bs + cs[..n], p, qs[n], cs[n]);
    }
  }

  lemma SameCount(tb: Tables, ps: seq<Piece>, bs: seq<Block>)
    requires BlocksFor(tb, ps, bs)
    ensures |ps| == |bs|
  {
  }

  lemma NothingBits(tb: Tables, bs: seq<Block>, p: nat)
    requires BlocksFor(tb, [], bs)
    ensures AllBits(tb, [], bs, p) == []
  {
  }

  lemma {:induction false} AllBitsShift(tb: Tables, ps: seq<Piece>, bs: seq<Block>, n: nat)
    requires BlocksFor(tb, ps, bs)
    ensures AllBits(tb, ps, bs, 8 * n) == AllBits(tb, ps, bs, 0)
    decreases |ps|
  {
    hide *;
    if ps == [] {
      NothingBits(tb, bs, 8 * n);
      NothingBits(tb, bs, 0);
    } else {
      var k := |ps| - 1;
      AllBitsLast(tb, ps, bs, 8 * n);
      AllBitsLast(tb, ps, bs, 0);
      AllBitsShift(tb, ps[..k], bs[..k], n);
      BitsShift(tb, bs[k], IsLast(ps[k]), |AllBits(tb, ps[..k], bs[..k], 0)|, n);
    }
  }

  /** The marker of a full flush ends at a byte boundary. */
  lemma MarkerAligned(tb: Tables, ps: seq<Piece>, bs: seq<Block>, p: nat)
    requires BlocksFor(tb, ps, bs) && p % 8 == 0 && (ps == [] || ps[|ps| - 1] == Marker)
    ensures (p + |AllBits(tb, ps, bs, p)|) % 8 == 0
  {
    hide *;
    if ps == [] {
      NothingBits(tb, bs, p);
    } else {
      var n := |ps| - 1;
      AllBitsLast(tb, ps, bs, p);
      EmptyStored(tb, bs[n], p + |AllBits(tb, ps[..n], bs[..n], p)|);
      MarkerLast();
    }
  }

  lemma MarkerLast()
    ensures !IsLast(Marker)
  {
  }

  lemma EmptyStored(tb: Tables, b: Block, p: nat)
    requires BlockOk(tb, b) && BlockFor(Marker, b)
    ensures (p + |PieceBits(tb, b, false, p)|) % 8 == 0
  {
    hide ToBits, Zeros, TablesOk, Padding;
    Aligned(p + 3);
  }

  /** Where the bits of since begin, a decoder without history decodes them to what
      since stands for; whatever t goes on with. */
  lemma RestartReads(tb: Tables, before: seq<Piece>, since: seq<Piece>, bs: seq<Block>, out: seq<byte>, h: nat,
                     t: seq<bool>)
    returns (k: nat, s: State)
    requires BlocksFor(tb, before + since, bs) && (before == [] || before[|before| - 1] == Marker)
    requires Pieces([], since, out)
    requires Unfinished(since) || Closed(since)
    requires At(8 * h, t, AllBits(tb, before + since, bs, 8 * h))
    ensures h <= k && 8 * k <= |t| && BlocksFor(tb, before, bs[..|before|])
    ensures 8 * k == 8 * h + |AllBits(tb, before, bs[..|before|], 8 * h)|
    ensures Follows(false, t[8 * k..], s) && s.out == out && s.mode == if Closed(since) then DONE else TYPE
    ensures 8 * k + s.p == 8 * h + |AllBits(tb, before + since, bs, 8 * h)|
  {
    hide *;
    BlocksSplit(tb, before, since, bs);
    var n := |before|;
    AllBitsConcat(tb, before, since, bs[..n], bs[n..], 8 * h);
    MarkerAligned(tb, before, bs[..n], 8 * h);
    var x := AllBits(tb, before, bs[..n], 8 * h);
    k := (8 * h + |x|) / 8;
    var y := AllBits(tb, since, bs[n..], 8 * k);
    AllBitsShift(tb, since, bs[n..], k);
    AtSplit(8 * h, t, x, y);
    AtStart(t, 8 * k, y);
    var s0 := RawStart(t[8 * k..]);
    if Closed(since) {
      var s1 := ReadComplete(s0, t[8 * k..], tb, since, bs[n..], out);
      s := RawEnd(s1, t[8 * k..], y);
      ReachThen(Start(false), t[8 * k..], s0, s1);
      ReachStep(Start(false), t[8 * k..], s1, s);
    } else {
      s := ReadPieces(s0, t[8 * k..], tb, since, bs[n..], out);
      ReachThen(Start(false), t[8 * k..], s0, s);
    }
    ReachSound(false, t[8 * k..], s);
  }

  lemma AtStart(t: seq<bool>, p: nat, y: seq<bool>)
    requires At(p, t, y)
    ensures p + |y| <= |t| && At(0, t[p..], y)
  {
    assert t[p..][0..0 + |y|] == t[p..p + |y|];
  }

  lemma RawStart(t: seq<bool>) returns (s: State)
    ensures Reaches(Start(false), t, s) && s == Start(false).(mode := TYPE) && s.mode == TYPE && !s.last && s.out == []
    ensures s.p == 0 && !s.wrap
  {
    hide Reaches, Grows;
    s := Start(false).(mode := TYPE);
    ReachOne(Start(false), t, s);
  }

  lemma RawEnd(s: State, t: seq<bool>, y: seq<bool>) returns (s': State)
    requires s.mode == CHECK && !s.wrap && s.p == |y| && At(0, t, y)
    ensures StepIn(s, t) == Some(s') && s'.mode == DONE && s'.out == s.out && s'.p == s.p
  {
    hide Grows;
    s' := s.(mode := DONE);
  }

  // ---- Header and trailer ----

  /** putShortMSB */
  function ShortMsb(x: nat): (r: seq<byte>)
    requires x < 65536
  {
    [x / 256, x % 256]
  }

  /** The zlib header of deflate: method 8, a multiple of 31, no dictionary. */
  function ZlibHeader(wBits: nat, levelFlags: nat): nat
    requires 8 <= wBits <= 15 && levelFlags <= 3
  {
    var header := (8 + (wBits - 8) * 16) * 256 + levelFlags * 64;
    header + (31 - header % 31)
  }

  lemma HeaderOk(wBits: nat, levelFlags: nat)
    requires 8 <= wBits <= 15 && levelFlags <= 3
    ensures var h := ZlibHeader(wBits, levelFlags);
      h < 65536 && h % 31 == 0 && h / 256 % 16 == 8 && h / 256 / 16 + 8 == wBits && h % 256 / 32 % 2 == 0
  {
  }

  /** The machine accepts such a header. */
  lemma ReadHeader(t: seq<bool>, h: nat)
    requires h < 65536 && h % 31 == 0 && h / 256 % 16 == 8 && h / 256 / 16 + 8 <= 15 && h % 256 / 32 % 2 == 0
    requires At(0, t, BytesToBits(ShortMsb(h)))
    ensures StepIn(Start(true), t) == Some(Start(true).(mode := TYPE, p := 16))
  {
    hide *;
    var cmf: byte, flg: byte := h / 256, h % 256;
    ShortIs(h);
    HeaderBytes(t, cmf, flg);
    ByteHalves(cmf);
    ByteBit(flg);
    HeadRun(t, cmf, flg);
  }

  lemma ShortIs(x: nat)
    requires x < 65536
    ensures ShortMsb(x) == [x / 256, x % 256]
  {
  }

  lemma HeadRun(t: seq<bool>, cmf: byte, flg: byte)
    requires |t| >= 16 && Val(t, 0, 8) == cmf && Val(t, 8, 8) == flg && Val(t, 0, 4) == 8 && Val(t, 4, 4) + 8 <= 15
    requires !t[13]
    requires (cmf * 256 + flg) % 31 == 0
    ensures StepIn(Start(true), t) == Some(Start(true).(mode := TYPE, p := 16))
  {
    hide *;
    AtHead(t);
    HeadTaken(Start(true), t, cmf, flg);
  }

  lemma AtHead(t: seq<bool>)
    ensures StepIn(Start(true), t) == HeadStep(Start(true), t) && Start(true).wrap && Start(true).p == 0
  {
    hide Val, Grows, HeadStep;
    assert t[0..] == t;
  }

  lemma HeadTaken(s: State, b: seq<bool>, cmf: byte, flg: byte)
    requires s.wrap && |b| >= 16 && Val(b, 0, 8) == cmf && Val(b, 8, 8) == flg && Val(b, 0, 4) == 8
    requires Val(b, 4, 4) + 8 <= 15 && !b[13] && (cmf * 256 + flg) % 31 == 0
    ensures HeadStep(s, b) == Some(s.(mode := TYPE, p := s.p + 16))
  {
    hide Val, Grows;
  }

  lemma HeaderBytes(t: seq<bool>, cmf: byte, flg: byte)
    requires At(0, t, BytesToBits([cmf, flg]))
    ensures |t| >= 16 && t[..8] == ToBits(cmf, 8) && t[8..16] == ToBits(flg, 8)
    ensures Val(t, 0, 8) == cmf && Val(t, 8, 8) == flg && Val(t, 0, 4) == Low(cmf, 4) && Val(t, 4, 4) == Shr(cmf, 4)
    ensures t[13] == (Shr(flg, 5) % 2 == 1)
  {
    TwoByteBits(cmf, flg);
    hide BytesToBits, Low, Shr, ToBits, FromBits;
    assert t[..16] == t[0..16] == ToBits(cmf, 8) + ToBits(flg, 8);
    assert t[..8] == t[..16][..8] && t[8..16] == t[..16][8..];
    ByteValues(cmf);
    ByteValues(flg);
    assert t[0..8] == t[..8] && t[0..4] == t[..8][..4] && t[4..8] == t[..8][4..];
    assert t[13] == t[8..16][5];
  }

  lemma TwoByteBits(a: byte, b: byte)
    ensures BytesToBits([a, b]) == ToBits(a, 8) + ToBits(b, 8)
  {
    hide ToBits;
    assert BytesToBits([]) == [];
    hide BytesToBits;
    BytesPush([], a);
    BytesPush([a], b);
    assert [] + [a] == [a] && [a] + [b] == [a, b];
  }

  /** A byte, its two halves and its sixth bit, from its bits. */
  lemma ByteValues(x: byte)
    ensures |ToBits(x, 8)| == 8 && FromBits(ToBits(x, 8)) == x
    ensures FromBits(ToBits(x, 8)[..4]) == Low(x, 4) && FromBits(ToBits(x, 8)[4..]) == Shr(x, 4)
    ensures ToBits(x, 8)[5] == (Shr(x, 5) % 2 == 1)
  {
    Pow2Values();
    hide Pow2, Low, Shr;
    FromToBits(x, 8);
    LowSmall(x, 8);
    var b := ToBits(x, 8);
    FromBitsSplit(b, 4);
    FromBitsSplit(b, 5);
    assert b[5..][0] == b[5];
    FirstOdd(b[5..]);
  }

  lemma FirstOdd(b: seq<bool>)
    requires b != []
    ensures FromBits(b) % 2 == 1 <==> b[0]
  {
  }

  lemma ShlValues(q: nat)
    ensures Shl(q, 4) == 16 * q && Shl(q, 5) == 32 * q && Pow2(4) == 16 && Pow2(5) == 32
  {
    assert Shl(q, 1) == 2 * Shl(q, 0) == 2 * q;
    assert Shl(q, 2) == 2 * Shl(q, 1) == 4 * q;
    assert Shl(q, 3) == 2 * Shl(q, 2) == 8 * q;
    assert Shl(q, 4) == 2 * Shl(q, 3) == 16 * q;
    assert Shl(q, 5) == 2 * Shl(q, 4) == 32 * q;
    assert Pow2(4) == 16;
    Pow2Values();
  }

  lemma ByteHalves(x: byte)
    ensures Low(x, 4) == x % 16 && Shr(x, 4) == x / 16
  {
    ShlValues(x / 16);
    hide Low, Shr, Shl, Pow2;
    SplitUnique(x / 16, x % 16, 4);
  }

  lemma ByteBit(x: byte)
    ensures Shr(x, 5) % 2 == x / 32 % 2
  {
    ShlValues(x / 32);
    hide Low, Shr, Shl, Pow2;
    SplitUnique(x / 32, x % 32, 5);
  }

  /** The checksum, most significant byte first. */
  function Trailer(adler: nat): (r: seq<byte>)
    requires adler < 0x1_0000_0000
    ensures |r| == 4
  {
    ShortMsb(adler / 65536) + ShortMsb(adler % 65536)
  }

  lemma ByteIn(t: seq<bool>, p: nat, x: seq<byte>, k: nat, i: nat)
    requires At(p, t, BytesToBits(x)) && k < |x| && i == 8 * k
    ensures p <= |t| && i + 8 <= |t[p..]| && Val(t[p..], i, 8) == x[k]
  {
    hide *;
    BytesAt(x, k, i);
    ByteValues(x[k]);
    SliceAt(t, p, BytesToBits(x), i, 8);
    ValIs(t[p..], i, 8);
  }

  lemma SliceAt(t: seq<bool>, p: nat, bits: seq<bool>, i: nat, n: nat)
    requires At(p, t, bits) && i + n <= |bits|
    ensures p + |bits| <= |t| && t[p..][i..i + n] == bits[i..i + n]
  {
    var u := t[p..];
    assert t[p..p + |bits|] == u[..|bits|];
    assert u[..|bits|][i..i + n] == u[i..i + n];
  }

  lemma ValIs(b: seq<bool>, i: nat, n: nat)
    requires i + n <= |b|
    ensures Val(b, i, n) == FromBits(b[i..i + n])
  {
  }

  /** Where a byte stands in the bits. */
  lemma BytesAt(x: seq<byte>, k: nat, i: nat)
    requires k < |x| && i == 8 * k
    ensures i + 8 <= |BytesToBits(x)| && BytesToBits(x)[i..i + 8] == ToBits(x[k], 8)
  {
    hide ToBits;
    var one: seq<byte> := [x[k]];
    assert BytesToBits(one) == ToBits(x[k], 8) by {
      assert one == [] + [x[k]];
      BytesPush([], x[k]);
      assert BytesToBits([]) == [];
    }
    hide BytesToBits;
    assert x == x[..k] + one + x[k + 1..];
    BytesConcat(x[..k] + one, x[k + 1..]);
    BytesConcat(x[..k], one);
  }

  function Value(x: seq<byte>): nat
    requires |x| == 4
  {
    x[0] as nat * 0x1000000 + x[1] as nat * 0x10000 + x[2] as nat * 0x100 + x[3] as nat
  }

  lemma TrailerValue(adler: nat)
    requires adler < 0x1_0000_0000
    ensures Value(Trailer(adler)) == adler
  {
  }

  /** The machine accepts the checksum of its output. */
  lemma ReadTrailer(s: State, t: seq<bool>)
    requires s.mode == CHECK && s.wrap && A32.Adler(s.out) < 0x1_0000_0000
    requires At(s.p, t, BytesToBits(Trailer(A32.Adler(s.out))))
    ensures StepIn(s, t) == Some(s.(mode := DONE, p := s.p + 32))
  {
    hide *;
    var x := Trailer(A32.Adler(s.out));
    ByteIn(t, s.p, x, 0, 0);
    ByteIn(t, s.p, x, 1, 8);
    ByteIn(t, s.p, x, 2, 16);
    ByteIn(t, s.p, x, 3, 24);
    TrailerValue(A32.Adler(s.out));
    CheckRun(s, t, x);
  }

  lemma CheckRun(s: State, t: seq<bool>, x: seq<byte>)
    requires s.mode == CHECK && s.wrap && s.p <= |t| && |t[s.p..]| >= 32 && |x| == 4
    requires Val(t[s.p..], 0, 8) == x[0] && Val(t[s.p..], 8, 8) == x[1] && Val(t[s.p..], 16, 8) == x[2]
    requires Val(t[s.p..], 24, 8) == x[3]
    requires Value(x) == A32.Adler(s.out)
    ensures StepIn(s, t) == Some(s.(mode := DONE, p := s.p + 32))
  {
    hide Val, A32.Adler, Grows, HeadStep, TypeStep, LenStep, DistStep, CodeLensStep, LenLensStep, StoredStep,
      TableStep, CopyStep, LenExtStep, DistExtStep, MatchStep;
    SwapIs(s, t[s.p..], x);
  }

  lemma SwapIs(s: State, b: seq<bool>, x: seq<byte>)
    requires |b| >= 32 && |x| == 4
    requires Val(b, 0, 8) == x[0] && Val(b, 8, 8) == x[1] && Val(b, 16, 8) == x[2] && Val(b, 24, 8) == x[3]
    ensures Swap(b) == Value(x)
  {
    hide Val;
  }

  // ---- Whole streams ----

  /** inflate decodes the stream to data, and uses all of it. */
  ghost predicate StreamOf(wrap: bool, stream: seq<byte>, data: seq<byte>) {
    exists e :: Follows(wrap, BytesToBits(stream), e) && e.mode == DONE && e.out == data && e.p == 8 * |stream|
  }

  lemma StreamIs(wrap: bool, stream: seq<byte>, data: seq<byte>, e: State)
    requires Follows(wrap, BytesToBits(stream), e) && e.mode == DONE && e.out == data && e.p == 8 * |stream|
    ensures StreamOf(wrap, stream, data)
  {
    hide Follows, BytesToBits;
  }

  function Head(wrap: bool, h: nat): seq<byte>
    requires h < 65536
  {
    if wrap then ShortMsb(h) else []
  }

  function Tail(wrap: bool, adler: nat): seq<byte>
    requires adler < 0x1_0000_0000
  {
    if wrap then Trailer(adler) else []
  }

  ghost predicate HeaderFits(h: nat) {
    h < 65536 && h % 31 == 0 && h / 256 % 16 == 8 && h / 256 / 16 + 8 <= 15 && h % 256 / 32 % 2 == 0
  }

  /** The machine past the header. */
  lemma ReadHead(wrap: bool, t: seq<bool>, h: nat) returns (s: State)
    requires HeaderFits(h) && At(0, t, BytesToBits(Head(wrap, h)))
    ensures Reaches(Start(wrap), t, s) && s.mode == TYPE && !s.last && s.out == [] && s.wrap == wrap
    ensures s.p == 8 * |Head(wrap, h)|
  {
    hide Reaches, BytesToBits, Grows;
    if wrap {
      ReadHeader(t, h);
      s := Start(true).(mode := TYPE, p := 16);
    } else {
      s := Start(false).(mode := TYPE);
    }
    ReachOne(Start(wrap), t, s);
  }

  /** The machine past the trailer. */
  lemma ReadTail(s: State, t: seq<bool>) returns (s': State)
    requires s.mode == CHECK && A32.Adler(s.out) < 0x1_0000_0000
    requires At(s.p, t, BytesToBits(Tail(s.wrap, A32.Adler(s.out))))
    ensures Reaches(s, t, s') && s'.mode == DONE && s'.out == s.out && s'.wrap == s.wrap
    ensures s'.p == s.p + 8 * |Tail(s.wrap, A32.Adler(s.out))|
  {
    hide Reaches, BytesToBits, A32.Adler, Trailer, Grows;
    if s.wrap {
      ReadTrailer(s, t);
      s' := s.(mode := DONE, p := s.p + 32);
    } else {
      AtEnd(s.p, t, BytesToBits(Tail(s.wrap, A32.Adler(s.out))));
      s' := s.(mode := DONE);
    }
    ReachOne(s, t, s');
  }

  lemma AdlerBound(x: seq<byte>)
    ensures A32.Adler(x) < 0x1_0000_0000
  {
    A32.UpdateFits(A32.Checks(1, 0), x);
  }

  /** Header, blocks and trailer are decoded to the data that the pieces stand for. */
  lemma StreamReads(wrap: bool, h: nat, tb: Tables, ps: seq<Piece>, bs: seq<Block>, data: seq<byte>, stream: seq<byte>)
    requires h < 65536 && HeaderFits(h) && BlocksFor(tb, ps, bs) && Pieces([], ps, data) && Closed(ps)
    requires A32.Adler(data) < 0x1_0000_0000
    requires BytesToBits(stream)
          == BytesToBits(Head(wrap, h)) + AllBits(tb, ps, bs, 8 * |Head(wrap, h)|)
            + BytesToBits(Tail(wrap, A32.Adler(data)))
    ensures StreamOf(wrap, stream, data)
  {
    hide *;
    var t, x, y, z := BytesToBits(stream), BytesToBits(Head(wrap, h)), AllBits(tb, ps, bs, 8 * |Head(wrap, h)|),
      BytesToBits(Tail(wrap, A32.Adler(data)));
    BitsOf(stream);
    BitsOf(Head(wrap, h));
    BitsOf(Tail(wrap, A32.Adler(data)));
    AtWhole(t, x, y, z);
    var s0 := ReadHead(wrap, t, h);
    var s1 := ReadComplete(s0, t, tb, ps, bs, data);
    var s2 := ReadTail(s1, t);
    ReachThen(Start(wrap), t, s0, s1);
    ReachThen(Start(wrap), t, s1, s2);
    ReachSound(wrap, t, s2);
    StreamIs(wrap, stream, data, s2);
  }

  lemma AtWhole(t: seq<bool>, x: seq<bool>, y: seq<bool>, z: seq<bool>)
    requires t == x + y + z
    ensures At(0, t, x) && At(|x|, t, y) && At(|x| + |y|, t, z)
  {
  }

  /** However inflate is called on such a stream, it gives back the data. */
  lemma GivesBack(wrap: bool, stream: seq<byte>, data: seq<byte>, pos: nat, a: State)
    requires StreamOf(wrap, stream, data) && Ran(wrap, stream, pos, a) && Ended(stream, pos, a)
    ensures a.mode == DONE && a.out == data && pos == |stream|
  {
    var e :| Follows(wrap, BytesToBits(stream), e) && e.mode == DONE && e.out == data && e.p == 8 * |stream|;
    hide Follows, BytesToBits, StepIn, Ran, Ended;
    RanWhole(wrap, stream, pos, a);
    EndedStays(wrap, stream, pos, a);
    EndSteps(e, BytesToBits(stream));
    OneEnd(wrap, BytesToBits(stream), a, e);
    RanDone(wrap, stream, pos, a);
  }

  lemma RanDone(wrap: bool, data: seq<byte>, pos: nat, a: State)
    requires Ran(wrap, data, pos, a) && a.mode == DONE
    ensures a.p == 8 * pos
  {
    hide Follows, BytesToBits;
  }

  /** A run never produces more than the data of the stream. */
  lemma OutputWithin(wrap: bool, stream: seq<byte>, data: seq<byte>, pos: nat, a: State)
    requires StreamOf(wrap, stream, data) && Ran(wrap, stream, pos, a)
    ensures |a.out| <= |data|
  {
    var e :| Follows(wrap, BytesToBits(stream), e) && e.mode == DONE && e.out == data && e.p == 8 * |stream|;
    hide Follows, BytesToBits, StepIn, Ran;
    RanWhole(wrap, stream, pos, a);
    EndSteps(e, BytesToBits(stream));
    EndOutput(wrap, BytesToBits(stream), e, a);
  }

  // ---- Writing the stream ----

  /** level_flags */
  function LevelFlags(c: Config): (f: nat)
    ensures f <= 3
  {
    if c.strategy == Z_HUFFMAN_ONLY || c.strategy == Z_RLE || c.strategy == Z_FIXED || c.level < 2 then 0
    else if c.level < 6 then 1
    else if c.level == 6 then 2
    else 3
  }

  lemma {:induction false} AllSized(ps: seq<Piece>, out: seq<byte>, g: Limits)
    requires Pieces([], ps, out) && AllWithin(ps, g) && g.wSize <= 32768
    ensures forall i :: 0 <= i < |ps| ==> PieceSized(ps[i], g.cfg.litBufsize)
    decreases |ps|
  {
    hide PieceOk, PieceSized, Within;
    if ps != [] {
      PiecesLast(ps, out);
      var n := |ps| - 1;
      AllSized(ps[..n], out[..|out| - LenOf(ps[n])], g);
      PieceSize(out[..|out| - LenOf(ps[n])], ps[n], out, g);
      forall i | 0 <= i < |ps| ensures PieceSized(ps[i], g.cfg.litBufsize) {
        if i < n { assert ps[..n][i] == ps[i]; }
      }
    }
  }

  lemma EncoderParts(enc: Encoder)
    requires enc.Valid()
    ensures enc.w.Valid()
  {
    hide TablesOk, Separate;
  }

  /** From byte k on, the stream is a raw stream of its own that decodes to out. */
  ghost predicate RestartsAt(stream: seq<byte>, k: nat, out: seq<byte>) {
    k <= |stream| && exists e :: Follows(false, BytesToBits(stream[k..]), e) && e.mode == DONE && e.out == out
  }

  lemma RestartIs(stream: seq<byte>, k: nat, out: seq<byte>, e: State)
    requires k <= |stream| && Follows(false, BytesToBits(stream[k..]), e) && e.mode == DONE && e.out == out
    ensures RestartsAt(stream, k, out)
  {
    hide Follows, BytesToBits;
  }

  lemma BitsFrom(stream: seq<byte>, k: nat)
    requires k <= |stream|
    ensures BytesToBits(stream)[8 * k..] == BytesToBits(stream[k..])
  {
    BitsOf(stream[..k]);
    hide BytesToBits;
    BytesConcat(stream[..k], stream[k..]);
    assert stream == stream[..k] + stream[k..];
  }

  lemma CompleteSuffix(before: seq<Piece>, since: seq<Piece>)
    requires Closed(before + since) && (before == [] || before[|before| - 1] == Marker)
    ensures Closed(since)
  {
    var ps := before + since;
    assert since == [] ==> ps == before;
    if since != [] {
      assert since[|since| - 1] == ps[|ps| - 1];
      forall i | 0 <= i < |since| - 1 ensures !IsLast(since[i]) { assert ps[..|ps| - 1][|before| + i] == since[i]; }
    }
  }

  /** The byte after the last full flush, from which the stream can be decoded alone. */
  lemma RestartMark(tb: Tables, before: seq<Piece>, since: seq<Piece>, bs: seq<Block>, out: seq<byte>, h: nat,
                    stream: seq<byte>)
    returns (k: nat)
    requires BlocksFor(tb, before + since, bs) && (before == [] || before[|before| - 1] == Marker)
    requires Pieces([], since, out)
    requires Closed(before + since) && At(8 * h, BytesToBits(stream), AllBits(tb, before + since, bs, 8 * h))
    ensures RestartsAt(stream, k, out)
  {
    hide *;
    CompleteSuffix(before, since);
    var s;
    k, s := RestartReads(tb, before, since, bs, out, h, BytesToBits(stream));
    BitsOf(stream);
    BitsFrom(stream, k);
    RestartIs(stream, k, out, s);
  }

  /** However inflate is called from that byte on, it gives back what came after the flush. */
  lemma RestartGivesBack(stream: seq<byte>, k: nat, out: seq<byte>, pos: nat, a: State)
    requires RestartsAt(stream, k, out) && Ran(false, stream[k..], pos, a) && Ended(stream[k..], pos, a)
    ensures a.mode == DONE && a.out == out
  {
    var e :| Follows(false, BytesToBits(stream[k..]), e) && e.mode == DONE && e.out == out;
    hide Follows, BytesToBits, StepIn, Ran, Ended;
    RanWhole(false, stream[k..], pos, a);
    EndedStays(false, stream[k..], pos, a);
    EndSteps(e, BytesToBits(stream[k..]));
    OneEnd(false, BytesToBits(stream[k..]), a, e);
  }

  /** A new encoder, after _tr_init, with the buffers of deflateInit2. */
  method NewEncoder(litBufsize: nat) returns (enc: Encoder)
    requires 128 <= litBufsize <= 32768
    ensures enc.dBuf.Length == litBufsize && enc.w.pendingBuf.Length == 4 * litBufsize
    ensures fresh(enc) && Quiet(enc) && enc.w.Valid() && enc.w.Stream() == []
    ensures fresh(enc.s) && fresh(enc.s.heap) && fresh(enc.s.depth) && fresh(enc.s.blCount) && fresh(enc.w)
    ensures fresh(enc.w.pendingBuf)
    ensures fresh(enc.ltree) && fresh(enc.dtree) && fresh(enc.blTree) && fresh(enc.dBuf) && fresh(enc.lBuf)
    ensures fresh(enc.ltree.fc) && fresh(enc.ltree.dl) && fresh(enc.dtree.fc) && fresh(enc.dtree.dl)
    ensures fresh(enc.blTree.fc) && fresh(enc.blTree.dl)
  {
    hide *;
    enc := new Encoder(litBufsize, 4 * litBufsize);
    EncoderParts(enc);
    enc.InitBlock();
    QuietAgain(enc);
  }

  /** Where the source writes beyond the end of pending_buf: the pieces before the one at
      |bs| have become the blocks bs, and for that one there is no room. */
  ghost predicate Overruns(tb: Tables, ps: seq<Piece>, bs: seq<Block>, p: nat, c: Config) {
    && |bs| < |ps| && BlocksFor(tb, ps[..|bs|], bs) && EncodedAs(tb, ps[..|bs|], bs, p, c)
    && !PieceFits(ps[|bs|], c.level, c.litBufsize, (p + |AllBits(tb, ps[..|bs|], bs, p)|) % 8)
  }

  /** Where the codes of a block overwrite its tokens: the pieces before the one at |bs| have
      become the blocks bs, and for that one it happens in the block next. */
  ghost predicate Overtakes(tb: Tables, ps: seq<Piece>, bs: seq<Block>, next: Block, p: nat, c: Config) {
    && |bs| < |ps| && BlocksFor(tb, ps[..|bs|], bs) && EncodedAs(tb, ps[..|bs|], bs, p, c)
    && PieceFits(ps[|bs|], c.level, c.litBufsize, (p + |AllBits(tb, ps[..|bs|], bs, p)|) % 8)
    && Overtaking(tb, ps[|bs|], next, (p + |AllBits(tb, ps[..|bs|], bs, p)|) % 8, c)
  }

  /** What a finished compressor sent, as a zlib or a raw stream; mark is the byte
      after the last full flush.  ok says that pending_buf has room for every block, and that
      none overtakes its tokens there. */
  method WriteStream(d: Deflater, enc: Encoder, wrap: bool)
    returns (ok: bool, stream: seq<byte>, ghost mark: nat, ghost bs: seq<Block>, ghost next: Block)
    requires d.Valid() && d.finished && Quiet(enc) && enc.w.Valid() && enc.w.Stream() == []
    requires enc.dBuf.Length == d.s.cfg.litBufsize
    modifies enc, enc.s, enc.s.heap, enc.s.depth, enc.s.blCount, enc.ltree, enc.dtree, enc.blTree, enc.w,
      enc.w.pendingBuf
    modifies enc.ltree.fc, enc.ltree.dl, enc.dtree.fc, enc.dtree.dl, enc.blTree.fc, enc.blTree.dl, enc.dBuf, enc.lBuf
    ensures ok ==> StreamOf(wrap, stream, old(d.s.total)) && RestartsAt(stream, mark, old(d.s.hist))
    ensures ok ==> BlocksFor(enc.tb, old(d.s.sent), bs)
    ensures ok ==> EncodedAs(enc.tb, old(d.s.sent), bs, 0, d.s.cfg)
    ensures !ok ==>
      || Overruns(enc.tb, old(d.s.sent), bs, 0, d.s.cfg)
      || Overtakes(enc.tb, old(d.s.sent), bs, next, 0, d.s.cfg)
  {
    hide *;
    FinishedFacts(d);
    var c, adler := d.s.cfg, d.s.adler;
    ghost var data, ps, before, since, hist := d.s.total, d.s.sent, d.s.before, d.s.since, d.s.hist;
    HeaderOk(d.s.wBits, LevelFlags(c));
    var h := ZlibHeader(d.s.wBits, LevelFlags(c));
    HeaderGood(h, d.s.wBits);
    AllSized(ps, data, Limits(d.s.cfg, d.s.wSize, d.s.partial));
    ok, stream, bs, next := WritePieces(enc, d.s.sent, c, wrap, h, adler as nat, data);
    if ok {
      mark := RestartMark(enc.tb, before, since, bs, hist, |Head(wrap, h)|, stream);
    } else {
      mark := 0;
    }
  }

  /** Header, blocks and trailer. */
  method WritePieces(enc: Encoder, ps: seq<Piece>, c: Config, wrap: bool, h: nat, adler: nat, ghost data: seq<byte>)
    returns (ok: bool, stream: seq<byte>, ghost bs: seq<Block>, ghost next: Block)
    requires Quiet(enc) && enc.w.Valid() && enc.w.Stream() == [] && c.litBufsize == enc.dBuf.Length
    requires forall i :: 0 <= i < |ps| ==> PieceSized(ps[i], enc.dBuf.Length)
    requires h < 65536 && HeaderFits(h) && adler < 0x1_0000_0000 && adler == A32.Adler(data) && Pieces([], ps, data)
    requires Closed(ps)
    modifies enc, enc.s, enc.s.heap, enc.s.depth, enc.s.blCount, enc.ltree, enc.dtree, enc.blTree, enc.w,
      enc.w.pendingBuf
    modifies enc.ltree.fc, enc.ltree.dl, enc.dtree.fc, enc.dtree.dl, enc.blTree.fc, enc.blTree.dl, enc.dBuf, enc.lBuf
    ensures ok ==> StreamOf(wrap, stream, data) && BlocksFor(enc.tb, ps, bs)
    ensures ok ==> At(8 * |Head(wrap, h)|, BytesToBits(stream), AllBits(enc.tb, ps, bs, 8 * |Head(wrap, h)|))
    ensures ok ==> EncodedAs(enc.tb, ps, bs, 0, c)
    ensures !ok ==> Overruns(enc.tb, ps, bs, 0, c) || Overtakes(enc.tb, ps, bs, next, 0, c)
  {
    hide *;
    var head, tail := Head(wrap, h), Tail(wrap, adler);
    ok, stream, bs, next := WriteAll(enc, ps, c, head);
    EncodedShift(enc.tb, ps[..|bs|], bs, |head|, c);
    assert ps[..|ps|] == ps;
    if !ok {
      StopsAt(enc.tb, ps, bs, next, c);
      return;
    }
    ghost var x, y := BytesToBits(head), AllBits(enc.tb, ps, bs, 8 * |head|);
    stream := TakeAll(enc, stream, x + y);
    BitsOf(head);
    AllBitsAligned(enc.tb, ps, bs, 8 * |head|);
    BytesConcat(stream, tail);
    stream := stream + tail;
    StreamReads(wrap, h, enc.tb, ps, bs, data, stream);
    AtWhole(BytesToBits(stream), x, y, BytesToBits(tail));
  }

  /** Whole bytes before the blocks do not matter. */
  lemma {:induction false} EncodedShift(tb: Tables, ps: seq<Piece>, bs: seq<Block>, n: nat, c: Config)
    requires BlocksFor(tb, ps, bs)
    ensures AllBits(tb, ps, bs, 8 * n) == AllBits(tb, ps, bs, 0)
    ensures EncodedAs(tb, ps, bs, 8 * n, c) <==> EncodedAs(tb, ps, bs, 0, c)
    decreases |ps|
  {
    hide BlockOk, BlockFor, PieceBits, PieceFits;
    if ps != [] {
      var k := |ps| - 1;
      EncodedShift(tb, ps[..k], bs[..k], n, c);
      var x := AllBits(tb, ps[..k], bs[..k], 0);
      BitsShift(tb, bs[k], IsLast(ps[k]), |x|, n);
      Mod8(n, |x|);
    }
  }

  lemma StopsAt(tb: Tables, ps: seq<Piece>, bs: seq<Block>, next: Block, c: Config)
    requires |bs| < |ps| && BlocksFor(tb, ps[..|bs|], bs) && EncodedAs(tb, ps[..|bs|], bs, 0, c)
    requires var v := |AllBits(tb, ps[..|bs|], bs, 0)| % 8;
      PieceFits(ps[|bs|], c.level, c.litBufsize, v) ==> Overtaking(tb, ps[|bs|], next, v, c)
    ensures Overruns(tb, ps, bs, 0, c) || Overtakes(tb, ps, bs, next, 0, c)
  {
    hide BlocksFor, EncodedAs, PieceFits, AllBits, Overtaking;
  }

  /** The last flush: nothing is left when the bits end at a byte boundary. */
  method TakeAll(enc: Encoder, out0: seq<byte>, ghost bits: seq<bool>) returns (out: seq<byte>)
    requires Quiet(enc) && enc.w.Valid() && PieceWriter.BitsOut(out0, enc) == bits
    modifies enc.w, enc.w.pendingBuf
    ensures |bits| % 8 == 0 ==> BytesToBits(out) == bits
  {
    hide *;
    out := TakeOut(enc, out0);
    QuietFacts(enc);
    WrittenIs(out, enc);
    NoneLeft(enc.w, out, bits);
  }

  lemma NoneLeft(w: Writer, out: seq<byte>, bits: seq<bool>)
    requires w.Valid() && w.pending == 0 && w.biValid < 8 && bits == BytesToBits(out) + w.Stream()
    ensures |bits| % 8 == 0 ==> BytesToBits(out) == bits
  {
    hide BytesToBits, ToBits;
    BitsOf(out);
    BitsOf(w.pendingBuf[..0]);
    assert |w.Stream()| == w.biValid;
  }

  lemma AllBitsAligned(tb: Tables, ps: seq<Piece>, bs: seq<Block>, p: nat)
    requires BlocksFor(tb, ps, bs) && Closed(ps)
    ensures (p + |AllBits(tb, ps, bs, p)|) % 8 == 0
  {
    hide *;
    CompleteFront(ps);
    AllBitsLast(tb, ps, bs, p);
    var n := |ps| - 1;
    var x := AllBits(tb, ps[..n], bs[..n], p);
    PieceBitsLast(tb, bs[n], p + |x|);
    var y := BlockBits(tb, bs[n], true, p + |x|);
    Aligned(p + |x| + |y|);
    ZerosSize(Padding(p + |x| + |y|));
  }

  lemma HeaderGood(h: nat, wBits: nat)
    requires h < 65536 && h % 31 == 0 && h / 256 % 16 == 8 && h / 256 / 16 + 8 == wBits <= 15 && h % 256 / 32 % 2 == 0
    ensures HeaderFits(h)
  {
  }

  lemma FinishedFacts(d: Deflater)
    requires d.Valid() && d.finished
    ensures Pieces([], d.s.sent, d.s.total) && Closed(d.s.sent)
    ensures AllWithin(d.s.sent, Limits(d.s.cfg, d.s.wSize, d.s.partial))
    ensures d.s.adler as nat == A32.Adler(d.s.total) && 9 <= d.s.wBits <= 15 && d.s.wSize <= 32768
    ensures d.s.sent == d.s.before + d.s.since && (d.s.before == [] || d.s.before[|d.s.before| - 1] == Marker)
    ensures Pieces([], d.s.since, d.s.hist)
  {
    hide DeflateReady, Pieces, AllWithin, Closed, A32.Adler;
    FinishedSpells(d);
    SentSpells(d);
    FinishedEnd(d);
    assert d.s.hist[..|d.s.hist|] == d.s.hist;
    DeflaterShape(d);
  }

  lemma DeflaterShape(d: Deflater)
    requires d.Valid()
    ensures d.s.Shape()
  {
    hide Pieces, AllWithin, Closed, A32.Adler, Unfinished;
  }
}
