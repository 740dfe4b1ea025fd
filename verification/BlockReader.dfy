/** The decoding machine reads back what the block encoder writes. */
module BlockReader {
  import opened Bits
  import opened Canonical
  import opened DecodeTable
  import opened CodeLengths
  import opened MatchCodes
  import opened Tokens
  import opened BlockSender
  import opened Machine
  import opened MachineLaws

  // ---- What tokens stand for ----

  /** len bytes copied from distance dist, one at a time: the copy may overlap itself. */
  function CopyMatch(out: seq<byte>, dist: nat, len: nat): (r: seq<byte>)
    requires 1 <= dist <= |out|
    ensures |r| == |out| + len
    decreases len
  {
    if len == 0 then out else CopyMatch(out + [out[|out| - dist]], dist, len - 1)
  }

  ghost predicate Fit(out: seq<byte>, t: Token) { t.Match? ==> 1 <= t.dist <= |out| }

  function Expand(out: seq<byte>, t: Token): seq<byte>
    requires Fit(out, t)
  {
    match t case Literal(c) => out + [c] case Match(lc, dist) => CopyMatch(out, dist, lc + 3)
  }

  /** Every match refers to what is there by then. */
  ghost predicate AllFit(out: seq<byte>, ts: seq<Token>)
    decreases |ts|
  {
    ts == [] || (Fit(out, ts[0]) && AllFit(Expand(out, ts[0]), ts[1..]))
  }

  function ExpandAll(out: seq<byte>, ts: seq<Token>): seq<byte>
    requires AllFit(out, ts)
    decreases |ts|
  {
    if ts == [] then out else ExpandAll(Expand(out, ts[0]), ts[1..])
  }

  // ---- Reading bits ----

  /** bits stand in t at position p. */
  ghost predicate At(p: nat, t: seq<bool>, bits: seq<bool>) {
    p + |bits| <= |t| && t[p..p + |bits|] == bits
  }

  lemma AtSplit(p: nat, t: seq<bool>, a: seq<bool>, c: seq<bool>)
    requires At(p, t, a + c)
    ensures At(p, t, a) && At(p + |a|, t, c)
  {
    assert t[p..p + |a|] == (a + c)[..|a|] == a;
    assert t[p + |a|..p + |a| + |c|] == (a + c)[|a|..] == c;
  }

  lemma AtPrefix(p: nat, t: seq<bool>, bits: seq<bool>)
    requires At(p, t, bits)
    ensures bits <= t[p..] && |bits| <= |t[p..]|
  {
  }

  lemma AtVal(p: nat, t: seq<bool>, v: nat, n: nat)
    requires At(p, t, ToBits(v, n)) && v < Pow2(n)
    ensures n <= |t[p..]| && Val(t[p..], 0, n) == v
  {
    FromToBits(v, n);
    LowSmall(v, n);
    assert t[p..][0..n] == ToBits(v, n);
  }

  lemma ReachOne(s: State, t: seq<bool>, s': State)
    requires StepIn(s, t) == Some(s')
    ensures Reaches(s, t, s')
  {
    assert Steps(s', t, 0) == Some(s');
    assert Steps(s, t, 1) == Some(s');
  }

  lemma ReachSelf(s: State, t: seq<bool>)
    ensures Reaches(s, t, s)
  {
    assert Steps(s, t, 0) == Some(s);
  }

  lemma ReachThen(a: State, t: seq<bool>, b: State, c: State)
    requires Reaches(a, t, b) && Reaches(b, t, c)
    ensures Reaches(a, t, c)
  {
    var m: nat :| Steps(a, t, m) == Some(b);
    var n: nat :| Steps(b, t, n) == Some(c);
    RunAdd(a, t, m, n);
  }

  lemma ReachStep(a: State, t: seq<bool>, b: State, c: State)
    requires Reaches(a, t, b) && StepIn(b, t) == Some(c)
    ensures Reaches(a, t, c)
  {
    ReachOne(b, t, c);
    ReachThen(a, t, b, c);
  }

  /** A code word in the stream is decoded as its symbol. */
  lemma SymbolRead(ty: CodeType, lens: seq<nat>, x: nat, b: seq<bool>)
    requires |lens| <= MaxSymbols(ty) && Fits(lens) && x < |lens| && lens[x] > 0 && Codeword(lens, x) <= b
    ensures Decode(ty, lens, b) == Some(EntryFor(ty, x, lens[x]))
  {
    hide SymbolAt, Codeword, Left, EntryOp, EntryVal, Complete;
    SymbolIs(lens, b);
    assert Leads(lens, x, b);
    var y := SymbolAt(lens, b, |lens|).value;
    PrefixFree(lens, x, y, b);
  }

  // ---- One token ----

  /** The machine is between two symbols of a block with codes ll and dl. */
  ghost predicate InBlock(s: State, ll: seq<nat>, dl: seq<nat>) {
    && s.mode == LEN && s.lcode == ll && s.dcode == dl
    && |ll| <= 288 && |dl| <= 32 && Fits(ll) && Fits(dl)
  }

  /** Only these fields change between symbols. */
  ghost predicate Between(s: State, s': State, p: nat, out: seq<byte>) {
    && s'.p == p && s'.out == out && s'.last == s.last && s'.wrap == s.wrap && s'.lcode == s.lcode
    && s'.dcode == s.dcode
  }

  lemma ReadLiteral(s: State, t: seq<bool>, ll: seq<nat>, dl: seq<nat>, c: byte) returns (s': State)
    requires InBlock(s, ll, dl) && c < |ll| && ll[c] > 0 && At(s.p, t, Codeword(ll, c))
    ensures Reaches(s, t, s') && InBlock(s', ll, dl) && Between(s, s', s.p + ll[c], s.out + [c])
  {
    hide EntryOp, EntryVal, Decode, Fits, Codeword, Reaches, Grows;
    AtPrefix(s.p, t, Codeword(ll, c));
    SymbolRead(LENS, ll, c, t[s.p..]);
    LenEntryKinds(c);
    var s1 := s.(p := s.p + ll[c], length := c, mode := LIT);
    assert StepIn(s, t) == Some(s1);
    s' := s1.(mode := LEN, out := s.out + [c]);
    assert StepIn(s1, t) == Some(s');
    ReachOne(s, t, s1);
    ReachStep(s, t, s1, s');
  }

  lemma ReadEnd(s: State, t: seq<bool>, ll: seq<nat>, dl: seq<nat>) returns (s': State)
    requires InBlock(s, ll, dl) && END_BLOCK < |ll| && ll[END_BLOCK] > 0 && At(s.p, t, Codeword(ll, END_BLOCK))
    ensures Reaches(s, t, s') && s'.mode == TYPE && Between(s, s', s.p + ll[END_BLOCK], s.out)
  {
    hide EntryOp, EntryVal, Decode, Fits, Codeword, Reaches, Grows;
    AtPrefix(s.p, t, Codeword(ll, END_BLOCK));
    SymbolRead(LENS, ll, END_BLOCK, t[s.p..]);
    LenEntryKinds(END_BLOCK);
    s' := s.(p := s.p + ll[END_BLOCK], length := EntryVal(LENS, END_BLOCK), mode := TYPE);
    assert StepIn(s, t) == Some(s');
    ReachOne(s, t, s');
  }

  /** The length symbol and its extra bits. */
  lemma ReadLength(s: State, t: seq<bool>, ll: seq<nat>, dl: seq<nat>, c: nat, v: nat) returns (s': State)
    requires InBlock(s, ll, dl) && c < 29 && 257 + c < |ll| && ll[257 + c] > 0 && v < Pow2(ExtraL(c))
    requires At(s.p, t, Codeword(ll, 257 + c) + ToBits(v, ExtraL(c)))
    ensures Reaches(s, t, s') && s'.mode == DIST && Between(s, s', s.p + ll[257 + c] + ExtraL(c), s.out)
    ensures s'.length == EntryVal(LENS, 257 + c) + v
  {
    hide EntryOp, EntryVal, Decode, Fits, Codeword, Reaches, Grows, ToBits, ExtraL, Pow2, Val;
    AtSplit(s.p, t, Codeword(ll, 257 + c), ToBits(v, ExtraL(c)));
    AtPrefix(s.p, t, Codeword(ll, 257 + c));
    SymbolRead(LENS, ll, 257 + c, t[s.p..]);
    LenEntryKinds(257 + c);
    var s1 := s.(p := s.p + ll[257 + c], length := EntryVal(LENS, 257 + c), mode := LENEXT, extra := ExtraL(c));
    assert StepIn(s, t) == Some(s1);
    AtVal(s1.p, t, v, ExtraL(c));
    s' := s1.(mode := DIST, length := s1.length + v, p := s1.p + s1.extra);
    assert StepIn(s1, t) == Some(s');
    ReachOne(s, t, s1);
    ReachStep(s, t, s1, s');
  }

  lemma ReadDistance(s: State, t: seq<bool>, dl: seq<nat>, c: nat, v: nat) returns (s': State)
    requires s.mode == DIST && s.dcode == dl && |dl| <= 32 && Fits(dl) && c < 30 && c < |dl| && dl[c] > 0
    requires v < Pow2(ExtraD(c))
    requires At(s.p, t, Codeword(dl, c) + ToBits(v, ExtraD(c)))
    ensures Reaches(s, t, s') && s'.mode == MATCH && Between(s, s', s.p + dl[c] + ExtraD(c), s.out)
    ensures s'.length == s.length && s'.offset == EntryVal(DISTS, c) + v
  {
    hide EntryOp, EntryVal, Decode, Fits, Codeword, Reaches, Grows, ToBits, ExtraD, Pow2, Val;
    AtSplit(s.p, t, Codeword(dl, c), ToBits(v, ExtraD(c)));
    AtPrefix(s.p, t, Codeword(dl, c));
    SymbolRead(DISTS, dl, c, t[s.p..]);
    DistEntryKinds(c);
    var s1 := s.(p := s.p + dl[c], offset := EntryVal(DISTS, c), mode := DISTEXT, extra := ExtraD(c));
    assert StepIn(s, t) == Some(s1);
    AtVal(s1.p, t, v, ExtraD(c));
    s' := s1.(mode := MATCH, offset := s1.offset + v, p := s1.p + s1.extra);
    assert StepIn(s1, t) == Some(s');
    ReachOne(s, t, s1);
    ReachStep(s, t, s1, s');
  }

  lemma {:induction false} ReadCopy(s: State, t: seq<bool>) returns (s': State)
    requires s.mode == MATCH && s.length > 0 && 1 <= s.offset <= |s.out| && s.p <= |t|
    ensures Reaches(s, t, s') && s'.mode == LEN && Between(s, s', s.p, CopyMatch(s.out, s.offset, s.length))
    decreases s.length
  {
    hide Reaches, Grows;
    var s1 := MatchStep(s).value;
    assert StepIn(s, t) == Some(s1);
    ReachOne(s, t, s1);
    if s.length == 1 {
      s' := s1;
      assert CopyMatch(s1.out, s.offset, 0) == s1.out;
    } else {
      s' := ReadCopy(s1, t);
      ReachThen(s, t, s1, s');
    }
  }

  /** A token is read back as what it stands for. */
  lemma ReadToken(s: State, t: seq<bool>, tb: Tables, ll: seq<nat>, dl: seq<nat>, tk: Token) returns (s': State)
    requires InBlock(s, ll, dl) && TablesOk(tb) && Coded(tb, ll, dl, tk) && Fit(s.out, tk)
    requires At(s.p, t, TokenBits(tb, ll, dl, tk))
    ensures Reaches(s, t, s') && InBlock(s', ll, dl)
    ensures Between(s, s', s.p + |TokenBits(tb, ll, dl, tk)|, Expand(s.out, tk))
  {
    hide Fits, Codeword, Reaches, ToBits, ExtraL, ExtraD, TablesOk, LengthExtra, DistExtra, LitSym, DistSym;
    CodedFacts(tb, ll, dl, tk);
    if tk.Literal? {
      LiteralSym(tb, tk.c);
      s' := ReadLiteral(s, t, ll, dl, tk.c);
    } else {
      s' := ReadMatch(s, t, tb, ll, dl, tk.lc, tk.dist);
    }
  }

  lemma LiteralSym(tb: Tables, c: byte)
    requires TablesOk(tb)
    ensures LitSym(tb, Literal(c)) == c
  {
  }

  lemma ReadMatch(s: State, t: seq<bool>, tb: Tables, ll: seq<nat>, dl: seq<nat>, lc: byte, dist: nat)
    returns (s': State)
    requires InBlock(s, ll, dl) && TablesOk(tb) && Coded(tb, ll, dl, Match(lc, dist)) && 1 <= dist <= |s.out|
    requires At(s.p, t, TokenBits(tb, ll, dl, Match(lc, dist)))
    ensures Reaches(s, t, s') && InBlock(s', ll, dl)
    ensures Between(s, s', s.p + |TokenBits(tb, ll, dl, Match(lc, dist))|, CopyMatch(s.out, dist, lc + 3))
  {
    hide Fits, Codeword, Reaches, ToBits, ExtraL, ExtraD, TablesOk, LengthExtra, DistExtra, LitSym, DistSym, At,
      EntryVal, Pow2;
    var c, d := MatchSyms(tb, ll, dl, lc, dist);
    var a := Codeword(ll, 257 + c) + ToBits(LengthExtra(tb, lc), ExtraL(c));
    var e := Codeword(dl, d) + ToBits(DistExtra(tb, dist), ExtraD(d));
    assert TokenBits(tb, ll, dl, Match(lc, dist)) == a + e;
    AtSplit(s.p, t, a, e);
    var s1 := ReadLength(s, t, ll, dl, c, LengthExtra(tb, lc));
    var s2 := ReadDistance(s1, t, dl, d, DistExtra(tb, dist));
    ReachThen(s, t, s1, s2);
    AtEnd(s1.p, t, e);
    s' := ReadCopy(s2, t);
    ReachThen(s, t, s2, s');
  }

  lemma AtEnd(p: nat, t: seq<bool>, bits: seq<bool>)
    requires At(p, t, bits)
    ensures p + |bits| <= |t|
  {
  }

  /** The symbols of a match, and what they and the extra bits add up to. */
  lemma MatchSyms(tb: Tables, ll: seq<nat>, dl: seq<nat>, lc: byte, dist: nat) returns (c: nat, d: nat)
    requires TablesOk(tb) && Coded(tb, ll, dl, Match(lc, dist))
    ensures |tb.lengthCode| == 256 && c == tb.lengthCode[lc] && c < 29 && 257 + c < |ll| && ll[257 + c] > 0
    ensures LitSym(tb, Match(lc, dist)) == 257 + c && LengthExtra(tb, lc) < Pow2(ExtraL(c))
    ensures 1 <= dist <= 32768 && d == DistSym(tb, Match(lc, dist)) && d < 30 && d < |dl| && dl[d] > 0
    ensures DistExtra(tb, dist) < Pow2(ExtraD(d))
    ensures EntryVal(LENS, 257 + c) + LengthExtra(tb, lc) == lc + 3
    ensures EntryVal(DISTS, d) + DistExtra(tb, dist) == dist
  {
    hide LengthTables, DistTables, EntryVal, BaseLength, BaseDist, Pow2, ExtraL, ExtraD, LBASE, DBASE;
    CodedFacts(tb, ll, dl, Match(lc, dist));
    LengthPart(tb, lc);
    DistPart(tb, dist);
    c, d := tb.lengthCode[lc], DistSym(tb, Match(lc, dist));
    LengthEntry(c);
    DistEntry(d);
    LengthSum(tb, lc);
  }

  lemma LengthSum(tb: Tables, lc: byte)
    requires TablesOk(tb)
    ensures |tb.lengthCode| == 256
    ensures lc == 255 ==> tb.lengthCode[lc] == 28 && LengthExtra(tb, lc) == 0
    ensures lc < 255 ==> tb.lengthCode[lc] < 28 && LengthExtra(tb, lc) == lc - BaseLength(tb.lengthCode[lc])
  {
    hide DistTables, BaseLength;
  }

  // ---- A whole block ----

  lemma {:induction false} ReadTokens(s: State, t: seq<bool>, tb: Tables, ll: seq<nat>, dl: seq<nat>, ts: seq<Token>)
    returns (s': State)
    requires InBlock(s, ll, dl) && AllCoded(tb, ll, dl, ts) && AllFit(s.out, ts)
    requires At(s.p, t, AllTokenBits(tb, ll, dl, ts))
    ensures Reaches(s, t, s') && InBlock(s', ll, dl)
    ensures Between(s, s', s.p + |AllTokenBits(tb, ll, dl, ts)|, ExpandAll(s.out, ts))
    decreases |ts|
  {
    hide InBlock, Reaches, TablesOk, TokenBits, At, Coded, Fit, Expand;
    if ts == [] {
      ReachSelf(s, t);
      s' := s;
    } else {
      AtSplit(s.p, t, TokenBits(tb, ll, dl, ts[0]), AllTokenBits(tb, ll, dl, ts[1..]));
      var s1 := ReadToken(s, t, tb, ll, dl, ts[0]);
      s' := ReadTokens(s1, t, tb, ll, dl, ts[1..]);
      ReachThen(s, t, s1, s');
    }
  }

  /** The tokens and the end-of-block code. */
  lemma ReadBody(s: State, t: seq<bool>, tb: Tables, ll: seq<nat>, dl: seq<nat>, ts: seq<Token>) returns (s': State)
    requires InBlock(s, ll, dl) && AllCoded(tb, ll, dl, ts) && AllFit(s.out, ts) && END_BLOCK < |ll|
    requires ll[END_BLOCK] > 0
    requires At(s.p, t, BlockBody(tb, ll, dl, ts))
    ensures Reaches(s, t, s') && s'.mode == TYPE
    ensures Between(s, s', s.p + |BlockBody(tb, ll, dl, ts)|, ExpandAll(s.out, ts))
  {
    hide InBlock, Reaches, AllTokenBits, At, AllCoded, AllFit, ExpandAll, Codeword;
    AtSplit(s.p, t, AllTokenBits(tb, ll, dl, ts), Codeword(ll, END_BLOCK));
    var s1 := ReadTokens(s, t, tb, ll, dl, ts);
    s' := ReadEnd(s1, t, ll, dl);
    ReachThen(s, t, s1, s');
  }
}
