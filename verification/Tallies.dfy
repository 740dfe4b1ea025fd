/** Frequencies of the symbols of a block and what a block costs
    (deps/libz/deflate.h: _tr_tally_lit, _tr_tally_dist; deps/libz/trees.c). */
module Tallies {
  import opened Bits
  import opened Canonical
  import opened FixedCodes
  import opened MatchCodes
  import opened TreeBuilder
  import opened BuildTrees
  import opened Tokens
  import opened BlockSender

  function ExtraLBits(): (x: seq<nat>) ensures |x| == 29 { seq(29, c requires 0 <= c < 29 => ExtraL(c)) }

  function ExtraDBits(): (x: seq<nat>) ensures |x| == 30 { seq(30, c requires 0 <= c < 30 => ExtraD(c)) }

  function ExtraBlBits(): (x: seq<nat>) ensures |x| == 19 { seq(19, c requires 0 <= c < 19 => CL.ExtraBl(c)) }

  import CL = CodeLengths

  /** static_l_desc, static_d_desc and static_bl_desc */
  function LDesc(): StaticDesc { StaticDesc(FixedLens(), ExtraLBits(), 257, 286, 15) }

  function DDesc(): StaticDesc { StaticDesc(FixedDistLens()[..30], ExtraDBits(), 0, 30, 15) }

  function BlDesc(): StaticDesc { StaticDesc([], ExtraBlBits(), 0, 19, 7) }

  lemma DescsOk()
    ensures DescOk(LDesc()) && DescOk(DDesc()) && DescOk(BlDesc())
  {
    Pow2Values();
    hide Pow2;
  }

  /** How many tokens have the literal or length symbol x. */
  function LitCount(tb: Tables, ts: seq<Token>, x: nat): nat
    requires TablesOk(tb)
  {
    if ts == [] then 0
    else LitCount(tb, ts[..|ts| - 1], x) + (if LitSym(tb, ts[|ts| - 1]) == x then 1 else 0)
  }

  function DistCount(tb: Tables, ts: seq<Token>, x: nat): nat
    requires TablesOk(tb) && TokensOk(ts)
  {
    if ts == [] then 0
    else
      var t := ts[|ts| - 1];
      DistCount(tb, ts[..|ts| - 1], x) + (if t.Match? && DistSym(tb, t) == x then 1 else 0)
  }

  /** Frequencies after init_block and the tokens ts. */
  function LitFreq(tb: Tables, ts: seq<Token>): (f: seq<nat>)
    requires TablesOk(tb)
    ensures |f| == 286
  {
    seq(286, i requires 0 <= i < 286 => LitCount(tb, ts, i) + (if i == END_BLOCK then 1 else 0))
  }

  function DistFreq(tb: Tables, ts: seq<Token>): (f: seq<nat>)
    requires TablesOk(tb) && TokensOk(ts)
    ensures |f| == 30
  {
    seq(30, i requires 0 <= i < 30 => DistCount(tb, ts, i))
  }

  lemma LitFreqPush(tb: Tables, ts: seq<Token>, t: Token)
    requires TablesOk(tb) && TokenOk(t)
    ensures LitSym(tb, t) < 286
    ensures LitFreq(tb, ts + [t]) == LitFreq(tb, ts)[LitSym(tb, t) := LitFreq(tb, ts)[LitSym(tb, t)] + 1]
  {
    hide TablesOk, DistSym, LitSym;
    SymBounds(tb, t);
    assert (ts + [t])[..|ts|] == ts;
  }

  lemma DistFreqPush(tb: Tables, ts: seq<Token>, t: Token)
    requires TablesOk(tb) && TokenOk(t) && TokensOk(ts)
    ensures TokensOk(ts + [t])
    ensures t.Literal? ==> DistFreq(tb, ts + [t]) == DistFreq(tb, ts)
    ensures t.Match? ==> DistSym(tb, t) < 30
    ensures t.Match? ==>
      DistFreq(tb, ts + [t]) == DistFreq(tb, ts)[DistSym(tb, t) := DistFreq(tb, ts)[DistSym(tb, t)] + 1]
  {
    hide TablesOk, DistSym, LitSym;
    SymBounds(tb, t);
    assert (ts + [t])[..|ts|] == ts;
    assert TokensOk(ts + [t]);
  }

  // ---- Exact cost ----

  lemma {:induction false} SymbolBitsBump(f: seq<nat>, l: seq<nat>, x: seq<nat>, n: nat, k: nat)
    requires n <= |f| && n <= |l| && n <= |x| && k < |f| && k < |l| && k < |x|
    ensures SymbolBits(f[k := f[k] + 1], l, x, n) == SymbolBits(f, l, x, n) + (if k < n then l[k] + x[k] else 0)
  {
    if n > 0 {
      SymbolBitsBump(f, l, x, n - 1, k);
      if k == n - 1 { OneMoreTimes(f[k], l[k] + x[k]); }
    }
  }

  lemma OneMoreTimes(a: nat, b: nat)
    ensures (a + 1) * b == a * b + b
  {
  }

  lemma {:induction false} SymbolBitsZero(f: seq<nat>, l: seq<nat>, x: seq<nat>, n: nat)
    requires n <= |f| && n <= |l| && n <= |x| && forall i :: 0 <= i < n ==> f[i] == 0
    ensures SymbolBits(f, l, x, n) == 0
  {
    if n > 0 { SymbolBitsZero(f, l, x, n - 1); }
  }

  /** l and x are the lengths of code lens and the extra bits of its symbols. */
  ghost predicate LengthsOf(l: seq<nat>, lens: seq<nat>, n: nat) {
    n <= |l| && forall i :: 0 <= i < n && i < |lens| ==> l[i] == lens[i]
  }

  ghost predicate LitExtra(x: seq<nat>) {
    286 <= |x| && forall i :: 0 <= i < 286 ==> x[i] == if i < 257 then 0 else ExtraL(i - 257)
  }

  ghost predicate DistExtras(x: seq<nat>) {
    30 <= |x| && forall i :: 0 <= i < 30 ==> x[i] == ExtraD(i)
  }

  lemma TokenCost(tb: Tables, ll: seq<nat>, dl: seq<nat>, t: Token)
    requires TablesOk(tb) && Coded(tb, ll, dl, t)
    ensures LitSym(tb, t) < 286
    ensures t.Literal? ==> LitSym(tb, t) < 257 && |TokenBits(tb, ll, dl, t)| == ll[LitSym(tb, t)]
    ensures t.Match? ==> LitSym(tb, t) >= 257 && DistSym(tb, t) < 30
    ensures t.Match? ==>
      |TokenBits(tb, ll, dl, t)|
      == ll[LitSym(tb, t)] + ExtraL(LitSym(tb, t) - 257) + dl[DistSym(tb, t)] + ExtraD(DistSym(tb, t))
  {
    CodedFacts(tb, ll, dl, t);
    hide ExtraL, ExtraD, Codeword, ToBits, LengthExtra, DistExtra;
  }

  lemma {:induction false} TokensCost(tb: Tables, ll: seq<nat>, dl: seq<nat>, ts: seq<Token>, l: seq<nat>,
                                      d: seq<nat>, xl: seq<nat>, xd: seq<nat>)
    requires AllCoded(tb, ll, dl, ts) && END_BLOCK < |ll| && TokensOk(ts)
    requires LengthsOf(l, ll, 286) && LengthsOf(d, dl, 30) && LitExtra(xl) && DistExtras(xd)
    ensures |AllTokenBits(tb, ll, dl, ts)| + ll[END_BLOCK]
         == SymbolBits(LitFreq(tb, ts), l, xl, 286) + SymbolBits(DistFreq(tb, ts), d, xd, 30)
    decreases |ts|
  {
    hide TablesOk, TokenBits, Coded, SymbolBits, LitSym, DistSym, ExtraL, ExtraD;
    if ts == [] {
      NoTokensCost(tb, ll, l, d, xl, xd);
    } else {
      var a, t := ts[..|ts| - 1], ts[|ts| - 1];
      assert ts == a + [t];
      assert [t][1..] == [];
      BitsConcat(tb, ll, dl, a, [t]);
      TokensCost(tb, ll, dl, a, l, d, xl, xd);
      assert AllTokenBits(tb, ll, dl, [t]) == TokenBits(tb, ll, dl, t) + AllTokenBits(tb, ll, dl, []);
      TokenCost(tb, ll, dl, t);
      PushCost(tb, ll, dl, a, t, l, d, xl, xd);
    }
  }

  lemma NoTokensCost(tb: Tables, ll: seq<nat>, l: seq<nat>, d: seq<nat>, xl: seq<nat>, xd: seq<nat>)
    requires TablesOk(tb) && END_BLOCK < |ll| && LengthsOf(l, ll, 286) && LitExtra(xl) && 30 <= |d| && 30 <= |xd|
    ensures SymbolBits(LitFreq(tb, []), l, xl, 286) == ll[END_BLOCK] && SymbolBits(DistFreq(tb, []), d, xd, 30) == 0
  {
    hide TablesOk, SymbolBits;
    var z: seq<nat> := seq(286, i => 0);
    assert LitFreq(tb, []) == z[END_BLOCK := z[END_BLOCK] + 1];
    SymbolBitsZero(z, l, xl, 286);
    SymbolBitsBump(z, l, xl, 286, END_BLOCK);
    SymbolBitsZero(DistFreq(tb, []), d, xd, 30);
  }

  lemma PushCost(tb: Tables, ll: seq<nat>, dl: seq<nat>, a: seq<Token>, t: Token, l: seq<nat>, d: seq<nat>,
                 xl: seq<nat>, xd: seq<nat>)
    requires TablesOk(tb) && Coded(tb, ll, dl, t) && TokensOk(a)
    requires LengthsOf(l, ll, 286) && LengthsOf(d, dl, 30) && LitExtra(xl) && DistExtras(xd)
    ensures TokensOk(a + [t])
    ensures SymbolBits(LitFreq(tb, a + [t]), l, xl, 286) + SymbolBits(DistFreq(tb, a + [t]), d, xd, 30)
         == SymbolBits(LitFreq(tb, a), l, xl, 286) + SymbolBits(DistFreq(tb, a), d, xd, 30) + |TokenBits(tb, ll, dl, t)|
  {
    hide TablesOk, TokenBits, SymbolBits, LitSym, DistSym, ExtraL, ExtraD, LitFreq, DistFreq;
    TokenCost(tb, ll, dl, t);
    LitFreqPush(tb, a, t);
    SymbolBitsBump(LitFreq(tb, a), l, xl, 286, LitSym(tb, t));
    DistFreqPush(tb, a, t);
    if t.Match? { SymbolBitsBump(DistFreq(tb, a), d, xd, 30, DistSym(tb, t)); }
  }
}
