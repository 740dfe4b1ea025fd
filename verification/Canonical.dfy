/** Canonical prefix codes, as section 3.2.2 of RFC 1951 defines them from the
    code lengths alone: the common specification of the encoder (gen_codes) and
    of the decoder (inflate_table). */
module Canonical {
  import opened Bits

  const MAXBITS: nat := 15

  /** How many symbols below n have a code of length l. */
  function CountIn(lens: seq<nat>, l: nat, n: nat): (c: nat)
    requires n <= |lens|
    ensures c <= n
  {
    if n == 0 then 0 else CountIn(lens, l, n - 1) + (if lens[n - 1] == l then 1 else 0)
  }

  /** bl_count of the RFC; a symbol of length 0 has no code. */
  function Count(lens: seq<nat>, l: nat): nat {
    if l == 0 then 0 else CountIn(lens, l, |lens|)
  }

  /** The symbol of rank r among those of length l. */
  function Sym(lens: seq<nat>, l: nat, r: nat): (s: nat)
    requires r < Count(lens, l)
    ensures s < |lens| && lens[s] == l && Rank(lens, s) == r
  {
    SymIn(lens, l, r, |lens|)
  }

  function SymIn(lens: seq<nat>, l: nat, r: nat, n: nat): (s: nat)
    requires n <= |lens| && r < CountIn(lens, l, n)
    ensures s < n && lens[s] == l && CountIn(lens, l, s) == r
  {
    if r < CountIn(lens, l, n - 1) then SymIn(lens, l, r, n - 1) else n - 1
  }

  /** next_code of the RFC: the first code of length l. */
  function FirstCode(lens: seq<nat>, l: nat): nat {
    if l == 0 then 0 else 2 * (FirstCode(lens, l - 1) + Count(lens, l - 1))
  }

  function Rank(lens: seq<nat>, s: nat): nat
    requires s < |lens|
  {
    CountIn(lens, lens[s], s)
  }

  /** The code of symbol s: codes of one length are consecutive. */
  function Code(lens: seq<nat>, s: nat): nat
    requires s < |lens|
  {
    FirstCode(lens, lens[s]) + Rank(lens, s)
  }

  /** The code as it stands in the stream, read least significant bit first. */
  function RevCode(lens: seq<nat>, s: nat): (r: nat)
    requires s < |lens|
    ensures r < Pow2(lens[s])
  {
    Rev(Code(lens, s), lens[s])
  }

  /** The number of codes of length l still free. */
  function Left(lens: seq<nat>, l: nat): int {
    if l == 0 then 1 else 2 * Left(lens, l - 1) - Count(lens, l)
  }

  ghost predicate Bounded(lens: seq<nat>, m: nat) {
    forall i :: 0 <= i < |lens| ==> lens[i] <= m
  }

  /** Not over-subscribed. */
  ghost predicate Fits(lens: seq<nat>) {
    Bounded(lens, MAXBITS) && Left(lens, MAXBITS) >= 0
  }

  /** Every bit string continues exactly one code. */
  ghost predicate Complete(lens: seq<nat>) {
    Bounded(lens, MAXBITS) && Left(lens, MAXBITS) == 0
  }

  // ---- Ranks ----

  lemma {:induction false} CountGrows(lens: seq<nat>, l: nat, m: nat, n: nat)
    requires m <= n <= |lens|
    ensures CountIn(lens, l, m) <= CountIn(lens, l, n)
    ensures m < n && lens[m] == l ==> CountIn(lens, l, m) < CountIn(lens, l, n)
  {
    if m < n { CountGrows(lens, l, m, n - 1); }
  }

  lemma RankOf(lens: seq<nat>, s: nat)
    requires s < |lens| && lens[s] > 0
    ensures Rank(lens, s) < Count(lens, lens[s])
    ensures Sym(lens, lens[s], Rank(lens, s)) == s
  {
    CountGrows(lens, lens[s], s, |lens|);
    SameRank(lens, s, Sym(lens, lens[s], Rank(lens, s)));
  }

  lemma RankOrder(lens: seq<nat>, s: nat, t: nat)
    requires s < |lens| && t < |lens| && lens[s] == lens[t]
    ensures s < t <==> Rank(lens, s) < Rank(lens, t)
  {
    if s <= t { CountGrows(lens, lens[s], s, t); } else { CountGrows(lens, lens[s], t, s); }
  }

  lemma SameRank(lens: seq<nat>, s: nat, t: nat)
    requires s < |lens| && t < |lens| && lens[s] == lens[t]
    requires Rank(lens, s) == Rank(lens, t)
    ensures s == t
  {
    RankOrder(lens, s, t);
    RankOrder(lens, t, s);
  }

  // ---- Room ----

  lemma {:induction false} LeftIsFree(lens: seq<nat>, l: nat)
    ensures FirstCode(lens, l) + Count(lens, l) + Left(lens, l) == Pow2(l)
  {
    if l > 0 { LeftIsFree(lens, l - 1); }
  }

  /** Once over-subscribed, always over-subscribed. */
  lemma {:induction false} LeftSign(lens: seq<nat>, l: nat, m: nat)
    requires l <= m && Left(lens, m) >= 0
    ensures Left(lens, l) >= 0
  {
    if l < m { LeftSign(lens, l, m - 1); }
  }

  lemma CodeFits(lens: seq<nat>, s: nat)
    requires Fits(lens) && s < |lens| && lens[s] > 0
    ensures Code(lens, s) < Pow2(lens[s])
    ensures Code(lens, s) < FirstCode(lens, lens[s]) + Count(lens, lens[s])
  {
    RankOf(lens, s);
    LeftIsFree(lens, lens[s]);
    LeftSign(lens, lens[s], MAXBITS);
  }

  /** Everything of length l comes before everything longer. */
  lemma {:induction false} FirstCodeGrows(lens: seq<nat>, l: nat, m: nat)
    requires l < m
    ensures FirstCode(lens, m) >= Shl(FirstCode(lens, l) + Count(lens, l), m - l)
  {
    if l + 1 < m { FirstCodeGrows(lens, l, m - 1); }
  }

  // ---- The RFC's two laws ----

  /** Codes of equal length are consecutive in symbol order, and a shorter
      code precedes every longer one. */
  lemma CodeOrder(lens: seq<nat>, s: nat, t: nat)
    requires s < |lens| && t < |lens| && s != t && 0 < lens[s] <= lens[t]
    ensures lens[s] == lens[t] ==> (s < t <==> Code(lens, s) < Code(lens, t))
    ensures lens[s] == lens[t] ==>
      Code(lens, t) - Code(lens, s) == CountIn(lens, lens[s], t) - CountIn(lens, lens[s], s)
    ensures lens[s] < lens[t] ==> Code(lens, s) < Shr(Code(lens, t), lens[t] - lens[s])
    ensures Shr(Code(lens, t), lens[t] - lens[s]) != Code(lens, s)
  {
    RankOf(lens, s);
    if lens[s] == lens[t] {
      RankOrder(lens, s, t);
      RankOrder(lens, t, s);
    } else {
      var d := lens[t] - lens[s];
      var next := FirstCode(lens, lens[s]) + Count(lens, lens[s]);
      FirstCodeGrows(lens, lens[s], lens[t]);
      ShrMonotone(Shl(next, d), Code(lens, t), d);
      SplitUnique(next, 0, d);
    }
  }

  /** Canonical decoding of x, the next MAXBITS bits read most significant
      first: climb the lengths until x falls among the codes of one. */
  lemma {:induction false} Climb(lens: seq<nat>, x: nat, l: nat) returns (s: nat)
    requires Complete(lens) && x < Pow2(MAXBITS) && 1 <= l <= MAXBITS
    requires FirstCode(lens, l) <= Shr(x, MAXBITS - l)
    ensures s < |lens| && lens[s] >= l && Shr(x, MAXBITS - lens[s]) == Code(lens, s)
    decreases MAXBITS - l
  {
    var p := Shr(x, MAXBITS - l);
    if p < FirstCode(lens, l) + Count(lens, l) {
      var r := p - FirstCode(lens, l);
      s := Sym(lens, l, r);
    } else if l < MAXBITS {
      ShrShr(x, MAXBITS - l - 1, 1);
      assert p == Shr(x, MAXBITS - l - 1) / 2;
      s := Climb(lens, x, l + 1);
    } else {
      LeftIsFree(lens, MAXBITS);
      assert false;
    }
  }

  // ---- Code words in the stream ----

  /** The bits of c, most significant first. */
  function Msb(c: nat, len: nat): (b: seq<bool>)
    ensures |b| == len
  {
    if len == 0 then [] else Msb(c / 2, len - 1) + [c % 2 == 1]
  }

  /** Huffman codes are packed starting with their most significant bit
      (section 3.1.1 of RFC 1951). */
  function Codeword(lens: seq<nat>, s: nat): (b: seq<bool>)
    requires s < |lens|
    ensures |b| == lens[s]
  {
    Msb(Code(lens, s), lens[s])
  }

  lemma {:induction false} MsbIsRev(c: nat, len: nat)
    ensures FromBits(Msb(c, len)) == Rev(c, len)
    ensures ToBits(Rev(c, len), len) == Msb(c, len)
  {
    if len > 0 {
      MsbIsRev(c / 2, len - 1);
      var b: seq<bool> := [c % 2 == 1];
      FromBitsConcat(Msb(c / 2, len - 1), b);
      ShlOne(len - 1);
      assert b[1..] == [];
      assert FromBits(b) == c % 2;
      ToFromBits(Msb(c, len));
    }
  }

  /** A code word leads the bits exactly when masking their value gives the
      reversed code. */
  lemma LeadsIffLow(lens: seq<nat>, s: nat, b: seq<bool>)
    requires s < |lens| && lens[s] <= |b|
    ensures Codeword(lens, s) <= b <==> Low(FromBits(b), lens[s]) == Rev(Code(lens, s), lens[s])
  {
    var l := lens[s];
    FromBitsSplit(b, l);
    MsbIsRev(Code(lens, s), l);
    ToFromBits(b[..l]);
    ToFromBits(Codeword(lens, s));
    assert Codeword(lens, s) <= b <==> Codeword(lens, s) == b[..l];
  }

  /** No code word is the beginning of another. */
  lemma PrefixFree(lens: seq<nat>, s: nat, t: nat, b: seq<bool>)
    requires Fits(lens) && s < |lens| && t < |lens| && lens[s] > 0 && lens[t] > 0
    requires Codeword(lens, s) <= b && Codeword(lens, t) <= b
    ensures s == t
  {
    LeadsIffLow(lens, s, b);
    LeadsIffLow(lens, t, b);
    LowPrefixFree(lens, s, t, FromBits(b));
  }

  lemma LowPrefixFree(lens: seq<nat>, s: nat, t: nat, h: nat)
    requires Fits(lens) && s < |lens| && t < |lens| && lens[s] > 0 && lens[t] > 0
    requires Low(h, lens[s]) == Rev(Code(lens, s), lens[s])
    requires Low(h, lens[t]) == Rev(Code(lens, t), lens[t])
    ensures s == t
    decreases if lens[s] > lens[t] then 1 else 0
  {
    if lens[s] > lens[t] {
      LowPrefixFree(lens, t, s, h);
    } else {
      CodeFits(lens, s);
      CodeFits(lens, t);
      RevPrefix(h, Code(lens, s), lens[s], lens[t]);
      RevPrefix(h, Code(lens, t), lens[t], lens[t]);
      if s != t { CodeOrder(lens, s, t); }
    }
  }

  /** A complete code decodes every bit string. */
  lemma LowDecodes(lens: seq<nat>, h: nat) returns (s: nat)
    requires Complete(lens)
    ensures s < |lens| && lens[s] > 0 && Low(h, lens[s]) == Rev(Code(lens, s), lens[s])
  {
    s := Climb(lens, Rev(h, MAXBITS), 1);
    CodeFits(lens, s);
    RevPrefix(h, Code(lens, s), lens[s], MAXBITS);
  }

  // ---- The Kraft sum ----

  /** Sum of 2^-len over the coded symbols below n, in units of 2^-m. */
  function KraftSum(lens: seq<nat>, m: nat, n: nat): nat
    requires n <= |lens| && Bounded(lens, m)
  {
    if n == 0 then 0
    else KraftSum(lens, m, n - 1) + (if lens[n - 1] == 0 then 0 else Pow2(m - lens[n - 1]))
  }

  /** The same sum over the symbols below n whose codes are at most l long,
      in units of 2^-l. */
  function KraftUpTo(lens: seq<nat>, l: nat, n: nat): nat
    requires n <= |lens|
  {
    if n == 0 then 0
    else KraftUpTo(lens, l, n - 1) + (if 0 < lens[n - 1] <= l then Pow2(l - lens[n - 1]) else 0)
  }

  lemma {:induction false} KraftStep(lens: seq<nat>, l: nat, n: nat)
    requires n <= |lens| && l > 0
    ensures KraftUpTo(lens, l, n) == 2 * KraftUpTo(lens, l - 1, n) + CountIn(lens, l, n)
  {
    if n > 0 { KraftStep(lens, l, n - 1); }
  }

  lemma {:induction false} LeftIsKraft(lens: seq<nat>, l: nat)
    ensures Left(lens, l) == Pow2(l) - KraftUpTo(lens, l, |lens|)
  {
    if l > 0 {
      LeftIsKraft(lens, l - 1);
      KraftStep(lens, l, |lens|);
    } else {
      KraftZero(lens, |lens|);
    }
  }

  lemma {:induction false} KraftZero(lens: seq<nat>, n: nat)
    requires n <= |lens|
    ensures KraftUpTo(lens, 0, n) == 0
  {
    if n > 0 { KraftZero(lens, n - 1); }
  }

  lemma {:induction false} KraftAll(lens: seq<nat>, m: nat, n: nat)
    requires n <= |lens| && Bounded(lens, m)
    ensures KraftUpTo(lens, m, n) == KraftSum(lens, m, n)
  {
    if n > 0 { KraftAll(lens, m, n - 1); }
  }

  /** Over-subscribed, complete and incomplete are decided by the Kraft sum. */
  lemma KraftDecides(lens: seq<nat>)
    requires Bounded(lens, MAXBITS)
    ensures Fits(lens) <==> KraftSum(lens, MAXBITS, |lens|) <= Pow2(MAXBITS)
    ensures Complete(lens) <==> KraftSum(lens, MAXBITS, |lens|) == Pow2(MAXBITS)
  {
    LeftIsKraft(lens, MAXBITS);
    KraftAll(lens, MAXBITS, |lens|);
  }

  lemma {:induction false} NoSuchLength(lens: seq<nat>, m: nat, l: nat, n: nat)
    requires Bounded(lens, m) && m < l && n <= |lens|
    ensures CountIn(lens, l, n) == 0
  {
    if n > 0 { NoSuchLength(lens, m, l, n - 1); }
  }

  lemma {:induction false} NoneLonger(lens: seq<nat>, m: nat, l: nat)
    requires Bounded(lens, m) && m <= l && Left(lens, m) == 0
    ensures Left(lens, l) == 0
  {
    if m < l {
      NoneLonger(lens, m, l - 1);
      NoSuchLength(lens, m, l, |lens|);
    }
  }

  /** The same, measured in units of any bound on the lengths. */
  lemma KraftCompletes(lens: seq<nat>, m: nat)
    requires Bounded(lens, m) && m <= MAXBITS && KraftSum(lens, m, |lens|) == Pow2(m)
    ensures Complete(lens)
  {
    KraftAll(lens, m, |lens|);
    LeftIsKraft(lens, m);
    NoneLonger(lens, m, MAXBITS);
  }
}
