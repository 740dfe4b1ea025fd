/** Literals and matches, and the bits that stand for them (deps/libz/trees.c:
    compress_block; section 3.2.5 of RFC 1951). */
module Tokens {
  import opened Bits
  import opened Canonical
  import opened MatchCodes
  import opened TreeCoding

  const END_BLOCK: nat := 256

  /** A literal byte, or a match of lc + 3 bytes at distance dist. */
  datatype Token = Literal(c: byte) | Match(lc: byte, dist: nat)

  ghost predicate TokenOk(t: Token) { t.Match? ==> 1 <= t.dist <= 32768 }

  ghost predicate TokensOk(ts: seq<Token>) { forall i :: 0 <= i < |ts| ==> TokenOk(ts[i]) }

  ghost predicate Literals(ts: seq<Token>) { forall i :: 0 <= i < |ts| ==> ts[i].Literal? }

  /** Entries of d_buf and l_buf. */
  function TokenAt(d: nat, l: byte): Token { if d == 0 then Literal(l) else Match(l, d) }

  function TokensOf(d: seq<nat>, l: seq<byte>): (ts: seq<Token>)
    requires |d| == |l|
    ensures |ts| == |d|
  {
    seq(|d|, i requires 0 <= i < |d| => TokenAt(d[i], l[i]))
  }

  /** The tables of length and distance codes. */
  datatype Tables = Tables(baseLength: seq<nat>, lengthCode: seq<nat>, baseDist: seq<nat>, distCode: seq<nat>)

  ghost predicate TablesOk(t: Tables) {
    LengthTables(t.baseLength, t.lengthCode) && DistTables(t.baseDist, t.distCode)
  }

  /** The literal or length symbol of a token. */
  function LitSym(tb: Tables, t: Token): nat
    requires TablesOk(tb)
  {
    match t case Literal(c) => c case Match(lc, _) => tb.lengthCode[lc] + 257
  }

  function DistSym(tb: Tables, t: Token): nat
    requires TablesOk(tb) && TokenOk(t) && t.Match?
  {
    DCode(tb.distCode, t.dist - 1)
  }

  lemma SymBounds(tb: Tables, t: Token)
    requires TablesOk(tb) && TokenOk(t)
    ensures LitSym(tb, t) < 286 && LitSym(tb, t) != END_BLOCK
    ensures t.Match? ==> DistSym(tb, t) < 30 && DistIn(DistSym(tb, t), t.dist - 1)
    ensures t.Match? && t.lc != 255 ==> LitSym(tb, t) < 285 && LengthIn(LitSym(tb, t) - 257, t.lc)
    ensures t.Match? && t.lc == 255 ==> LitSym(tb, t) == 285
  {
    hide LengthIn, DistIn;
  }

  /** The extra bits of a length. */
  function LengthExtra(tb: Tables, lc: byte): (v: nat)
    requires TablesOk(tb)
    ensures v < Pow2(ExtraL(tb.lengthCode[lc]))
  {
    if lc == 255 then 0 else
      assert LengthIn(tb.lengthCode[lc], lc);
      lc - BaseLength(tb.lengthCode[lc])
  }

  function DistExtra(tb: Tables, dist: nat): (v: nat)
    requires TablesOk(tb) && 1 <= dist <= 32768
    ensures v < Pow2(ExtraD(DCode(tb.distCode, dist - 1)))
  {
    assert DistIn(DCode(tb.distCode, dist - 1), dist - 1);
    dist - 1 - BaseDist(DCode(tb.distCode, dist - 1))
  }

  /** The codes ll and dl have a code for every symbol of t. */
  ghost predicate Coded(tb: Tables, ll: seq<nat>, dl: seq<nat>, t: Token)
    requires TablesOk(tb)
  {
    && TokenOk(t) && LitSym(tb, t) < |ll| && ll[LitSym(tb, t)] > 0
    && (t.Match? ==> DistSym(tb, t) < |dl| && dl[DistSym(tb, t)] > 0)
  }

  function TokenBits(tb: Tables, ll: seq<nat>, dl: seq<nat>, t: Token): seq<bool>
    requires TablesOk(tb) && Coded(tb, ll, dl, t)
  {
    match t
    case Literal(c) => Codeword(ll, LitSym(tb, t))
    case Match(lc, dist) =>
      Codeword(ll, LitSym(tb, t)) + ToBits(LengthExtra(tb, lc), ExtraL(tb.lengthCode[lc]))
      + Codeword(dl, DistSym(tb, t)) + ToBits(DistExtra(tb, dist), ExtraD(DistSym(tb, t)))
  }

  ghost predicate AllCoded(tb: Tables, ll: seq<nat>, dl: seq<nat>, ts: seq<Token>) {
    TablesOk(tb) && forall i :: 0 <= i < |ts| ==> Coded(tb, ll, dl, ts[i])
  }

  function AllTokenBits(tb: Tables, ll: seq<nat>, dl: seq<nat>, ts: seq<Token>): seq<bool>
    requires AllCoded(tb, ll, dl, ts)
  {
    if ts == [] then []
    else TokenBits(tb, ll, dl, ts[0]) + AllTokenBits(tb, ll, dl, ts[1..])
  }

  /** A whole block after its header: the tokens and the end-of-block code. */
  function BlockBody(tb: Tables, ll: seq<nat>, dl: seq<nat>, ts: seq<Token>): seq<bool>
    requires AllCoded(tb, ll, dl, ts) && END_BLOCK < |ll|
  {
    AllTokenBits(tb, ll, dl, ts) + Codeword(ll, END_BLOCK)
  }

  // ---- compress_block ----

  /** The n codes and lengths of one tree. */
  ghost predicate TreeOf(fc: seq<nat>, dl: seq<nat>, lens: seq<nat>, n: nat) {
    |fc| == |dl| >= n && CodesOf(fc, dl, lens)
  }

  /** Compute the tables of length and distance codes. */
  method InitTables() returns (t: Tables)
    ensures TablesOk(t)
  {
    var baseLength := new nat[29](i => 0);
    var lengthCode := new nat[256](i => 0);
    var baseDist := new nat[30](i => 0);
    var distCode := new nat[512](i => 0);
    hide LengthTables, DistTables, LowDists, HighDists;
    InitLengthTables(baseLength, lengthCode);
    InitLowDists(baseDist, distCode);
    InitHighDists(baseDist, distCode);
    DistTablesFrom(baseDist[..], distCode[..]);
    t := Tables(baseLength[..], lengthCode[..], baseDist[..], distCode[..]);
  }
}
