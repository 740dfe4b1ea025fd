/** The states of inflate (deps/libz/inflate.c, from HEAD to DONE), one step at a
    time, over the bits of the whole input: what a run decodes, whatever the
    pieces in which input and output space arrive.  wrap selects the zlib
    format (RFC 1950) over raw DEFLATE data (RFC 1951). */
module Machine {
  import opened Bits
  import opened Canonical
  import opened DecodeTable
  import opened Inftrees
  import opened FixedCodes
  import opened CodeLengths
  import opened BitWriter
  import opened BlockFormat
  import opened Adler32

  datatype Mode =
    | HEAD | DICTID | DICT | TYPE | STORED | COPY | TABLE | LENLENS | CODELENS
    | LEN | LENEXT | DIST | DISTEXT | MATCH | LIT | CHECK | DONE | BAD

  /** p bits are consumed and out is produced; lens are the code lengths read so
      far, lcode and dcode the lengths of the codes in use. */
  datatype State = State(
    mode: Mode, wrap: bool, last: bool, p: nat, out: seq<byte>,
    nlen: nat, ndist: nat, ncode: nat, lens: seq<nat>, lcode: seq<nat>, dcode: seq<nat>,
    length: nat, offset: nat, extra: nat)

  function Start(wrap: bool): State {
    State(HEAD, wrap, false, 0, [], 0, 0, 0, [], [], [], 0, 0, 0)
  }

  // ---- Decoding a symbol ----

  ghost predicate Leads(lens: seq<nat>, s: nat, b: seq<bool>) {
    s < |lens| && 0 < lens[s] <= |b| && Codeword(lens, s) <= b
  }

  /** The symbol below n whose code leads the bits. */
  ghost function SymbolAt(lens: seq<nat>, b: seq<bool>, n: nat): (r: Option<nat>)
    ensures r.Some? ==> r.value < n && Leads(lens, r.value, b)
    ensures r.None? ==> forall s :: 0 <= s < n ==> !Leads(lens, s, b)
  {
    if n == 0 then None else if Leads(lens, n - 1, b) then Some(n - 1) else SymbolAt(lens, b, n - 1)
  }

  /** The codes that inflate_table accepts; it also accepts no code at all. */
  ghost predicate Accepted(ty: CodeType, lens: seq<nat>) {
    |lens| <= MaxSymbols(ty) && Bounded(lens, MAXBITS) && (Longest(lens, MAXBITS) == 0 || Acceptable(ty, lens))
  }

  /** The entry for the code that leads the bits, None when they do not hold a
      whole code.  Bits that no code of an incomplete set begins are invalid. */
  ghost function Decode(ty: CodeType, lens: seq<nat>, b: seq<bool>): Option<Entry> {
    if |lens| > MaxSymbols(ty) then None
    else
      var r := SymbolAt(lens, b, |lens|);
      if r.Some? then Some(EntryFor(ty, r.value, lens[r.value]))
      else if Complete(lens) || b == [] then None
      else Some(INVALID_CODE)
  }

  lemma DecodeBits(ty: CodeType, lens: seq<nat>, b: seq<bool>)
    requires Decode(ty, lens, b).Some?
    ensures 1 <= Decode(ty, lens, b).value.bits <= |b|
  {
  }

  // ---- Steps ----

  /** What a step may do: append at most one byte, consume some of the n bits there are. */
  ghost predicate Grows(s: State, s': State, n: nat) {
    && s.out <= s'.out && |s'.out| <= |s.out| + 1 && s.p <= s'.p <= s.p + n && s'.wrap == s.wrap
  }

  /** The value of bits i to i + n - 1. */
  function Val(b: seq<bool>, i: nat, n: nat): nat
    requires i + n <= |b|
  {
    FromBits(b[i..i + n])
  }

  function Bad(s: State, n: nat): State { s.(mode := BAD, p := s.p + n) }

  function HeadStep(s: State, b: seq<bool>): (r: Option<State>)
    ensures r.Some? ==> Grows(s, r.value, |b|)
  {
    if !s.wrap then Some(s.(mode := TYPE))
    else if |b| < 16 then None
    else
      var cmf, flg := Val(b, 0, 8), Val(b, 8, 8);
      if (cmf * 256 + flg) % 31 != 0 || Val(b, 0, 4) != 8 then Some(Bad(s, 0))
      else if Val(b, 4, 4) + 8 > 15 then Some(Bad(s, 4))
      else Some(s.(mode := if b[13] then DICTID else TYPE, p := s.p + 16))
  }

  function TypeStep(s: State, b: seq<bool>): (r: Option<State>)
    ensures r.Some? ==> Grows(s, r.value, |b|)
  {
    if s.last then
      if |b| < Padding(s.p) then None else Some(s.(mode := CHECK, p := s.p + Padding(s.p)))
    else if |b| < 3 then None
    else
      var n := s.(last := b[0], p := s.p + 3);
      Some(match (b[1], b[2])
           case (false, false) => n.(mode := STORED)
           case (true, false) => n.(mode := LEN, lcode := FixedLens(), dcode := FixedDistLens())
           case (false, true) => n.(mode := TABLE)
           case (true, true) => n.(mode := BAD))
  }

  function StoredStep(s: State, b: seq<bool>): (r: Option<State>)
    ensures r.Some? ==> Grows(s, r.value, |b|)
  {
    if Padding(s.p) > 0 then
      if |b| < Padding(s.p) then None else Some(s.(p := s.p + Padding(s.p)))
    else if |b| < 32 then None
    else if Val(b, 0, 16) != 65535 - Val(b, 16, 16) then Some(Bad(s, 0))
    else Some(s.(mode := COPY, length := Val(b, 0, 16), p := s.p + 32))
  }

  function CopyStep(s: State, b: seq<bool>): (r: Option<State>)
    ensures r.Some? ==> Grows(s, r.value, |b|)
  {
    if s.length == 0 then Some(s.(mode := TYPE))
    else if |b| < 8 then None
    else Some(s.(out := s.out + [Val(b, 0, 8) % 256], length := s.length - 1, p := s.p + 8))
  }

  function TableStep(s: State, b: seq<bool>): (r: Option<State>)
    ensures r.Some? ==> Grows(s, r.value, |b|)
  {
    if |b| < 14 then None
    else
      var n := s.(nlen := Val(b, 0, 5) + 257, ndist := Val(b, 5, 5) + 1, ncode := Val(b, 10, 4) + 4, p := s.p + 14);
      Some(if n.nlen > 286 || n.ndist > 30 then n.(mode := BAD) else n.(mode := LENLENS, lens := []))
  }

  /** The code length code, from the lengths in transmission order. */
  function Ordered(lens: seq<nat>): (r: seq<nat>)
    ensures |r| == 19
  {
    seq(19, x requires 0 <= x < 19 => LengthOf(lens, x, |lens|))
  }

  /** The length given to symbol x by the first n lengths. */
  function LengthOf(lens: seq<nat>, x: nat, n: nat): nat
    requires n <= |lens|
  {
    if n == 0 then 0
    else if n <= 19 && BlOrder(n - 1) == x then lens[n - 1]
    else LengthOf(lens, x, n - 1)
  }

  ghost function LenLensStep(s: State, b: seq<bool>): (r: Option<State>)
    ensures r.Some? ==> Grows(s, r.value, |b|)
  {
    if |s.lens| < s.ncode then
      if |b| < 3 then None else Some(s.(lens := s.lens + [Val(b, 0, 3)], p := s.p + 3))
    else if !Accepted(CODES, Ordered(s.lens)) then Some(Bad(s, 0))
    else Some(s.(mode := CODELENS, lcode := Ordered(s.lens), lens := []))
  }

  ghost function CodeLensStep(s: State, b: seq<bool>): (r: Option<State>)
    ensures r.Some? ==> Grows(s, r.value, |b|)
  {
    if |s.lens| < s.nlen + s.ndist then
      var e := Decode(CODES, s.lcode, b);
      if e.None? || |b| < e.value.bits + ExtraBl(e.value.val) then None
      else Some(ItemStep(s, e.value.bits, ExtraBl(e.value.val),
                         Item(e.value.val, Val(b, e.value.bits, ExtraBl(e.value.val)))))
    else if |s.lens| <= 256 || s.lens[256] == 0 || s.nlen > |s.lens| then Some(Bad(s, 0))
    else if !Accepted(LENS, s.lens[..s.nlen]) || !Accepted(DISTS, s.lens[s.nlen..]) then Some(Bad(s, 0))
    else Some(s.(mode := LEN, lcode := s.lens[..s.nlen], dcode := s.lens[s.nlen..]))
  }

  /** One item of the code length alphabet, of bits + extra bits. */
  function ItemStep(s: State, bits: nat, extra: nat, item: Item): State {
    var r := Apply(s.lens, item);
    if r.None? then Bad(s, bits)
    else if |r.value| > s.nlen + s.ndist then Bad(s, bits + extra)
    else s.(lens := r.value, p := s.p + bits + extra)
  }

  ghost function LenStep(s: State, b: seq<bool>): (r: Option<State>)
    ensures r.Some? ==> Grows(s, r.value, |b|)
  {
    var e := Decode(LENS, s.lcode, b);
    if e.None? then None
    else
      DecodeBits(LENS, s.lcode, b);
      var n := s.(p := s.p + e.value.bits, length := e.value.val);
      Some(if e.value.op == 0 then n.(mode := LIT)
           else if e.value.op / 32 % 2 == 1 then n.(mode := TYPE)
           else if e.value.op / 64 % 2 == 1 then n.(mode := BAD)
           else n.(mode := LENEXT, extra := e.value.op % 16))
  }

  function LenExtStep(s: State, b: seq<bool>): (r: Option<State>)
    ensures r.Some? ==> Grows(s, r.value, |b|)
  {
    if |b| < s.extra then None
    else Some(s.(mode := DIST, length := s.length + Val(b, 0, s.extra), p := s.p + s.extra))
  }

  ghost function DistStep(s: State, b: seq<bool>): (r: Option<State>)
    ensures r.Some? ==> Grows(s, r.value, |b|)
  {
    var e := Decode(DISTS, s.dcode, b);
    if e.None? then None
    else
      DecodeBits(DISTS, s.dcode, b);
      var n := s.(p := s.p + e.value.bits);
      Some(if e.value.op / 64 % 2 == 1 then n.(mode := BAD)
           else n.(mode := DISTEXT, offset := e.value.val, extra := e.value.op % 16))
  }

  function DistExtStep(s: State, b: seq<bool>): (r: Option<State>)
    ensures r.Some? ==> Grows(s, r.value, |b|)
  {
    if |b| < s.extra then None
    else Some(s.(mode := MATCH, offset := s.offset + Val(b, 0, s.extra), p := s.p + s.extra))
  }

  /** Copy one byte of the match. */
  function MatchStep(s: State): (r: Option<State>)
    ensures r.Some? ==> Grows(s, r.value, 0)
  {
    if s.length == 0 || s.offset == 0 then None
    else if s.offset > |s.out| then Some(Bad(s, 0))
    else Some(s.(out := s.out + [s.out[|s.out| - s.offset]], length := s.length - 1,
                 mode := if s.length == 1 then LEN else MATCH))
  }

  function CheckStep(s: State, b: seq<bool>): (r: Option<State>)
    ensures r.Some? ==> Grows(s, r.value, |b|)
  {
    if !s.wrap then Some(s.(mode := DONE))
    else if |b| < 32 then None
    else if Swap(b) != Adler(s.out) then Some(Bad(s, 0))
    else Some(s.(mode := DONE, p := s.p + 32))
  }

  /** Four bytes, most significant first. */
  function Swap(b: seq<bool>): nat
    requires |b| >= 32
  {
    Val(b, 0, 8) * 0x1000000 + Val(b, 8, 8) * 0x10000 + Val(b, 16, 8) * 0x100 + Val(b, 24, 8)
  }

  /** One step with the unread bits b; None when they do not suffice, or at an end. */
  ghost function Step(s: State, b: seq<bool>): (r: Option<State>)
    ensures r.Some? ==> Grows(s, r.value, |b|)
  {
    match s.mode
    case HEAD => HeadStep(s, b)
    case DICTID => if |b| < 32 then None else Some(s.(mode := DICT, p := s.p + 32))
    case DICT => None
    case TYPE => TypeStep(s, b)
    case STORED => StoredStep(s, b)
    case COPY => CopyStep(s, b)
    case TABLE => TableStep(s, b)
    case LENLENS => LenLensStep(s, b)
    case CODELENS => CodeLensStep(s, b)
    case LEN => LenStep(s, b)
    case LENEXT => LenExtStep(s, b)
    case DIST => DistStep(s, b)
    case DISTEXT => DistExtStep(s, b)
    case MATCH => MatchStep(s)
    case LIT => Some(s.(mode := LEN, out := s.out + [s.length % 256]))
    case CHECK => CheckStep(s, b)
    case DONE => None
    case BAD => None
  }

  /** A step of a run over the bits t. */
  ghost function StepIn(s: State, t: seq<bool>): Option<State> {
    if s.p <= |t| then Step(s, t[s.p..]) else None
  }

  ghost function Steps(s: State, t: seq<bool>, n: nat): Option<State>
    decreases n
  {
    if n == 0 then Some(s)
    else
      var r := StepIn(s, t);
      if r.None? then None else Steps(r.value, t, n - 1)
  }

  /** s' can be reached from s. */
  ghost predicate Reaches(s: State, t: seq<bool>, s': State) {
    exists n: nat :: Steps(s, t, n) == Some(s')
  }

  // ---- The codes in use are decodable ----

  ghost predicate Sound(s: State) {
    && (s.mode == CODELENS ==> Accepted(CODES, s.lcode))
    && (s.mode == LEN || s.mode == LENEXT || s.mode == DIST || s.mode == DISTEXT || s.mode == MATCH || s.mode == LIT ==>
        Accepted(LENS, s.lcode) && Accepted(DISTS, s.dcode))
    && (s.mode == LENEXT || s.mode == DIST || s.mode == DISTEXT || s.mode == MATCH ==> s.length > 0)
    && (s.mode == DISTEXT || s.mode == MATCH ==> s.offset > 0)
    && (s.mode == DISTEXT ==> s.offset + Pow2(s.extra) <= 32769) && (s.mode == MATCH ==> s.offset <= 32768)
    && (s.mode == LENEXT || s.mode == DISTEXT ==> s.extra <= 13)
    && (s.mode == CODELENS ==> |s.lens| <= s.nlen + s.ndist)
    && (s.mode == LENLENS ==> |s.lens| <= s.ncode)
    && (s.mode == LENLENS || s.mode == CODELENS ==> 257 <= s.nlen <= 286 && 1 <= s.ndist <= 30 && 4 <= s.ncode <= 19)
    && (s.mode == LIT ==> s.length < 256) && (s.mode == COPY ==> s.length < 65536)
    && (s.mode == HEAD || s.mode == DICTID || s.mode == DICT ==> s.out == [])
    && (s.mode == HEAD || s.mode == DICTID || s.mode == COPY || s.mode == CHECK ==> s.p % 8 == 0)
  }

  lemma FixedAccepted()
    ensures Accepted(LENS, FixedLens()) && Accepted(DISTS, FixedDistLens())
  {
    FixedComplete();
    FixedDistComplete();
  }
}
