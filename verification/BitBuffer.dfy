/** The bit buffer of inflate (deps/libz/inflate.c: PULLBYTE, NEEDBITS, BITS,
    DROPBITS, INITBITS, BYTEBITS), and how its registers follow the decoding machine. */
module BitBuffer {
  import opened Bits
  import opened CodeLengths
  import opened BlockReader
  import opened Machine
  import opened MachineLaws

  /** hold with its number of bits, and the next input byte. */
  datatype Buffer = Buffer(hold: nat, bits: nat, next: nat)

  /** Where a table starts, in the tables of the fixed codes or the current ones. */
  datatype Table = Table(fixed: bool, at: nat, root: nat)

  /** The state that inflate keeps, with the registers it loads for a call. */
  datatype Regs = Regs(
    mode: Mode, last: bool, b: Buffer, length: nat, offset: nat, extra: nat,
    nlen: nat, ndist: nat, ncode: nat, have: nat, lencode: Table, distcode: Table)

  /** All bits of the input up to byte next of this call. */
  function Stream(t0: seq<bool>, input: seq<byte>, next: nat): (t: seq<bool>)
    ensures next <= |input| ==> |t| == |t0| + 8 * next
  {
    t0 + BytesToBits(if next <= |input| then input[..next] else input)
  }

  /** hold has exactly the bits of t from position q on. */
  ghost predicate Buffered(hold: nat, bits: nat, t: seq<bool>, q: nat) {
    q + bits == |t| && hold == FromBits(t[q..])
  }

  ghost predicate Held(t0: seq<bool>, input: seq<byte>, b: Buffer, q: nat) {
    b.next <= |input| && |t0| % 8 == 0 && b.bits <= 32 && Buffered(b.hold, b.bits, Stream(t0, input, b.next), q)
  }

  lemma BufferPull(hold: nat, bits: nat, t: seq<bool>, q: nat, x: byte)
    requires Buffered(hold, bits, t, q)
    ensures Buffered(hold + Shl(x, bits), bits + 8, t + ToBits(x, 8), q)
  {
    Pow2Values();
    hide FromBits, ToBits, Shl, Pow2;
    FromBitsConcat(t[q..], ToBits(x, 8));
    assert (t + ToBits(x, 8))[q..] == t[q..] + ToBits(x, 8);
    FromToBits(x, 8);
    LowSmall(x, 8);
  }

  lemma StreamGrows(t0: seq<bool>, input: seq<byte>, next: nat)
    requires next < |input|
    ensures Stream(t0, input, next + 1) == Stream(t0, input, next) + ToBits(input[next], 8)
  {
    hide BytesToBits, ToBits;
    assert input[..next + 1] == input[..next] + [input[next]];
    BytesPush(input[..next], input[next]);
  }

  lemma StreamPrefix(t0: seq<bool>, input: seq<byte>, n: nat, m: nat)
    requires n <= m <= |input|
    ensures Stream(t0, input, n) <= Stream(t0, input, m)
    ensures Stream(t0, input, m) == Stream(t0, input, n) + BytesToBits(input[n..m])
  {
    hide BytesToBits;
    assert input[..m] == input[..n] + input[n..m];
    BytesConcat(input[..n], input[n..m]);
  }

  /** PULLBYTE */
  method PullByte(input: seq<byte>, b0: Buffer, ghost t0: seq<bool>, ghost q: nat) returns (ok: bool, b: Buffer)
    requires Held(t0, input, b0, q) && b0.bits <= 24
    ensures Held(t0, input, b, q) && (ok <==> b0.next < |input|)
    ensures if ok then b.next == b0.next + 1 && b.bits == b0.bits + 8 else b == b0 && b.next == |input|
  {
    hide Buffered, BytesToBits, ToBits, Shl, Stream;
    if b0.next == |input| { return false, b0; }
    BufferPull(b0.hold, b0.bits, Stream(t0, input, b0.next), q, input[b0.next]);
    StreamGrows(t0, input, b0.next);
    b := Buffer(b0.hold + Shl(input[b0.next], b0.bits), b0.bits + 8, b0.next + 1);
    ok := true;
  }

  /** NEEDBITS(n): pull bytes until there are n bits; false when the input is used up. */
  method NeedBits(input: seq<byte>, b0: Buffer, n: nat, ghost t0: seq<bool>, ghost q: nat) returns (ok: bool, b: Buffer)
    requires Held(t0, input, b0, q) && n <= 32 && (b0.bits < n ==> n <= 25 || b0.bits % 8 == 0)
    ensures Held(t0, input, b, q) && b0.next <= b.next && b.bits % 8 == b0.bits % 8
    ensures ok ==> n <= b.bits && (b.bits < n + 8 || b == b0) && (b0.bits >= n ==> b == b0)
    ensures !ok ==> b.next == |input| && b.bits < n
  {
    hide Held;
    b := b0;
    while b.bits < n
      invariant Held(t0, input, b, q) && b0.next <= b.next && b.bits % 8 == b0.bits % 8
      invariant b == b0 || b.bits < n + 8
      invariant b0.bits >= n ==> b == b0
      decreases n - b.bits
    {
      var pulled;
      pulled, b := PullByte(input, b, t0, q);
      if !pulled { return false, b; }
      OneByteMore(b.bits);
    }
    ok := true;
  }

  lemma OneByteMore(n: nat)
    ensures n >= 8 ==> n % 8 == (n - 8) % 8
  {
  }

  /** DROPBITS(n) */
  function Drop(b: Buffer, n: nat): Buffer
    requires n <= b.bits
  {
    Buffer(Shr(b.hold, n), b.bits - n, b.next)
  }

  lemma DropSize(b: Buffer, n: nat)
    requires n <= b.bits
    ensures Drop(b, n).next == b.next && Drop(b, n).bits == b.bits - n
  {
  }

  lemma Dropped(t0: seq<bool>, input: seq<byte>, b: Buffer, q: nat, n: nat)
    requires Held(t0, input, b, q) && n <= b.bits
    ensures Held(t0, input, Drop(b, n), q + n)
  {
    hide FromBits, Shr, Low, BytesToBits;
    var t := Stream(t0, input, b.next);
    FromBitsSplit(t[q..], n);
    assert t[q..][n..] == t[q + n..];
  }

  /** INITBITS */
  function Init(b: Buffer): Buffer { Buffer(0, 0, b.next) }

  lemma Cleared(t0: seq<bool>, input: seq<byte>, b: Buffer, q: nat)
    requires Held(t0, input, b, q)
    ensures Held(t0, input, Init(b), q + b.bits)
  {
    hide BytesToBits;
    var t := Stream(t0, input, b.next);
    assert t[q + b.bits..] == [];
  }

  /** BITS(n) after i bits have been dropped. */
  lemma Peek(hold: nat, bits: nat, t: seq<bool>, q: nat, i: nat, n: nat)
    requires Buffered(hold, bits, t, q) && i + n <= bits
    ensures |t[q..]| == bits && Low(Shr(hold, i), n) == Val(t[q..], i, n)
    ensures Low(hold, n) == Val(t[q..], 0, n)
    ensures i + n == bits ==> Shr(hold, i) == Val(t[q..], i, n)
  {
    hide FromBits, Low, Shr;
    var b := t[q..];
    FromBitsSplit(b, i);
    FromBitsSplit(b[i..], n);
    FromBitsSplit(b, n);
    assert b[i..][..n] == b[i..i + n] && b[0..n] == b[..n];
    if i + n == bits { assert b[i..] == b[i..i + n]; }
  }

  /** One bit. */
  lemma PeekBit(hold: nat, bits: nat, t: seq<bool>, q: nat, i: nat)
    requires Buffered(hold, bits, t, q) && i < bits
    ensures |t[q..]| == bits && (Shr(hold, i) % 2 == 1 <==> t[q..][i])
  {
    hide Low, Shr;
    FromBitsSplit(t[q..], i);
    assert t[q..][i..][0] == t[q..][i];
  }

  // ---- Following the machine ----

  ghost predicate NeedsOut(s: State) { s.mode == MATCH || s.mode == LIT || (s.mode == COPY && s.length > 0) }

  ghost predicate Follows(wrap: bool, t: seq<bool>, a: State) {
    Sound(a) && a.wrap == wrap && Reaches(Start(wrap), t, a)
  }

  /** Modes in which no register but last matters. */
  predicate Plain(m: Mode) {
    m == HEAD || m == DICTID || m == DICT || m == TYPE || m == STORED || m == TABLE || m == LEN || m == CHECK
      || m == DONE || m == BAD
  }

  /** The registers that matter in each mode are those of the machine. */
  ghost predicate Fields(r: Regs, a: State) {
    && r.mode == a.mode && r.last == a.last
    && (r.mode == LENLENS || r.mode == CODELENS ==> r.nlen == a.nlen && r.ndist == a.ndist && r.ncode == a.ncode)
    && (!Plain(r.mode) && r.mode != LENLENS && r.mode != CODELENS ==> r.length == a.length)
    && (r.mode == DISTEXT || r.mode == MATCH ==> r.offset == a.offset)
    && (r.mode == LENEXT || r.mode == DISTEXT ==> r.extra == a.extra)
  }

  /** Bytes are pulled only when the bits at hand do not suffice for a step. */
  ghost predicate Lazy(bits: nat, a: State, t: seq<bool>) {
    && (bits >= 8 && a.mode != BAD ==> StepIn(a, t).None? && !NeedsOut(a))
    && (a.mode == COPY || a.mode == DONE ==> bits == 0)
  }

  /** The bits for a step have been pulled. */
  ghost predicate Got(wrap: bool, t0: seq<bool>, input: seq<byte>, r: Regs, a: State) {
    Held(t0, input, r.b, a.p) && Fields(r, a) && Follows(wrap, Stream(t0, input, r.b.next), a)
  }

  /** Between two steps. */
  ghost predicate Idle(wrap: bool, t0: seq<bool>, input: seq<byte>, r: Regs, a: State) {
    Got(wrap, t0, input, r, a) && Lazy(r.b.bits, a, Stream(t0, input, r.b.next)) && AtEnds(r.b, r.mode, |input|)
  }

  /** Only a call that has pulled nothing yet, or has used up its n bytes, holds a byte or more. */
  predicate AtEnds(b: Buffer, m: Mode, n: nat) {
    b.bits >= 8 && m != BAD && m != DICT ==> b.next == 0 || b.next == n
  }

  /** A reachable state stays reachable when more input is known. */
  lemma FollowsMore(wrap: bool, t: seq<bool>, t': seq<bool>, a: State)
    requires Follows(wrap, t, a) && t <= t'
    ensures Follows(wrap, t', a)
  {
    hide Sound, Steps;
    StartSound(wrap);
    var n: nat :| Steps(Start(wrap), t, n) == Some(a);
    assert t' == t + t'[|t|..];
    RunMore(Start(wrap), t, t'[|t|..], n);
  }

  lemma FollowsStep(wrap: bool, t: seq<bool>, a: State, a': State)
    requires Follows(wrap, t, a) && StepIn(a, t) == Some(a')
    ensures Follows(wrap, t, a')
  {
    hide Sound, Reaches, StepIn;
    StepInMore(a, t, []);
    StepInWrap(a, t);
    ReachStep(Start(wrap), t, a, a');
  }

  lemma StepInWrap(a: State, t: seq<bool>)
    requires StepIn(a, t).Some?
    ensures StepIn(a, t).value.wrap == a.wrap
  {
    hide Step;
    StepGrows(a, t[a.p..]);
  }

  lemma EndSteps(a: State, t: seq<bool>)
    requires a.mode == BAD || a.mode == DONE || a.mode == DICT
    ensures StepIn(a, t).None? && !NeedsOut(a)
  {
  }

  /** The state after a step that can be made. */
  ghost function After(a: State, t: seq<bool>): State {
    var s := StepIn(a, t);
    if s.Some? then s.value else a
  }

  lemma GotFacts(wrap: bool, t0: seq<bool>, input: seq<byte>, r: Regs, a: State)
    requires Got(wrap, t0, input, r, a)
    ensures r.b.next <= |input| && a.wrap == wrap && Sound(a) && Held(t0, input, r.b, a.p)
    ensures |Stream(t0, input, r.b.next)| % 8 == 0 && a.p + r.b.bits == |Stream(t0, input, r.b.next)| && r.b.bits <= 32
    ensures Buffered(r.b.hold, r.b.bits, Stream(t0, input, r.b.next), a.p)
    ensures r.mode == a.mode && r.last == a.last
  {
    hide Sound, Reaches, FromBits;
  }

  lemma GotFields(wrap: bool, t0: seq<bool>, input: seq<byte>, r: Regs, a: State)
    requires Got(wrap, t0, input, r, a)
    ensures Fields(r, a)
  {
    hide Follows, Held, Fields;
  }

  lemma GotFollows(wrap: bool, t0: seq<bool>, input: seq<byte>, r: Regs, a: State)
    requires Got(wrap, t0, input, r, a)
    ensures Follows(wrap, Stream(t0, input, r.b.next), a)
  {
    hide Follows, Stream, Held, Fields;
  }

  lemma IdleGot(wrap: bool, t0: seq<bool>, input: seq<byte>, r: Regs, a: State)
    requires Idle(wrap, t0, input, r, a)
    ensures Got(wrap, t0, input, r, a) && Lazy(r.b.bits, a, Stream(t0, input, r.b.next))
  {
    hide Got, Lazy;
  }

  /** More bytes pulled. */
  lemma GotMore(wrap: bool, t0: seq<bool>, input: seq<byte>, r: Regs, a: State, b: Buffer)
    requires Got(wrap, t0, input, r, a) && Held(t0, input, b, a.p) && r.b.next <= b.next
    ensures Got(wrap, t0, input, r.(b := b), a)
  {
    hide Follows, StepIn, Buffered, Fields;
    StreamPrefix(t0, input, r.b.next, b.next);
    FollowsMore(wrap, Stream(t0, input, r.b.next), Stream(t0, input, b.next), a);
    FieldsBuffer(r, a, b);
  }

  lemma FieldsBuffer(r: Regs, a: State, b: Buffer)
    requires Fields(r, a)
    ensures Fields(r.(b := b), a)
  {
  }

  lemma FieldsMode(r: Regs, a: State)
    requires Fields(r, a)
    ensures r.mode == a.mode
  {
  }

  /** The registers r' after a step of the machine. */
  lemma Moved(wrap: bool, t0: seq<bool>, input: seq<byte>, r: Regs, a: State, r': Regs, a': State)
    requires Got(wrap, t0, input, r, a) && StepIn(a, Stream(t0, input, r.b.next)) == Some(a')
    requires Held(t0, input, r'.b, a'.p) && r'.b.next == r.b.next && Fields(r', a')
    requires r'.b.bits < 8 || a'.mode == BAD || a'.mode == DICT
    requires a'.mode == COPY || a'.mode == DONE ==> r'.b.bits == 0
    ensures Idle(wrap, t0, input, r', a')
  {
    hide Follows, StepIn, Held, Fields;
    FollowsStep(wrap, Stream(t0, input, r.b.next), a, a');
    FieldsMode(r', a');
    if a'.mode == DICT { EndSteps(a', Stream(t0, input, r.b.next)); }
  }

  lemma MovedPlain(wrap: bool, t0: seq<bool>, input: seq<byte>, r: Regs, a: State, r': Regs, a': State)
    requires Got(wrap, t0, input, r, a) && StepIn(a, Stream(t0, input, r.b.next)) == Some(a')
    requires Held(t0, input, r'.b, a'.p) && r'.b.next == r.b.next && r'.mode == a'.mode && r'.last == a'.last
    requires Plain(r'.mode)
    requires r'.b.bits < 8 || r'.mode == BAD || r'.mode == DICT
    requires r'.mode == DONE ==> r'.b.bits == 0
    ensures Idle(wrap, t0, input, r', a')
  {
    hide Got, Held, StepIn, Idle, Stream;
    Moved(wrap, t0, input, r, a, r', a');
  }

  /** No step is possible yet: more input was pulled, and there is no more. */
  lemma Waiting(wrap: bool, t0: seq<bool>, input: seq<byte>, r: Regs, a: State)
    requires Got(wrap, t0, input, r, a) && StepIn(a, Stream(t0, input, r.b.next)).None?
    requires !NeedsOut(a) && a.mode != DONE && a.mode != COPY && r.b.next == |input|
    ensures Idle(wrap, t0, input, r, a)
  {
    hide Follows, StepIn, Held, Fields;
  }
}
