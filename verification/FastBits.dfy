/** The bit buffer of inflate_fast (deps/libz/inffast.c): bytes are pulled without
    checking, two at a time, and unused ones are given back at the end. */
module FastBits {
  import opened Bits
  import opened DecodeTable
  import opened CodeLengths
  import opened Machine
  import opened MachineLaws
  import opened BitBuffer
  import opened SymbolStates

  /** The input byte up to which bits are used, but not before next0. */
  function Back(next0: nat, b: Buffer): nat {
    if b.bits / 8 <= b.next && b.next - b.bits / 8 > next0 then b.next - b.bits / 8 else next0
  }

  /** The machine has come to a with the bytes before Back alone. */
  ghost predicate Fast(wrap: bool, t0: seq<bool>, input: seq<byte>, next0: nat, b: Buffer, a: State) {
    && Held(t0, input, b, a.p) && next0 <= b.next
    && Follows(wrap, Stream(t0, input, Back(next0, b)), a)
  }

  // ---- Steps need no more bits than they use ----

  lemma ValLess(t: seq<bool>, n: nat, p: nat, k: nat)
    requires p + k <= n <= |t|
    ensures Val(t[..n][p..], 0, k) == Val(t[p..], 0, k)
  {
    assert t[..n][p..][0..k] == t[p..][0..k];
  }

  lemma DecodeWithin(ty: CodeType, lens: seq<nat>, t: seq<bool>, n: nat, p: nat)
    requires p <= n <= |t| && Accepted(ty, lens) && Decode(ty, lens, t[p..]).Some?
    requires p + Decode(ty, lens, t[p..]).value.bits <= n
    ensures Decode(ty, lens, t[..n][p..]) == Decode(ty, lens, t[p..])
  {
    hide Decode, Accepted;
    assert t[p..] == t[..n][p..] + t[n..];
    DecodeLess(ty, lens, t[..n][p..], t[n..]);
  }

  lemma StepLess(a: State, t: seq<bool>, n: nat)
    requires Sound(a) && (a.mode == LEN || a.mode == LENEXT || a.mode == DIST || a.mode == DISTEXT)
    requires StepIn(a, t).Some? && StepIn(a, t).value.p <= n <= |t|
    ensures StepIn(a, t[..n]) == StepIn(a, t)
  {
    hide Decode, Accepted, Grows, StepIn, Val;
    StepBefore(a, t);
    if a.mode == LEN {
      LenFacts(a, t);
      DecodeWithin(LENS, a.lcode, t, n, a.p);
      LenFacts(a, t[..n]);
    } else if a.mode == DIST {
      DistFacts(a, t);
      DecodeWithin(DISTS, a.dcode, t, n, a.p);
      DistFacts(a, t[..n]);
    } else {
      ExtraLess(a, t, n);
    }
  }

  lemma StepBefore(a: State, t: seq<bool>)
    requires StepIn(a, t).Some?
    ensures a.p <= |t| && a.p <= StepIn(a, t).value.p
  {
    hide Step;
    StepGrows(a, t[a.p..]);
  }

  lemma ExtraLess(a: State, t: seq<bool>, n: nat)
    requires (a.mode == LENEXT || a.mode == DISTEXT) && StepIn(a, t).Some? && StepIn(a, t).value.p <= n <= |t|
    ensures StepIn(a, t[..n]) == StepIn(a, t)
  {
    hide Grows, Val;
    ValLess(t, n, a.p, a.extra);
  }

  // ---- Pulling and dropping ----

  /** hold += *in++ << bits; bits += 8 */
  method Pull(input: seq<byte>, b0: Buffer, wrap: bool, ghost t0: seq<bool>, ghost next0: nat, ghost a: State)
    returns (b: Buffer)
    requires Fast(wrap, t0, input, next0, b0, a) && b0.next < |input| && b0.bits <= 24
    ensures Fast(wrap, t0, input, next0, b, a) && b.next == b0.next + 1 && b.bits == b0.bits + 8
  {
    hide Follows, Stream, Held;
    var ok;
    ok, b := PullByte(input, b0, t0, a.p);
  }

  lemma FastFacts(wrap: bool, t0: seq<bool>, input: seq<byte>, next0: nat, b: Buffer, a: State)
    requires Fast(wrap, t0, input, next0, b, a)
    ensures Held(t0, input, b, a.p) && b.next <= |input| && a.p + b.bits == |Stream(t0, input, b.next)|
    ensures a.p <= |Stream(t0, input, b.next)|
    ensures Buffered(b.hold, b.bits, Stream(t0, input, b.next), a.p) && Sound(a) && |t0| % 8 == 0 && b.bits <= 32
  {
    hide Reaches, Sound, FromBits;
  }

  lemma BackReaches(t0: seq<bool>, input: seq<byte>, next0: nat, b: Buffer, q: nat)
    requires Held(t0, input, b, q) && next0 <= b.next
    ensures Back(next0, b) <= b.next <= |input| && q <= |Stream(t0, input, Back(next0, b))|
    ensures Stream(t0, input, Back(next0, b)) == Stream(t0, input, b.next)[..|Stream(t0, input, Back(next0, b))|]
  {
    hide BytesToBits, FromBits;
    StreamPrefix(t0, input, Back(next0, b), b.next);
    StreamLength(t0, input, b.next);
    StreamLength(t0, input, Back(next0, b));
  }

  lemma StreamLength(t0: seq<bool>, input: seq<byte>, n: nat)
    requires n <= |input|
    ensures |Stream(t0, input, n)| == |t0| + 8 * n
  {
  }

  lemma BackGrows(next0: nat, b: Buffer, b': Buffer)
    requires b'.next == b.next && b'.bits <= b.bits
    ensures Back(next0, b) <= Back(next0, b')
  {
  }

  /** A step of the machine, its bits dropped. */
  lemma FastStep(wrap: bool, t0: seq<bool>, input: seq<byte>, next0: nat, b: Buffer, a: State, n: nat, a': State)
    requires Fast(wrap, t0, input, next0, b, a) && StepIn(a, Stream(t0, input, b.next)) == Some(a')
    requires a.mode == LEN || a.mode == LENEXT || a.mode == DIST || a.mode == DISTEXT
    requires n <= b.bits && a'.p == a.p + n
    ensures Fast(wrap, t0, input, next0, Drop(b, n), a')
  {
    hide *;
    FastFacts(wrap, t0, input, next0, b, a);
    FastBack(wrap, t0, input, next0, b, a);
    Dropped(t0, input, b, a.p, n);
    var b' := Drop(b, n);
    DropSize(b, n);
    BackGrows(next0, b, b');
    BackReaches(t0, input, next0, b', a'.p);
    BackReaches(t0, input, next0, b, a.p);
    StreamPrefix(t0, input, Back(next0, b), Back(next0, b'));
    var s := Stream(t0, input, Back(next0, b'));
    FollowsMore(wrap, Stream(t0, input, Back(next0, b)), s, a);
    StepLess(a, Stream(t0, input, b.next), |s|);
    FollowsStep(wrap, s, a, a');
    FastIs(wrap, t0, input, next0, b', a');
  }

  lemma FastBack(wrap: bool, t0: seq<bool>, input: seq<byte>, next0: nat, b: Buffer, a: State)
    requires Fast(wrap, t0, input, next0, b, a)
    ensures next0 <= b.next && Follows(wrap, Stream(t0, input, Back(next0, b)), a)
  {
    hide Follows, Stream, Held;
  }

  lemma FastIs(wrap: bool, t0: seq<bool>, input: seq<byte>, next0: nat, b: Buffer, a: State)
    requires Held(t0, input, b, a.p) && next0 <= b.next && Follows(wrap, Stream(t0, input, Back(next0, b)), a)
    ensures Fast(wrap, t0, input, next0, b, a)
  {
    hide Follows, Stream, Held;
  }

  // ---- Giving back unused bytes ----

  /** in -= bits >> 3; bits &= 7; hold &= (1 << bits) - 1 */
  function GiveBack(b: Buffer): Buffer
    requires b.bits / 8 <= b.next
  {
    Buffer(Low(b.hold, b.bits % 8), b.bits % 8, b.next - b.bits / 8)
  }

  lemma GivenBack(wrap: bool, t0: seq<bool>, input: seq<byte>, next0: nat, b: Buffer, a: State)
    requires Fast(wrap, t0, input, next0, b, a) && b.bits / 8 <= b.next && next0 <= b.next - b.bits / 8
    ensures Held(t0, input, GiveBack(b), a.p) && Follows(wrap, Stream(t0, input, GiveBack(b).next), a)
  {
    hide Follows, Low, FromBits, BytesToBits;
    var n := b.next - b.bits / 8;
    assert Back(next0, b) == n;
    StreamPrefix(t0, input, n, b.next);
    StreamLength(t0, input, b.next);
    StreamLength(t0, input, n);
    var t, s := Stream(t0, input, b.next), Stream(t0, input, n);
    hide Stream;
    FromBitsSplit(t[a.p..], b.bits % 8);
    assert t[a.p..][..b.bits % 8] == s[a.p..];
  }
}
