/** inflate_fast (deps/libz/inffast.c): decode while there are six bytes of input
    and 258 bytes of room, without checking either inside an iteration. */
module InflateFast {
  import opened Bits
  import opened Canonical
  import opened DecodeTable
  import opened CodeLengths
  import opened BlockReader
  import opened Machine
  import opened MachineLaws
  import opened TableDecoding
  import opened BitBuffer
  import opened InflateStates
  import opened SymbolReader
  import opened SymbolStates
  import opened OutputStates
  import opened Window
  import opened FastBits
  import opened FastCopy

  lemma DropDrop(b: Buffer, i: nat, j: nat)
    requires i + j <= b.bits
    ensures Drop(Drop(b, i), j) == Drop(b, i + j)
  {
    ShrShr(b.hold, i, j);
  }

  /** dolen, dodist: with 15 bits or more the symbol is there. */
  method FastSymbol(input: seq<byte>, b0: Buffer, tab: array<Entry>, at: nat, root: nat, ghost t0: seq<bool>,
                    ghost q: nat, ghost ty: CodeType, ghost lens: seq<nat>)
    returns (here: Entry, b: Buffer)
    requires Held(t0, input, b0, q) && TableFor(ty, lens, tab[..], at, root) && b0.bits >= 15
    ensures q <= |Stream(t0, input, b0.next)| && Decode(ty, lens, Stream(t0, input, b0.next)[q..]) == Some(here)
    ensures 1 <= here.bits <= 15 && b == Drop(b0, here.bits)
  {
    hide Held, Stream, TableFor, Decode, Low, Shr, FromBits, Agrees;
    HeldBits(t0, input, b0, q);
    ghost var s := Stream(t0, input, b0.next)[q..];
    TableDecodes(ty, lens, tab[..], at, root, s);
    FirstLookup(ty, lens, tab[..], at, root, s);
    RootBound(ty, lens, tab[..], at, root);
    here := tab[at + Low(b0.hold, root)];
    if IsLink(here) {
      SecondLookup(ty, lens, tab[..], at, root, s, here);
      b := Drop(b0, here.bits);
      var f := tab[at + here.val + Low(b.hold, here.op)];
      DropDrop(b0, here.bits, f.bits);
      b := Drop(b, f.bits);
      here := Entry(f.op, here.bits + f.bits, f.val);
    } else {
      b := Drop(b0, here.bits);
    }
    DecodeBits(ty, lens, s);
  }

  /** if (bits < 15), two more bytes */
  method Refill(input: seq<byte>, b0: Buffer, wrap: bool, ghost t0: seq<bool>, ghost next0: nat, ghost a: State)
    returns (b: Buffer)
    requires Fast(wrap, t0, input, next0, b0, a) && (b0.bits < 15 ==> b0.next + 2 <= |input|) && b0.bits <= 32
    ensures Fast(wrap, t0, input, next0, b, a) && 15 <= b.bits <= 32
    ensures if b0.bits < 15 then b.next == b0.next + 2 && b.bits == b0.bits + 16 else b == b0
  {
    hide Fast;
    b := b0;
    if b.bits < 15 {
      b := Pull(input, b, wrap, t0, next0, a);
      b := Pull(input, b, wrap, t0, next0, a);
    }
  }

  /** The first symbol of an iteration. */
  method FastLen(input: seq<byte>, b0: Buffer, tab: array<Entry>, at: nat, root: nat, wrap: bool,
                 ghost t0: seq<bool>, ghost next0: nat, ghost a0: State)
    returns (here: Entry, b: Buffer, ghost a: State)
    requires Fast(wrap, t0, input, next0, b0, a0) && a0.mode == LEN && b0.next + 2 <= |input| && b0.bits <= 31
    requires TableFor(LENS, a0.lcode, tab[..], at, root)
    ensures Fast(wrap, t0, input, next0, b, a) && a == LenState(a0, here) && b.next >= b0.next
    ensures 1 <= here.bits <= 15 && b0.bits + 8 * (b.next - b0.next) == b.bits + here.bits
    ensures b.next == if b0.bits < 15 then b0.next + 2 else b0.next
    ensures StepIn(a0, Stream(t0, input, b.next)) == Some(a)
    ensures a.mode == LENEXT ==> here.op % 16 <= 5 && 3 <= here.val && here.val + Pow2(here.op % 16) <= 259
    ensures a.mode == LIT ==> here.val < 256
  {
    hide Held, Stream, TableFor, Decode, Fast, Follows, StepIn, Sound, Buffered, Pow2;
    b := Refill(input, b0, wrap, t0, next0, a0);
    FastFacts(wrap, t0, input, next0, b, a0);
    ghost var b1 := b;
    here, b := FastSymbol(input, b, tab, at, root, t0, a0.p, LENS, a0.lcode);
    LenFacts(a0, Stream(t0, input, b1.next));
    LenEntries(a0.lcode, Stream(t0, input, b1.next)[a0.p..], here);
    a := LenState(a0, here);
    FastStep(wrap, t0, input, next0, b1, a0, here.bits, a);
  }

  lemma LenEntries(lens: seq<nat>, b: seq<bool>, e: Entry)
    requires Decode(LENS, lens, b) == Some(e)
    ensures LenMode(e.op) == LENEXT ==> e.op % 16 <= 5 && 3 <= e.val && e.val + Pow2(e.op % 16) <= 259
    ensures LenMode(e.op) == LIT ==> e.val < 256
  {
    hide EntryOp, EntryVal, SymbolAt, Complete, Pow2;
    var r := SymbolAt(lens, b, |lens|);
    if r.Some? {
      SymbolBelow(lens, b);
      LenEntryKinds(r.value);
    }
  }

  /** The distance symbol. */
  method FastDist(input: seq<byte>, b0: Buffer, tab: array<Entry>, at: nat, root: nat, wrap: bool,
                  ghost t0: seq<bool>, ghost next0: nat, ghost a0: State)
    returns (here: Entry, b: Buffer, ghost a: State)
    requires Fast(wrap, t0, input, next0, b0, a0) && a0.mode == DIST && (b0.bits < 15 ==> b0.next + 2 <= |input|)
    requires b0.bits <= 32
    requires TableFor(DISTS, a0.dcode, tab[..], at, root)
    ensures Fast(wrap, t0, input, next0, b, a) && a == DistState(a0, here) && b.next >= b0.next
    ensures 1 <= here.bits <= 15 && b0.bits + 8 * (b.next - b0.next) == b.bits + here.bits
    ensures b.next == if b0.bits < 15 then b0.next + 2 else b0.next
  {
    hide Held, Stream, TableFor, Decode, Fast, Follows, StepIn, Sound, Buffered;
    b := Refill(input, b0, wrap, t0, next0, a0);
    FastFacts(wrap, t0, input, next0, b, a0);
    ghost var b1 := b;
    here, b := FastSymbol(input, b, tab, at, root, t0, a0.p, DISTS, a0.dcode);
    DistFacts(a0, Stream(t0, input, b1.next));
    a := DistState(a0, here);
    FastStep(wrap, t0, input, next0, b1, a0, here.bits, a);
  }

  /** Extra bits of a length or a distance: pull one byte at a time while they are short. */
  method FastExtra(input: seq<byte>, b0: Buffer, op: nat, wrap: bool, ghost t0: seq<bool>, ghost next0: nat,
                   ghost a0: State)
    returns (v: nat, b: Buffer, ghost a: State)
    requires Fast(wrap, t0, input, next0, b0, a0) && (a0.mode == LENEXT || a0.mode == DISTEXT) && op == a0.extra <= 13
    requires (b0.bits < op ==> b0.next < |input|) && (b0.bits + 8 < op ==> b0.next + 1 < |input|) && b0.bits <= 32
    ensures Fast(wrap, t0, input, next0, b, a) && a == ExtraState(a0, v) && b.next >= b0.next && v < Pow2(op)
    ensures b0.bits + 8 * (b.next - b0.next) == b.bits + op
    ensures b.next == b0.next + (if b0.bits + 8 < op then 2 else if b0.bits < op then 1 else 0)
  {
    hide Held, Stream, Fast, Follows, StepIn, Sound, Buffered, Low;
    b := b0;
    if b.bits < op {
      b := Pull(input, b, wrap, t0, next0, a0);
      if b.bits < op {
        b := Pull(input, b, wrap, t0, next0, a0);
      }
    }
    FastFacts(wrap, t0, input, next0, b, a0);
    ExtraFacts(a0, b, Stream(t0, input, b.next));
    v := Low(b.hold, op);
    a := ExtraState(a0, v);
    FastStep(wrap, t0, input, next0, b, a0, op, a);
    b := Drop(b, op);
  }

  /** Bytes that a distance code of up to 15 bits and its extra bits may need. */
  function DistNeed(bits: nat): nat {
    if bits < 4 then 4 else if bits < 12 then 3 else if bits < 20 then 2 else if bits < 28 then 1 else 0
  }

  lemma DistBytes(bits: nat, c: nat, e: nat)
    requires 1 <= c <= 15 && e <= 13
    ensures var n := if bits < 15 then 2 else 0;
      n <= DistNeed(bits) && (c <= bits + 8 * n ==> var rest := bits + 8 * n - c;
      n + (if rest + 8 < e then 2 else if rest < e then 1 else 0) <= DistNeed(bits))
  {
  }

  /** No iteration needs more than six bytes: 15 + 5 + 15 + 13 bits. */
  lemma SixBytes(k: nat, n1: nat, c1: nat, e1: nat)
    requires 1 <= c1 <= 15 && e1 <= 5 && n1 == (if k < 15 then 2 else 0) && c1 <= k + 8 * n1
    ensures var n2 := if k + 8 * n1 - c1 < e1 then 1 else 0;
      n1 + n2 + DistNeed(k + 8 * (n1 + n2) - c1 - e1) <= 6
  {
  }

  // ---- Output steps ----

  lemma FastLiteral(wrap: bool, t0: seq<bool>, input: seq<byte>, next0: nat, b: Buffer, a: State)
    requires Fast(wrap, t0, input, next0, b, a) && a.mode == LIT && a.length < 256
    ensures Fast(wrap, t0, input, next0, b, a.(mode := LEN, out := a.out + [a.length]))
  {
    hide Stream, Held, StepIn, Sound, Reaches;
    FastFacts(wrap, t0, input, next0, b, a);
    BackReaches(t0, input, next0, b, a.p);
    LitStep(a, Stream(t0, input, Back(next0, b)));
    FollowsStep(wrap, Stream(t0, input, Back(next0, b)), a, a.(mode := LEN, out := a.out + [a.length]));
  }

  lemma FastMatch(wrap: bool, t0: seq<bool>, input: seq<byte>, next0: nat, b: Buffer, a: State)
    requires Fast(wrap, t0, input, next0, b, a) && a.mode == MATCH && a.length > 0 && 1 <= a.offset <= |a.out|
    ensures Fast(wrap, t0, input, next0, b, Matched(a, a.length))
  {
    hide Stream, Held, StepIn, Follows, CopyMatch;
    BackReaches(t0, input, next0, b, a.p);
    MatchSteps(wrap, Stream(t0, input, Back(next0, b)), a, a.length);
  }

  lemma FastFar(wrap: bool, t0: seq<bool>, input: seq<byte>, next0: nat, b: Buffer, a: State)
    requires Fast(wrap, t0, input, next0, b, a) && a.mode == MATCH && a.length > 0 && a.offset > |a.out|
    ensures Fast(wrap, t0, input, next0, b, Bad(a, 0))
  {
    hide Stream, Held, StepIn, Follows;
    BackReaches(t0, input, next0, b, a.p);
    MatchFar(a, Stream(t0, input, Back(next0, b)));
    FollowsStep(wrap, Stream(t0, input, Back(next0, b)), a, Bad(a, 0));
  }

  lemma FastSound(wrap: bool, t0: seq<bool>, input: seq<byte>, next0: nat, b: Buffer, a: State)
    requires Fast(wrap, t0, input, next0, b, a)
    ensures a.mode == LENEXT || a.mode == DISTEXT ==> a.extra <= 13
    ensures a.mode == MATCH ==> a.length > 0 && 1 <= a.offset <= 32768
  {
    hide Stream, Held, Reaches, Accepted;
  }

  /** The copy, unless the distance is too far back.  Matches have three bytes or more. */
  method FastMatchCopy(out: array<byte>, put: nat, win: OutputWindow, len: nat, dist: nat, ghost hist: seq<byte>)
    returns (ok: bool)
    requires win.Holds(hist) && win.size == 32768 && out != win.window && put + len <= out.Length && 1 <= dist <= 32768
    requires len >= 3
    modifies out
    ensures ok <==> dist <= |hist| + put
    ensures ok ==> Repeated(hist, old(out[..]), put, out[..], put + len, dist)
    ensures !ok ==> out[..] == old(out[..])
  {
    hide Repeated;
    WindowReach(win, hist);
    if dist > put {
      if dist - put > win.whave { return false; }
      FromWindow(out, put, win, dist, len, hist);
    } else {
      CopyWithin(out, put, dist, 3, hist);
      ghost var o: seq<byte> := out[..];
      CopyThrees(out, put + 3, dist, len - 3, hist);
      RepeatedAdd(hist, old(out[..]), put, o, put + 3, out[..], put + len, dist);
    }
    ok := true;
  }

  /** The distance code and its extra bits. */
  method FastDistance(input: seq<byte>, b0: Buffer, tab: array<Entry>, at: nat, root: nat, wrap: bool,
                      ghost t0: seq<bool>, ghost next0: nat, ghost a0: State)
    returns (bad: bool, dist: nat, b: Buffer, ghost a: State)
    requires Fast(wrap, t0, input, next0, b0, a0) && a0.mode == DIST && b0.bits <= 31
    requires TableFor(DISTS, a0.dcode, tab[..], at, root) && b0.next + DistNeed(b0.bits) <= |input|
    ensures Fast(wrap, t0, input, next0, b, a) && b0.next <= b.next <= b0.next + DistNeed(b0.bits) && b.bits <= 31
    ensures a.p >= a0.p && a.out == a0.out && a.last == a0.last && (bad ==> a.mode == BAD)
    ensures !bad ==>
      a.mode == MATCH && a.length == a0.length && a.offset == dist && a.lcode == a0.lcode && a.dcode == a0.dcode
  {
    hide Held, Stream, TableFor, Decode, Fast, Follows, StepIn, Sound, Buffered, Pow2, Low, DistNeed;
    DistBytes(b0.bits, 1, 0);
    var here;
    here, b, a := FastDist(input, b0, tab, at, root, wrap, t0, next0, a0);
    dist, bad := here.val, false;
    if here.op / 64 % 2 == 1 {
      bad := true;
      return;
    }
    FastSound(wrap, t0, input, next0, b, a);
    DistBytes(b0.bits, here.bits, here.op % 16);
    var v;
    v, b, a := FastExtra(input, b, here.op % 16, wrap, t0, next0, a);
    dist := dist + v;
  }

  /** Length and distance, after the length symbol here. */
  method FastPair(input: seq<byte>, b0: Buffer, here: Entry, tab: array<Entry>, at: nat, root: nat, wrap: bool,
                  ghost t0: seq<bool>, ghost next0: nat, ghost a0: State, ghost k: nat, ghost n1: nat, ghost c1: nat)
    returns (bad: bool, len: nat, dist: nat, b: Buffer, ghost a: State)
    requires Fast(wrap, t0, input, next0, b0, a0) && a0.mode == LENEXT && a0.extra == here.op % 16 <= 5
    requires a0.length == here.val && 3 <= here.val && here.val + Pow2(here.op % 16) <= 259 && b0.bits <= 31
    requires TableFor(DISTS, a0.dcode, tab[..], at, root)
    requires Sizes(b0, k, n1, c1) && b0.next + 6 - n1 <= |input|
    ensures Fast(wrap, t0, input, next0, b, a) && b0.next <= b.next <= b0.next - n1 + 6 && b.bits <= 31
    ensures a.p >= a0.p && a.out == a0.out && a.last == a0.last && (bad ==> a.mode == BAD)
    ensures !bad ==> a.mode == MATCH && a.length == len && 3 <= len <= 258 && a.offset == dist
    ensures !bad ==> a.lcode == a0.lcode && a.dcode == a0.dcode
  {
    hide Held, Stream, TableFor, Decode, Fast, Follows, StepIn, Sound, Buffered, Pow2, Low, DistNeed;
    SixBytes(k, n1, c1, here.op % 16);
    len := here.val;
    var v;
    v, b, a := FastExtra(input, b0, here.op % 16, wrap, t0, next0, a0);
    len := len + v;
    bad, dist, b, a := FastDistance(input, b, tab, at, root, wrap, t0, next0, a);
  }

  /** b has k - c1 + 8 * n1 bits: n1 bytes were pulled and c1 bits taken in this iteration. */
  ghost predicate Sizes(b: Buffer, k: nat, n1: nat, c1: nat) {
    && 1 <= c1 <= 15 && n1 == (if k < 15 then 2 else 0) && c1 <= k + 8 * n1 && b.bits == k + 8 * n1 - c1 && n1 <= b.next
  }

  // ---- One iteration ----

  /** No more than a byte was left over before this call, or those bits did not make a symbol. */
  ghost predicate Anchored(t0: seq<bool>, input: seq<byte>, next0: nat, a: State) {
    a.p + 8 > |t0| + 8 * next0 || (next0 <= |input| && StepIn(a, Stream(t0, input, next0)).None?)
  }

  /** So the first symbol ends after the bytes before next0. */
  lemma AnchorStep(wrap: bool, t0: seq<bool>, input: seq<byte>, next0: nat, b: Buffer, a: State, next: nat, a': State)
    requires Fast(wrap, t0, input, next0, b, a) && Anchored(t0, input, next0, a) && a.mode == LEN
    requires b.next <= next <= |input|
    requires StepIn(a, Stream(t0, input, next)) == Some(a')
    ensures a'.p + 8 > |t0| + 8 * next0 && a'.p >= a.p
  {
    hide Stream, StepIn, Held, Follows;
    FastFacts(wrap, t0, input, next0, b, a);
    StreamPrefix(t0, input, next0, next);
    StreamLength(t0, input, next0);
    StreamLength(t0, input, next);
    StepBefore(a, Stream(t0, input, next));
    if a'.p <= |t0| + 8 * next0 {
      StepLess(a, Stream(t0, input, next), |t0| + 8 * next0);
      assert Stream(t0, input, next)[..|t0| + 8 * next0] == Stream(t0, input, next0);
    }
  }

  lemma LiteralTurn(wrap: bool, t0: seq<bool>, input: seq<byte>, next0: nat, b: Buffer, a: State, out: seq<byte>,
                    put: nat, hist: seq<byte>)
    requires Fast(wrap, t0, input, next0, b, a) && a.mode == LIT && a.length < 256 && Produced(out, put, a, hist)
    requires put < |out|
    ensures var a' := a.(mode := LEN, out := a.out + [a.length]);
      Fast(wrap, t0, input, next0, b, a') && Produced(out[put := a.length as byte], put + 1, a', hist)
  {
    hide Fast;
    FastLiteral(wrap, t0, input, next0, b, a);
    ProducedPush(out, put, a, hist, a.length, a.(mode := LEN, out := a.out + [a.length]));
  }

  /** A match, after the length symbol here. */
  method MatchTurn(input: seq<byte>, b0: Buffer, here: Entry, out: array<byte>, put0: nat, win: OutputWindow,
                   tab: array<Entry>, at: nat, root: nat, wrap: bool, ghost t0: seq<bool>, ghost next0: nat,
                   ghost a0: State, ghost hist: seq<byte>, ghost before: Buffer)
    returns (mode: Mode, b: Buffer, put: nat, ghost a: State)
    requires Fast(wrap, t0, input, next0, b0, a0) && a0.mode == LENEXT && a0.extra == here.op % 16 <= 5
    requires a0.length == here.val && 3 <= here.val && here.val + Pow2(here.op % 16) <= 259 && b0.bits <= 31
    requires TableFor(DISTS, a0.dcode, tab[..], at, root) && 1 <= here.bits <= 15 && put0 + 258 <= out.Length
    requires b0.next == (if before.bits < 15 then before.next + 2 else before.next) && before.next + 6 <= |input|
    requires before.bits + 8 * (b0.next - before.next) == b0.bits + here.bits
    requires Produced(out[..], put0, a0, hist) && win.Holds(hist) && win.size == 32768 && out != win.window
    modifies out
    ensures Fast(wrap, t0, input, next0, b, a) && a.p >= a0.p
    ensures b0.next <= b.next <= before.next + 6 && b.bits <= 31 && put0 <= put <= put0 + 258
    ensures Produced(out[..], put, a, hist) && mode == a.mode && a.last == a0.last && (mode == LEN || mode == BAD)
    ensures mode == LEN ==> a.lcode == a0.lcode && a.dcode == a0.dcode
  {
    hide Held, Stream, TableFor, Decode, Fast, Follows, StepIn, Sound, Buffered, Pow2, Low, Repeated, CopyMatch;
    var bad, len, dist;
    mode, put := LEN, put0;
    bad, len, dist, b, a := FastPair(input, b0, here, tab, at, root, wrap, t0, next0, a0, before.bits,
      b0.next - before.next, here.bits);
    if bad { return BAD, b, put, a; }
    FastSound(wrap, t0, input, next0, b, a);
    ghost var o: seq<byte> := out[..];
    var ok := FastMatchCopy(out, put, win, len, dist, hist);
    if ok {
      FastMatch(wrap, t0, input, next0, b, a);
      MatchProduced(o, put, out[..], len, a, hist);
      a, put := Matched(a, len), put + len;
    } else {
      FastFar(wrap, t0, input, next0, b, a);
      mode, a := BAD, Bad(a, 0);
    }
  }

  /** Decode one literal, one match, the end of the block or an error. */
  method FastIteration(input: seq<byte>, b0: Buffer, out: array<byte>, put0: nat, win: OutputWindow,
                       lenTab: array<Entry>, lat: nat, lroot: nat, distTab: array<Entry>, dat: nat, droot: nat,
                       wrap: bool, ghost t0: seq<bool>, ghost next0: nat, ghost a0: State, ghost hist: seq<byte>)
    returns (mode: Mode, b: Buffer, put: nat, ghost a: State)
    requires Fast(wrap, t0, input, next0, b0, a0) && Anchored(t0, input, next0, a0) && a0.mode == LEN
    requires b0.bits <= 31 && b0.next + 6 <= |input| && put0 + 258 <= out.Length
    requires TableFor(LENS, a0.lcode, lenTab[..], lat, lroot) && TableFor(DISTS, a0.dcode, distTab[..], dat, droot)
    requires Produced(out[..], put0, a0, hist) && win.Holds(hist) && win.size == 32768 && out != win.window
    modifies out
    ensures Fast(wrap, t0, input, next0, b, a) && a.p + 8 > |t0| + 8 * next0 && a.p > a0.p
    ensures b0.next <= b.next <= b0.next + 6 && b.bits <= 31 && put0 <= put <= put0 + 258
    ensures Produced(out[..], put, a, hist) && mode == a.mode && a.last == a0.last
    ensures (mode == LEN || mode == TYPE || mode == BAD)
    ensures mode == LEN ==> a.lcode == a0.lcode && a.dcode == a0.dcode
  {
    hide Held, Stream, TableFor, Decode, Fast, Follows, StepIn, Sound, Buffered, Pow2, Low, Repeated;
    var here;
    mode, put := LEN, put0;
    here, b, a := FastLen(input, b0, lenTab, lat, lroot, wrap, t0, next0, a0);
    AnchorStep(wrap, t0, input, next0, b0, a0, b.next, a);
    if here.op == 0 {
      LiteralTurn(wrap, t0, input, next0, b, a, out[..], put, hist);
      a := a.(mode := LEN, out := a.out + [a.length]);
      out[put] := here.val;
      put := put + 1;
    } else if here.op / 32 % 2 == 1 {
      mode := TYPE;
    } else if here.op / 64 % 2 == 1 {
      mode := BAD;
    } else {
      mode, b, put, a := MatchTurn(input, b, here, out, put, win, distTab, dat, droot, wrap, t0, next0, a, hist, b0);
    }
  }

  // ---- The loop ----

  lemma FastStart(wrap: bool, t0: seq<bool>, input: seq<byte>, r: Regs, a: State)
    requires Idle(wrap, t0, input, r, a) && r.mode == LEN
    ensures Fast(wrap, t0, input, r.b.next, r.b, a) && Anchored(t0, input, r.b.next, a) && a.mode == LEN
    ensures a.last == r.last
  {
    hide StepIn, Buffered, Follows, Stream, Lazy;
    IdleGot(wrap, t0, input, r, a);
    GotFacts(wrap, t0, input, r, a);
    LazyAnchor(t0, input, r.b.next, r.b.bits, a);
  }

  lemma LazyAnchor(t0: seq<bool>, input: seq<byte>, next: nat, bits: nat, a: State)
    requires Lazy(bits, a, Stream(t0, input, next)) && a.mode == LEN && next <= |input|
    requires a.p + bits == |Stream(t0, input, next)|
    ensures Anchored(t0, input, next, a)
  {
    StreamLength(t0, input, next);
    hide StepIn, Stream;
  }

  /** The unused bytes were all pulled in this call. */
  lemma BackFits(wrap: bool, t0: seq<bool>, input: seq<byte>, next0: nat, b: Buffer, a: State)
    requires Fast(wrap, t0, input, next0, b, a) && a.p + 8 > |t0| + 8 * next0
    ensures b.bits / 8 <= b.next && next0 <= b.next - b.bits / 8
  {
    FastFacts(wrap, t0, input, next0, b, a);
    StreamLength(t0, input, b.next);
    hide Fast, Stream, Held, Follows, Buffered, Sound;
  }

  lemma FastEnd(wrap: bool, t0: seq<bool>, input: seq<byte>, next0: nat, b: Buffer, a: State, r: Regs)
    requires Fast(wrap, t0, input, next0, b, a) && a.p + 8 > |t0| + 8 * next0 && b.bits / 8 <= b.next
    requires r.b == GiveBack(b) && r.mode == a.mode && r.last == a.last
    requires (a.mode == LEN || a.mode == TYPE || a.mode == BAD)
    ensures Idle(wrap, t0, input, r, a) && next0 <= r.b.next
  {
    hide Fast, Stream, Held, Follows, Low, StepIn;
    BackFits(wrap, t0, input, next0, b, a);
    GivenBack(wrap, t0, input, next0, b, a);
  }

  lemma FastLess(wrap: bool, t0: seq<bool>, input: seq<byte>, next0: nat, b: Buffer, a: State)
    requires Fast(wrap, t0, input, next0, b, a)
    ensures a.p <= |t0| + 8 * |input| && next0 <= b.next <= |input|
  {
    FastFacts(wrap, t0, input, next0, b, a);
    StreamLength(t0, input, b.next);
    hide Stream, Held, Follows, Buffered;
  }

  /** inflate_fast */
  method DecodeFast(input: seq<byte>, r0: Regs, out: array<byte>, put0: nat, win: OutputWindow,
                     lenTab: array<Entry>, distTab: array<Entry>,
                     wrap: bool, ghost t0: seq<bool>, ghost a0: State, ghost hist: seq<byte>)
    returns (r: Regs, put: nat, ghost a: State)
    requires Idle(wrap, t0, input, r0, a0) && r0.mode == LEN && r0.b.next + 6 <= |input| && put0 + 258 <= out.Length
    requires TableFor(LENS, a0.lcode, lenTab[..], r0.lencode.at, r0.lencode.root)
    requires TableFor(DISTS, a0.dcode, distTab[..], r0.distcode.at, r0.distcode.root)
    requires Produced(out[..], put0, a0, hist) && win.Holds(hist) && win.size == 32768 && out != win.window
    modifies out
    ensures Idle(wrap, t0, input, r, a) && Produced(out[..], put, a, hist) && a.p > a0.p && put0 <= put
    ensures r0.b.next <= r.b.next
    ensures r == r0.(mode := r.mode, b := r.b) && (r.mode == LEN || r.mode == TYPE || r.mode == BAD)
    ensures r.mode == LEN ==> a.lcode == a0.lcode && a.dcode == a0.dcode
  {
    hide Held, Stream, TableFor, Fast, Follows, StepIn, Idle, Low;
    FastStart(wrap, t0, input, r0, a0);
    LenBits(wrap, t0, input, r0, a0, lenTab[..]);
    ghost var next0 := r0.b.next;
    var mode, b;
    mode, b, put, a := FastIteration(input, r0.b, out, put0, win, lenTab, r0.lencode.at, r0.lencode.root,
                                     distTab, r0.distcode.at, r0.distcode.root, wrap, t0, next0, a0, hist);
    while mode == LEN && b.next + 6 <= |input| && put + 258 <= out.Length
      invariant Fast(wrap, t0, input, next0, b, a) && Produced(out[..], put, a, hist) && mode == a.mode
      invariant put0 <= put <= out.Length
      invariant a.p + 8 > |t0| + 8 * next0 && a.p > a0.p && b.bits <= 31 && a.last == a0.last
      invariant mode == LEN ==> a.lcode == a0.lcode && a.dcode == a0.dcode
      invariant mode == LEN || mode == TYPE || mode == BAD
      decreases |t0| + 8 * |input| - a.p
    {
      mode, b, put, a := FastIteration(input, b, out, put, win, lenTab, r0.lencode.at, r0.lencode.root,
                                       distTab, r0.distcode.at, r0.distcode.root, wrap, t0, next0, a, hist);
      FastLess(wrap, t0, input, next0, b, a);
    }
    BackFits(wrap, t0, input, next0, b, a);
    r := r0.(mode := mode, b := GiveBack(b));
    FastEnd(wrap, t0, input, next0, b, a, r);
  }

  lemma LenBits(wrap: bool, t0: seq<bool>, input: seq<byte>, r: Regs, a: State, tab: seq<Entry>)
    requires Idle(wrap, t0, input, r, a) && r.mode == LEN && TableFor(LENS, a.lcode, tab, r.lencode.at, r.lencode.root)
    ensures r.b.bits < 23
  {
    hide Idle, Got, Held, Buffered, Sound, StepIn, Stream, Lazy, TableFor;
    IdleGot(wrap, t0, input, r, a);
    GotFacts(wrap, t0, input, r, a);
    LenLazy(r.b.bits, a, Stream(t0, input, r.b.next), tab, r.lencode.at, r.lencode.root);
  }
}
