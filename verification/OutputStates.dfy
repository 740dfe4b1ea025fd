/** The states of inflate that write output (deps/libz/inflate.c: COPY, MATCH, LIT)
    and CHECK. */
module OutputStates {
  import opened Bits
  import opened CodeLengths
  import opened BlockReader
  import opened HeaderReader
  import opened Machine
  import opened BitBuffer
  import opened InflateStates
  import opened Window

  /** What the run has produced: hist before this call and out[..put] in it. */
  ghost predicate Produced(out: seq<byte>, put: nat, a: State, hist: seq<byte>) {
    put <= |out| && a.out == hist + out[..put]
  }

  lemma ProducedPush(out: seq<byte>, put: nat, a: State, hist: seq<byte>, x: byte, a': State)
    requires Produced(out, put, a, hist) && put < |out| && a'.out == a.out + [x]
    ensures Produced(out[put := x], put + 1, a', hist)
  {
    assert out[put := x][..put + 1] == out[..put] + [x];
  }

  // ---- LIT ----

  lemma LitMoves(wrap: bool, t0: seq<bool>, input: seq<byte>, r: Regs, a: State)
    requires Idle(wrap, t0, input, r, a) && r.mode == LIT
    ensures r.length < 256 && Idle(wrap, t0, input, r.(mode := LEN), a.(mode := LEN, out := a.out + [r.length]))
  {
    hide Idle, Got, Held, Buffered, StepIn, Stream, Grows, Lazy, Accepted;
    IdleGot(wrap, t0, input, r, a);
    GotFacts(wrap, t0, input, r, a);
    GotFields(wrap, t0, input, r, a);
    LitStep(a, Stream(t0, input, r.b.next));
    LazyBits(r.b.bits, a, Stream(t0, input, r.b.next));
    MovedPlain(wrap, t0, input, r, a, r.(mode := LEN), a.(mode := LEN, out := a.out + [r.length]));
  }

  lemma LitStep(a: State, t: seq<bool>)
    requires a.mode == LIT && a.p <= |t| && a.length < 256
    ensures StepIn(a, t) == Some(a.(mode := LEN, out := a.out + [a.length]))
  {
    hide Grows;
  }

  method LitCase(wrap: bool, input: seq<byte>, r0: Regs, out: array<byte>, put0: nat, ghost t0: seq<bool>,
                 ghost a0: State, ghost hist: seq<byte>)
    returns (leave: bool, r: Regs, put: nat, ghost a: State)
    requires Idle(wrap, t0, input, r0, a0) && r0.mode == LIT && Produced(out[..], put0, a0, hist)
    modifies out
    ensures Idle(wrap, t0, input, r, a) && Produced(out[..], put, a, hist) && put0 <= put && r == r0.(mode := r.mode)
    ensures leave ==> a == a0 && r == r0 && put == put0 == out.Length
    ensures !leave ==> a.mode == LEN && a.p == a0.p && a.lcode == a0.lcode && a.dcode == a0.dcode && put > put0
  {
    hide Idle;
    r, put, a := r0, put0, a0;
    if put == out.Length { return true, r, put, a; }
    LitMoves(wrap, t0, input, r, a);
    ghost var x: byte := r.length;
    ProducedPush(out[..], put, a, hist, x, a.(mode := LEN, out := a.out + [x]));
    a := a.(mode := LEN, out := a.out + [r.length]);
    ghost var o: seq<byte> := out[..];
    out[put] := r.length;
    assert out[..] == o[put := x];
    leave, put, r := false, put + 1, r.(mode := LEN);
  }

  // ---- COPY ----

  /** n stored bytes copied. */
  function Copied(a: State, data: seq<byte>): State
    requires |data| <= a.length
  {
    a.(out := a.out + data, length := a.length - |data|, p := a.p + 8 * |data|)
  }

  lemma {:induction false} CopySteps(wrap: bool, t: seq<bool>, a: State, data: seq<byte>)
    requires a.mode == COPY && |data| <= a.length && Follows(wrap, t, a) && At(a.p, t, BytesToBits(data))
    ensures Follows(wrap, t, Copied(a, data))
    decreases |data|
  {
    hide Follows, StepIn, BytesToBits, At, ToBits, Grows;
    if data == [] {
      assert Copied(a, data) == a;
    } else {
      FirstByte(data);
      AtSplit(a.p, t, ToBits(data[0], 8), BytesToBits(data[1..]));
      CopyOne(a, t, data[0]);
      var a' := a.(out := a.out + [data[0]], length := a.length - 1, p := a.p + 8);
      FollowsStep(wrap, t, a, a');
      CopySteps(wrap, t, a', data[1..]);
      assert [data[0]] + data[1..] == data;
      assert a'.out + data[1..] == a.out + data;
      assert Copied(a', data[1..]) == Copied(a, data);
    }
  }

  lemma CopyOne(a: State, t: seq<bool>, x: byte)
    requires a.mode == COPY && a.length > 0 && At(a.p, t, ToBits(x, 8))
    ensures StepIn(a, t) == Some(a.(out := a.out + [x], length := a.length - 1, p := a.p + 8))
  {
    Pow2Values();
    hide Grows, ToBits, Val, Pow2;
    AtVal(a.p, t, x, 8);
    AtEnd(a.p, t, ToBits(x, 8));
  }

  lemma CopyMoves(wrap: bool, t0: seq<bool>, input: seq<byte>, r: Regs, a: State, n: nat)
    requires Idle(wrap, t0, input, r, a) && r.mode == COPY && n <= r.length && r.b.next + n <= |input|
    ensures n <= a.length
    ensures Idle(wrap, t0, input, r.(length := r.length - n, b := Buffer(r.b.hold, r.b.bits, r.b.next + n)),
              Copied(a, input[r.b.next..r.b.next + n]))
  {
    hide *;
    CopyParts(wrap, t0, input, r, a);
    var data := input[r.b.next..r.b.next + n];
    var t, t' := Stream(t0, input, r.b.next), Stream(t0, input, r.b.next + n);
    StreamPrefix(t0, input, r.b.next, r.b.next + n);
    FollowsMore(wrap, t, t', a);
    BufferEmpty(r.b.hold, r.b.bits, t, a.p);
    AtNext(t, BytesToBits(data));
    CopySteps(wrap, t', a, data);
    CopiedAt(a, data);
    BitsSize(data);
    BufferNone(r.b.hold, r.b.bits, t', a.p + 8 * n);
    CopyIdle(wrap, t0, input, r.(length := r.length - n, b := Buffer(r.b.hold, r.b.bits, r.b.next + n)), Copied(a,
      data));
  }

  lemma AtNext(t: seq<bool>, bits: seq<bool>)
    ensures At(|t|, t + bits, bits)
  {
  }

  lemma BitsSize(x: seq<byte>)
    ensures |BytesToBits(x)| == 8 * |x|
  {
  }

  lemma CopiedAt(a: State, data: seq<byte>)
    requires |data| <= a.length
    ensures Copied(a, data).p == a.p + 8 * |data| && Copied(a, data).length == a.length - |data|
    ensures Copied(a, data).mode == a.mode && Copied(a, data).last == a.last
  {
  }

  lemma CopyParts(wrap: bool, t0: seq<bool>, input: seq<byte>, r: Regs, a: State)
    requires Idle(wrap, t0, input, r, a) && r.mode == COPY
    ensures a.mode == COPY && r.length == a.length && r.last == a.last && r.b.bits == 0 && |t0| % 8 == 0
    ensures r.b.next <= |input|
    ensures Buffered(r.b.hold, r.b.bits, Stream(t0, input, r.b.next), a.p)
    ensures Follows(wrap, Stream(t0, input, r.b.next), a)
  {
    hide Buffered, StepIn, Follows, Stream;
  }

  lemma CopyIdle(wrap: bool, t0: seq<bool>, input: seq<byte>, r: Regs, a: State)
    requires r.mode == a.mode == COPY && r.length == a.length && r.last == a.last && r.b.bits == 0 && |t0| % 8 == 0
    requires r.b.next <= |input|
    requires Buffered(r.b.hold, r.b.bits, Stream(t0, input, r.b.next), a.p)
    requires Follows(wrap, Stream(t0, input, r.b.next), a)
    ensures Idle(wrap, t0, input, r, a)
  {
    hide Buffered, StepIn, Follows, Stream;
  }

  lemma BufferEmpty(hold: nat, bits: nat, t: seq<bool>, q: nat)
    requires Buffered(hold, bits, t, q) && bits == 0
    ensures q == |t| && hold == 0
  {
  }

  lemma BufferNone(hold: nat, bits: nat, t: seq<bool>, q: nat)
    requires q == |t| && bits == 0 && hold == 0
    ensures Buffered(hold, bits, t, q)
  {
  }

  lemma CopyDone(wrap: bool, t0: seq<bool>, input: seq<byte>, r: Regs, a: State)
    requires Idle(wrap, t0, input, r, a) && r.mode == COPY && r.length == 0
    ensures Idle(wrap, t0, input, r.(mode := TYPE), a.(mode := TYPE)) && Forward(a, a.(mode := TYPE))
  {
    hide Idle, Got, Held, Buffered, StepIn, Stream, Grows, Lazy, Accepted;
    IdleGot(wrap, t0, input, r, a);
    GotFacts(wrap, t0, input, r, a);
    GotFields(wrap, t0, input, r, a);
    CopyEnds(a, Stream(t0, input, r.b.next));
    LazyBits(r.b.bits, a, Stream(t0, input, r.b.next));
    MovedPlain(wrap, t0, input, r, a, r.(mode := TYPE), a.(mode := TYPE));
  }

  lemma CopyEnds(a: State, t: seq<bool>)
    requires a.mode == COPY && a.p <= |t| && a.length == 0
    ensures StepIn(a, t) == Some(a.(mode := TYPE))
  {
    hide Grows;
  }

  lemma CopyLength(wrap: bool, t0: seq<bool>, input: seq<byte>, r: Regs, a: State)
    requires Idle(wrap, t0, input, r, a)
    ensures r.mode == a.mode && r.b.next <= |input|
    ensures (a.mode == COPY || a.mode == MATCH || a.mode == LIT ==> r.length == a.length)
    ensures a.mode == MATCH ==> r.offset == a.offset && 1 <= a.offset <= 32768 && a.length > 0
  {
    hide Got, Held, Buffered, StepIn, Stream, Lazy, Accepted;
    IdleGot(wrap, t0, input, r, a);
    GotFacts(wrap, t0, input, r, a);
    GotFields(wrap, t0, input, r, a);
  }

  method CopyCase(wrap: bool, input: seq<byte>, r0: Regs, out: array<byte>, put0: nat, ghost t0: seq<bool>,
                  ghost a0: State, ghost hist: seq<byte>)
    returns (leave: bool, r: Regs, put: nat, ghost a: State)
    requires Idle(wrap, t0, input, r0, a0) && r0.mode == COPY && Produced(out[..], put0, a0, hist)
    modifies out
    ensures Idle(wrap, t0, input, r, a) && Produced(out[..], put, a, hist) && put0 <= put && r0.b.next <= r.b.next
    ensures leave ==> a == a0 && r == r0 && put == put0 && a.mode == COPY && a.length > 0
    ensures leave ==> put == out.Length || r.b.next == |input|
    ensures !leave ==> a.p > a0.p || Forward(a0, a)
    ensures !leave ==> a.p >= a0.p && (a.mode == COPY || a.mode == TYPE)
  {
    hide Idle, Forward;
    r, put, a := r0, put0, a0;
    CopyLength(wrap, t0, input, r, a);
    var copy := r.length;
    if copy == 0 {
      CopyDone(wrap, t0, input, r, a);
      leave, r, a := false, r.(mode := TYPE), a.(mode := TYPE);
      return;
    }
    if copy > |input| - r.b.next { copy := |input| - r.b.next; }
    if copy > out.Length - put { copy := out.Length - put; }
    if copy == 0 { return true, r, put, a; }
    CopyMoves(wrap, t0, input, r, a, copy);
    ghost var o: seq<byte> := out[..];
    forall i | 0 <= i < copy { out[put + i] := input[r.b.next + i]; }
    ghost var data := input[r.b.next..r.b.next + copy];
    assert out[..put + copy] == o[..put] + data;
    assert hist + o[..put] + data == hist + (o[..put] + data);
    a := Copied(a, data);
    leave, put, r := false, put + copy, r.(length := r.length - copy, b := Buffer(r.b.hold, r.b.bits, r.b.next + copy));
  }

  // ---- MATCH ----

  /** n bytes of the match copied. */
  function Matched(a: State, n: nat): State
    requires n <= a.length && 1 <= a.offset <= |a.out|
  {
    a.(out := CopyMatch(a.out, a.offset, n), length := a.length - n, mode := if n == a.length then LEN else MATCH)
  }

  lemma {:induction false} MatchSteps(wrap: bool, t: seq<bool>, a: State, n: nat)
    requires a.mode == MATCH && 1 <= n <= a.length && 1 <= a.offset <= |a.out| && Follows(wrap, t, a) && a.p <= |t|
    ensures Follows(wrap, t, Matched(a, n))
    decreases n
  {
    hide Follows, StepIn, Grows;
    var a' := a.(out := a.out + [a.out[|a.out| - a.offset]], length := a.length - 1,
                 mode := if a.length == 1 then LEN else MATCH);
    MatchOne(a, t);
    FollowsStep(wrap, t, a, a');
    if n == 1 {
      assert CopyMatch(a.out, a.offset, 1) == a'.out;
    } else {
      MatchSteps(wrap, t, a', n - 1);
      assert Matched(a', n - 1) == Matched(a, n);
    }
  }

  lemma MatchOne(a: State, t: seq<bool>)
    requires a.mode == MATCH && a.length > 0 && 1 <= a.offset <= |a.out| && a.p <= |t|
    ensures StepIn(a, t) == Some(a.(out := a.out + [a.out[|a.out| - a.offset]], length := a.length - 1,
              mode := if a.length == 1 then LEN else MATCH))
  {
    hide Grows;
  }

  lemma MatchFar(a: State, t: seq<bool>)
    requires a.mode == MATCH && a.length > 0 && a.offset > |a.out| && a.p <= |t|
    ensures StepIn(a, t) == Some(Bad(a, 0))
  {
    hide Grows;
  }

  lemma MatchMoves(wrap: bool, t0: seq<bool>, input: seq<byte>, r: Regs, a: State, n: nat)
    requires Idle(wrap, t0, input, r, a) && r.mode == MATCH && 1 <= n <= r.length && r.offset <= |a.out|
    ensures n <= a.length && 1 <= a.offset <= |a.out|
    ensures Idle(wrap, t0, input, r.(length := r.length - n, mode := if n == r.length then LEN else MATCH),
      Matched(a, n))
  {
    CopyLength(wrap, t0, input, r, a);
    hide Held, Buffered, StepIn, Grows, Accepted, Follows, Stream, CopyMatch;
    GotSize(wrap, t0, input, r, a);
    MatchSteps(wrap, Stream(t0, input, r.b.next), a, n);
  }

  lemma GotSize(wrap: bool, t0: seq<bool>, input: seq<byte>, r: Regs, a: State)
    requires Idle(wrap, t0, input, r, a)
    ensures a.p <= |Stream(t0, input, r.b.next)|
    ensures NeedsOut(a) ==> r.b.bits < 8
  {
    hide Got, Held, Buffered, StepIn, Stream, Accepted, NeedsOut;
    IdleGot(wrap, t0, input, r, a);
    GotFacts(wrap, t0, input, r, a);
    OutSteps(a);
  }

  lemma OutSteps(a: State)
    ensures NeedsOut(a) ==> a.mode != BAD
  {
  }

  lemma FarMoves(wrap: bool, t0: seq<bool>, input: seq<byte>, r: Regs, a: State)
    requires Idle(wrap, t0, input, r, a) && r.mode == MATCH && r.offset > |a.out|
    ensures Idle(wrap, t0, input, r.(mode := BAD), Bad(a, 0))
  {
    CopyLength(wrap, t0, input, r, a);
    hide Idle, Got, Held, Buffered, StepIn, Grows, Accepted, Follows, Stream, Lazy;
    IdleGot(wrap, t0, input, r, a);
    GotFacts(wrap, t0, input, r, a);
    MatchFar(a, Stream(t0, input, r.b.next));
    MovedPlain(wrap, t0, input, r, a, r.(mode := BAD), Bad(a, 0));
  }

  lemma {:induction false} CopyMatchEnd(o: seq<byte>, dist: nat, n: nat)
    requires 1 <= dist <= |o|
    ensures var m := CopyMatch(o, dist, n);
            CopyMatch(o, dist, n + 1) == m + [m[|m| - dist]]
    decreases n
  {
    if n > 0 { CopyMatchEnd(o + [o[|o| - dist]], dist, n - 1); }
  }

  /** n bytes copied from distance dist before index put. */
  ghost predicate Repeated(hist: seq<byte>, out: seq<byte>, put: nat, out': seq<byte>, put': nat, dist: nat) {
    && put <= put' <= |out| == |out'| && 1 <= dist <= |hist| + put
    && hist + out'[..put'] == CopyMatch(hist + out[..put], dist, put' - put)
  }

  lemma RepeatedNone(hist: seq<byte>, out: seq<byte>, put: nat, dist: nat)
    requires put <= |out| && 1 <= dist <= |hist| + put
    ensures Repeated(hist, out, put, out, put, dist)
  {
  }

  lemma RepeatedPush(hist: seq<byte>, out: seq<byte>, put: nat, out': seq<byte>, put': nat, dist: nat, x: byte)
    requires Repeated(hist, out, put, out', put', dist) && put' < |out|
    requires x == (hist + out'[..put'])[|hist| + put' - dist]
    ensures Repeated(hist, out, put, out'[put' := x], put' + 1, dist)
  {
    CopyMatchEnd(hist + out[..put], dist, put' - put);
    assert out'[put' := x][..put' + 1] == out'[..put'] + [x];
    assert hist + (out'[..put'] + [x]) == hist + out'[..put'] + [x];
    hide CopyMatch;
  }

  /** do { *put++ = *from++; } while (--copy), from the output. */
  method CopyWithin(out: array<byte>, put: nat, dist: nat, n: nat, ghost hist: seq<byte>)
    requires 1 <= dist <= put && put + n <= out.Length
    modifies out
    ensures Repeated(hist, old(out[..]), put, out[..], put + n, dist)
  {
    hide Repeated;
    RepeatedNone(hist, out[..], put, dist);
    var from, p := put - dist, put;
    for i := 0 to n
      invariant p == put + i && from == p - dist && Repeated(hist, old(out[..]), put, out[..], p, dist)
    {
      ghost var o: seq<byte> := out[..];
      assert (hist + o[..p])[|hist| + p - dist] == out[from];
      RepeatedPush(hist, old(out[..]), put, o, p, dist, out[from]);
      out[p] := out[from];
      assert out[..] == o[p := o[from]];
      p, from := p + 1, from + 1;
    }
  }

  /** The same from the window: at index from, the bytes that end d before the end of hist. */
  method CopyWindow(out: array<byte>, put: nat, window: array<byte>, from0: nat, d: nat, n: nat, ghost m: nat,
                    ghost hist: seq<byte>)
    requires put + n <= out.Length && out != window && n <= m <= d <= |hist| && from0 + m <= window.Length && d >= 1
    requires window[from0..from0 + m] == hist[|hist| - d..|hist| - d + m]
    modifies out
    ensures Repeated(hist, old(out[..]), put, out[..], put + n, put + d)
  {
    hide Repeated;
    RepeatedNone(hist, out[..], put, put + d);
    var from, p := from0, put;
    for i := 0 to n
      invariant p == put + i && from == from0 + i && Repeated(hist, old(out[..]), put, out[..], p, put + d)
    {
      ghost var o: seq<byte> := out[..];
      assert window[from0..from0 + m][i] == window[from] && hist[|hist| - d..|hist| - d + m][i] == hist[|hist| - d + i];
      assert (hist + o[..p])[|hist| + p - (put + d)] == hist[|hist| - d + i];
      RepeatedPush(hist, old(out[..]), put, o, p, put + d, window[from]);
      out[p] := window[from];
      assert out[..] == o[p := window[from]];
      p, from := p + 1, from + 1;
    }
  }

  /** Where in the window the bytes at distance d from its end start, and how many follow in one piece. */
  method WindowPiece(win: OutputWindow, d: nat, ghost hist: seq<byte>) returns (from: nat, n: nat)
    requires win.Holds(hist) && 1 <= d <= win.whave
    ensures 1 <= n <= d && from + n <= win.window.Length
    ensures d <= |hist| && win.window[from..from + n] == hist[|hist| - d..|hist| - d + n]
  {
    WindowReach(win, hist);
    if d > win.wnext {
      n := d - win.wnext;
      from := win.wsize - n;
    } else {
      n := d;
      from := win.wnext - d;
    }
    ghost var w, h := win.window[from..from + n], hist[|hist| - d..|hist| - d + n];
    forall i | 0 <= i < n ensures w[i] == h[i] {
      assert from + i == RingSlot(win.wnext, win.size, d - i);
      assert hist[|hist| - (d - i)] == win.window[RingSlot(win.wnext, win.size, d - i)];
    }
  }

  lemma WindowReach(win: OutputWindow, hist: seq<byte>)
    requires win.Holds(hist)
    ensures win.whave == Min(|hist|, win.size)
  {
    hide RingSlot;
  }

  lemma MatchProduced(out: seq<byte>, put: nat, out': seq<byte>, n: nat, a: State, hist: seq<byte>)
    requires Produced(out, put, a, hist) && 1 <= a.offset <= |a.out| && n <= a.length
    requires Repeated(hist, out, put, out', put + n, a.offset)
    ensures Produced(out', put + n, Matched(a, n), hist)
  {
    hide CopyMatch;
  }

  method MatchCase(wrap: bool, input: seq<byte>, r0: Regs, out: array<byte>, put0: nat, win: OutputWindow,
                   ghost t0: seq<bool>, ghost a0: State, ghost hist: seq<byte>)
    returns (leave: bool, r: Regs, put: nat, ghost a: State)
    requires Idle(wrap, t0, input, r0, a0) && r0.mode == MATCH && Produced(out[..], put0, a0, hist)
    requires win.Holds(hist) && win.size == 32768 && out != win.window
    modifies out
    ensures Idle(wrap, t0, input, r, a) && Produced(out[..], put, a, hist) && put0 <= put && r0.b.next <= r.b.next
    ensures leave ==> a == a0 && r == r0 && put == put0 == out.Length
    ensures r.lencode == r0.lencode && r.distcode == r0.distcode && a.lcode == a0.lcode && a.dcode == a0.dcode
    ensures !leave ==> a.mode == BAD || ((a.mode == LEN || a.mode == MATCH) && put > put0)
    ensures !leave ==> a.p == a0.p
  {
    hide Idle, Repeated, CopyMatch;
    r, put, a := r0, put0, a0;
    if put == out.Length { return true, r, put, a; }
    leave := false;
    CopyLength(wrap, t0, input, r, a);
    WindowReach(win, hist);
    var copy;
    ghost var o: seq<byte> := out[..];
    if r.offset > put {
      var d := r.offset - put;
      if d > win.whave {
        FarMoves(wrap, t0, input, r, a);
        r, a := r.(mode := BAD), Bad(a, 0);
        return;
      }
      var from;
      from, copy := WindowPiece(win, d, hist);
      ghost var m := copy;
      if copy > r.length { copy := r.length; }
      if copy > out.Length - put { copy := out.Length - put; }
      CopyWindow(out, put, win.window, from, d, copy, m, hist);
    } else {
      copy := r.length;
      if copy > out.Length - put { copy := out.Length - put; }
      CopyWithin(out, put, r.offset, copy, hist);
    }
    MatchMoves(wrap, t0, input, r, a, copy);
    MatchProduced(o, put, out[..], copy, a, hist);
    a := Matched(a, copy);
    put, r := put + copy, r.(length := r.length - copy, mode := if copy == r.length then LEN else MATCH);
  }

  /** The case of the state, of those that write output. */
  method OutputCase(wrap: bool, input: seq<byte>, r0: Regs, out: array<byte>, put0: nat, win: OutputWindow,
                    ghost t0: seq<bool>, ghost a0: State, ghost hist: seq<byte>)
    returns (leave: bool, r: Regs, put: nat, ghost a: State)
    requires Idle(wrap, t0, input, r0, a0) && Produced(out[..], put0, a0, hist)
    requires r0.mode == COPY || r0.mode == MATCH || r0.mode == LIT
    requires win.Holds(hist) && win.size == 32768 && out != win.window
    modifies out
    ensures Idle(wrap, t0, input, r, a) && Produced(out[..], put, a, hist) && put0 <= put
    ensures leave ==> NeedsOut(a) && (put == out.Length || (a.mode == COPY && r.b.next == |input|))
    ensures !leave ==> a.p >= a0.p && (Forward(a0, a) || put > put0)
    ensures a0.mode == COPY ==> a.mode == COPY || a.mode == TYPE
    ensures a0.mode != COPY ==> a.mode == LEN || a.mode == MATCH || a.mode == LIT || a.mode == BAD
    ensures a0.mode != COPY ==>
      r.lencode == r0.lencode && r.distcode == r0.distcode && a.lcode == a0.lcode && a.dcode == a0.dcode
  {
    hide Idle, Produced, OutputWindow.Holds;
    CopyLength(wrap, t0, input, r0, a0);
    if r0.mode == COPY {
      leave, r, put, a := CopyCase(wrap, input, r0, out, put0, t0, a0, hist);
    } else if r0.mode == MATCH {
      leave, r, put, a := MatchCase(wrap, input, r0, out, put0, win, t0, a0, hist);
    } else {
      leave, r, put, a := LitCase(wrap, input, r0, out, put0, t0, a0, hist);
    }
  }
}
