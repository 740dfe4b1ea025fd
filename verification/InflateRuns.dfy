/** Runs of inflate calls (deps/libz/inflate.c): what a run decodes does not
    depend on how its input and its output space are cut into calls. */
module InflateRuns {
  import opened Bits
  import opened CodeLengths
  import opened Machine
  import opened MachineLaws
  import opened BitBuffer
  import opened Window
  import opened Inflate

  /** One call: at most take bytes of input, and room for that many bytes of output. */
  datatype Cut = Cut(take: nat, room: nat)

  /** pos bytes of the data are used, and the machine stands at a. */
  ghost predicate Ran(wrap: bool, data: seq<byte>, pos: nat, a: State) {
    && pos <= |data| && Follows(wrap, BytesToBits(data[..pos]), a)
    && (a.mode == DONE ==> a.p == 8 * pos)
  }

  /** Nothing more can come of this data: an end, or all is used and no step is possible. */
  ghost predicate Ended(data: seq<byte>, pos: nat, a: State) {
    a.mode == DONE || a.mode == BAD || a.mode == DICT || (pos == |data| && StepIn(a, BytesToBits(data)).None?)
  }

  lemma ReadyRan(s: Inflater, data: seq<byte>, pos: nat)
    requires s.Ready() && pos <= |data| && s.t == BytesToBits(data[..pos])
    ensures Ran(s.wrap, data, pos, s.a)
  {
    hide *;
    ReadyFollows(s);
    BitsOf(data[..pos]);
    RanIs(s.wrap, data, pos, s.a);
  }

  lemma RanIs(wrap: bool, data: seq<byte>, pos: nat, a: State)
    requires pos <= |data| && Follows(wrap, BytesToBits(data[..pos]), a) && (a.mode == DONE ==> a.p == 8 * pos)
    ensures Ran(wrap, data, pos, a)
  {
    hide Follows, BytesToBits;
  }

  lemma ReadyFollows(s: Inflater)
    requires s.Ready()
    ensures Follows(s.wrap, s.t, s.a) && (s.a.mode == DONE ==> s.a.p == |s.t|)
  {
    hide *;
    ReadyIdle(s);
    StreamNone(s.t, []);
    IdleGot(s.wrap, s.t, [], s.r, s.a);
    GotFacts(s.wrap, s.t, [], s.r, s.a);
    GotFollows(s.wrap, s.t, [], s.r, s.a);
    DoneBits(s.r.b.bits, s.a, s.t);
  }

  lemma DoneBits(bits: nat, a: State, t: seq<bool>)
    requires Lazy(bits, a, t)
    ensures a.mode == DONE ==> bits == 0
  {
    hide StepIn;
  }

  lemma ReadyIdle(s: Inflater)
    requires s.Ready()
    ensures Idle(s.wrap, s.t, [], s.r, s.a) && s.r.b.next == 0
  {
    hide Idle, Inflater.Shape, LengthsOk, TablesReady, OutputWindow.Holds;
  }

  /** A run over the data with the calls that the cuts describe, then one with all
      that is left and room for room bytes. */
  method Feed(s: Inflater, data: seq<byte>, cuts: seq<Cut>, room: nat)
    returns (output: seq<byte>, pos: nat, ret: Return)
    requires s.Ready() && s.t == [] && s.a == Start(s.wrap)
    modifies s, s.lens, s.work, s.codes, s.win, s.win.window
    ensures s.Ready() && Ran(s.wrap, data, pos, s.a) && output == s.a.out
    ensures (ret == Z_STREAM_END <==> s.a.mode == DONE) && (ret == Z_DATA_ERROR <==> s.a.mode == BAD)
    ensures Ended(data, pos, s.a) || (|output| >= room && NeedsOut(s.a))
  {
    hide *;
    output, pos, ret := [], 0, Z_OK;
    StartMode(s.wrap);
    NoBytes(data);
    for i := 0 to |cuts|
      invariant s.Ready() && pos <= |data| && s.t == BytesToBits(data[..pos]) && s.a.out == output
    {
      var input := if cuts[i].take <= |data| - pos then data[pos..pos + cuts[i].take] else data[pos..];
      var used, piece;
      ret, used, piece := OneCall(s, data, pos, input, cuts[i].room);
      output, pos := output + piece, pos + used;
    }
    var used, piece;
    ghost var before := pos;
    ret, used, piece := OneCall(s, data, pos, data[pos..], room);
    output, pos := output + piece, pos + used;
    ReadyRan(s, data, pos);
    StuckEnds(data, pos, |piece| == room, s.a);
  }

  method OneCall(s: Inflater, ghost data: seq<byte>, ghost pos: nat, input: seq<byte>, room: nat)
    returns (ret: Return, used: nat, piece: seq<byte>)
    requires s.Ready() && pos <= |data| && s.t == BytesToBits(data[..pos]) && input <= data[pos..]
    modifies s, s.lens, s.work, s.codes, s.win, s.win.window
    ensures s.Ready() && used <= |input| && s.t == BytesToBits(data[..pos + used]) && s.a.out == old(s.a.out) + piece
    ensures (ret == Z_STREAM_END <==> s.a.mode == DONE) && (ret == Z_DATA_ERROR <==> s.a.mode == BAD)
    ensures Stuck(s.t, |piece| == room, used == |input|, s.a)
  {
    hide *;
    var out := new byte[room];
    var put;
    ghost var fast;
    ret, used, put, fast := s.Inflate(input, out);
    piece := out[..put];
    MoreBytes(data, pos, input, used);
    Codes(s.a.mode, used, put);
  }

  lemma StuckEnds(data: seq<byte>, pos: nat, full: bool, a: State)
    requires pos <= |data| && Stuck(BytesToBits(data[..pos]), full, pos == |data|, a)
    ensures Ended(data, pos, a) || (full && NeedsOut(a))
  {
    hide StepIn, BytesToBits, NeedsOut;
    assert data[..|data|] == data;
  }

  lemma StartMode(wrap: bool)
    ensures Start(wrap).mode == HEAD && Start(wrap).out == []
  {
  }

  lemma NoBytes(data: seq<byte>)
    ensures BytesToBits(data[..0]) == []
  {
  }

  lemma MoreBytes(data: seq<byte>, pos: nat, input: seq<byte>, used: nat)
    requires pos <= |data| && input <= data[pos..] && used <= |input|
    ensures BytesToBits(data[..pos]) + BytesToBits(input[..used]) == BytesToBits(data[..pos + used])
  {
    hide BytesToBits;
    BytesConcat(data[..pos], input[..used]);
    assert data[..pos] + input[..used] == data[..pos + used];
  }

  lemma Codes(m: Mode, used: nat, put: nat)
    ensures ReturnCode(m, used, put) == Z_STREAM_END <==> m == DONE
    ensures ReturnCode(m, used, put) == Z_DATA_ERROR <==> m == BAD
  {
  }

  // ---- Independence of the cuts ----

  /** A run over part of the data is a run over all of it. */
  lemma RanWhole(wrap: bool, data: seq<byte>, pos: nat, a: State)
    requires Ran(wrap, data, pos, a)
    ensures Follows(wrap, BytesToBits(data), a)
  {
    hide Follows, BytesToBits;
    BytesConcat(data[..pos], data[pos..]);
    assert data == data[..pos] + data[pos..];
    FollowsMore(wrap, BytesToBits(data[..pos]), BytesToBits(data), a);
  }

  lemma EndedStays(wrap: bool, data: seq<byte>, pos: nat, a: State)
    requires Ended(data, pos, a)
    ensures StepIn(a, BytesToBits(data)).None?
  {
    hide BytesToBits;
  }

  lemma OneEnd(wrap: bool, t: seq<bool>, a1: State, a2: State)
    requires Follows(wrap, t, a1) && Follows(wrap, t, a2) && StepIn(a1, t).None? && StepIn(a2, t).None?
    ensures a1 == a2
  {
    hide Sound, Steps, StepIn;
    var m: nat :| Steps(Start(wrap), t, m) == Some(a1);
    var n: nat :| Steps(Start(wrap), t, n) == Some(a2);
    RunEnds(Start(wrap), t, m, n);
  }

  /** However the data and the output space were cut, two runs that came to an end
      came to the same: output, verdict, and bytes used when the stream is complete. */
  lemma SplitIndependence(wrap: bool, data: seq<byte>, pos1: nat, a1: State, pos2: nat, a2: State)
    requires Ran(wrap, data, pos1, a1) && Ended(data, pos1, a1) && Ran(wrap, data, pos2, a2) && Ended(data, pos2, a2)
    ensures a1 == a2 && (a1.mode == DONE ==> pos1 == pos2)
  {
    RanWhole(wrap, data, pos1, a1);
    RanWhole(wrap, data, pos2, a2);
    EndedStays(wrap, data, pos1, a1);
    EndedStays(wrap, data, pos2, a2);
    OneEnd(wrap, BytesToBits(data), a1, a2);
    hide Follows, StepIn, BytesToBits;
  }

  lemma {:induction false} OutputGrows(s: State, t: seq<bool>, n: nat)
    requires Steps(s, t, n).Some?
    ensures s.out <= Steps(s, t, n).value.out
    decreases n
  {
    hide Step;
    if n > 0 {
      StepGrows(s, t[s.p..]);
      OutputGrows(StepIn(s, t).value, t, n - 1);
    }
  }

  /** No run over the bits produces more than the one that comes to its end. */
  lemma EndOutput(wrap: bool, t: seq<bool>, e: State, a: State)
    requires Follows(wrap, t, e) && Follows(wrap, t, a) && StepIn(e, t).None?
    ensures a.out <= e.out
  {
    hide Sound, Steps, StepIn;
    var m: nat :| Steps(Start(wrap), t, m) == Some(e);
    var n: nat :| Steps(Start(wrap), t, n) == Some(a);
    EndLast(Start(wrap), t, m, n);
    OutputGrows(a, t, m - n);
  }

  lemma EndLast(s: State, t: seq<bool>, m: nat, n: nat)
    requires Steps(s, t, m).Some? && Steps(s, t, n).Some? && StepIn(Steps(s, t, m).value, t).None?
    ensures n <= m && Steps(Steps(s, t, n).value, t, m - n) == Steps(s, t, m)
  {
    hide StepIn;
    if n > m {
      RunAdd(s, t, m, n - m);
      assert false;
    }
    RunAdd(s, t, n, m - n);
  }

  /** At any two moments of any two runs over the data, one output begins the other. */
  lemma OutputsAgree(wrap: bool, data: seq<byte>, pos1: nat, a1: State, pos2: nat, a2: State)
    requires Ran(wrap, data, pos1, a1) && Ran(wrap, data, pos2, a2)
    ensures a1.out <= a2.out || a2.out <= a1.out
  {
    hide Sound, Steps, StepIn;
    RanWhole(wrap, data, pos1, a1);
    RanWhole(wrap, data, pos2, a2);
    var t := BytesToBits(data);
    var m: nat :| Steps(Start(wrap), t, m) == Some(a1);
    var n: nat :| Steps(Start(wrap), t, n) == Some(a2);
    if m <= n {
      RunAdd(Start(wrap), t, m, n - m);
      OutputGrows(a1, t, n - m);
    } else {
      RunAdd(Start(wrap), t, n, m - n);
      OutputGrows(a2, t, m - n);
    }
  }
}
