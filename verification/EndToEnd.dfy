/** deflateInit2, any calls of deflate, inflateInit2 and any calls of inflate: what goes in
    comes out (deps/libz/deflate.c, deps/libz/inflate.c). */
module EndToEnd {
  import opened Bits
  import opened Tokens
  import opened BlockFormat
  import opened Emission
  import opened LzState
  import opened Tally
  import opened DeflateCalls
  import opened RoundTrip
  import opened PieceWriter
  import opened PendingBuffer
  import opened InflateRuns
  import I = Inflate

  /** The data of the first n calls. */
  function Given(calls: seq<Call>, n: nat): seq<byte>
    requires n <= |calls|
  {
    if n == 0 then [] else Given(calls, n - 1) + calls[n - 1].data
  }

  ghost predicate PartlyFlushed(calls: seq<Call>, n: nat)
    requires n <= |calls|
  {
    exists i :: 0 <= i < n && calls[i].flush == Z_PARTIAL_FLUSH
  }

  /** The calls in turn until one of them finishes the stream, and then Z_FINISH: given
      says how many calls there were. */
  method CompressAll(d: Deflater, calls: seq<Call>, ghost lit: nat) returns (given: nat)
    requires d.Valid() && !d.finished && d.s.total == d.s.input == [] && !d.s.partial && d.s.sent == []
    requires d.lastFlush == 0 && d.calls == []
    modifies d, d.s, d.s.window, d.s.head, d.s.prev
    ensures d.Valid() && given <= |calls|
    ensures (forall i :: 0 <= i < |calls| ==> calls[i].flush != Z_FINISH) ==> given == |calls|
    ensures d.finished ==> d.s.total == Given(calls, given)
    ensures d.calls == calls[..given] || d.calls == calls[..given] + [Call([], Z_FINISH)]
    ensures d.s.ample ==> d.finished
    ensures d.s.partial ==> PartlyFlushed(calls, given)
    ensures d.s.ample && OftenFlushed(calls, given, lit) ==> AllShort(d.s.sent, lit)
  {
    hide *;
    given := 0;
    NoneGiven(calls);
    NothingYet(d, calls, lit);
    while given < |calls| && !d.finished
      invariant d.Valid() && given <= |calls| && d.s.total + d.s.input == Given(calls, given)
      invariant d.finished ==> d.s.input == [] && given > 0 && calls[given - 1].flush == Z_FINISH
      invariant d.s.partial ==> PartlyFlushed(calls, given)
      invariant d.calls == calls[..given]
      invariant d.s.ample && OftenFlushed(calls, given, lit) ==>
        AllShort(d.s.sent, lit) && (!d.finished ==> UpToDate(d, Waiting(calls, given)))
    {
      ghost var total, input, sent, last := d.s.total, d.s.input, d.s.sent, d.lastFlush;
      UpToDateIs(d, Waiting(calls, given));
      var ret, done := d.Deflate(calls[given].data, calls[given].flush);
      OneGiven(calls, given, total + input);
      if d.s.ample && OftenFlushed(calls, given + 1, lit) {
        OftenBefore(calls, given, lit);
        SentSizes(d);
        StepShort(d, |total| + |input|, sent, last, calls[given], Waiting(calls, given), lit, ret == Z_BUF_ERROR, done);
      }
      given := given + 1;
    }
    if !d.finished {
      ghost var total, input, sent := d.s.total, d.s.input, d.s.sent;
      UpToDateIs(d, Waiting(calls, given));
      var ret, done := d.Deflate([], Z_FINISH);
      assert Given(calls, given) + [] == Given(calls, given);
      assert total + input + [] == total + input;
      if d.s.ample && OftenFlushed(calls, given, lit) {
        SentSizes(d);
        WaitingShort(calls, given, lit);
        ShortMore(sent, d.s.sent, lit);
      }
    }
    assert d.s.total + [] == d.s.total;
  }

  // ---- How long the blocks are ----

  /** The bytes given since the last flush, before call n. */
  function Waiting(calls: seq<Call>, n: nat): nat
    requires n <= |calls|
  {
    if n == 0 || calls[n - 1].flush != Z_NO_FLUSH then 0 else Waiting(calls, n - 1) + |calls[n - 1].data|
  }

  /** Between two flushes there are never more bytes than three quarters of lit. */
  ghost predicate OftenFlushed(calls: seq<Call>, n: nat, lit: nat)
    requires n <= |calls|
  {
    forall i :: 0 <= i < n ==> 4 * (Waiting(calls, i) + |calls[i].data|) <= 3 * lit
  }

  /** So it is when there are no more in all. */
  lemma {:induction false} FewGiven(calls: seq<Call>, n: nat, lit: nat)
    requires n <= |calls| && 4 * |Given(calls, n)| <= 3 * lit
    ensures OftenFlushed(calls, n, lit)
  {
    forall i | 0 <= i < n ensures 4 * (Waiting(calls, i) + |calls[i].data|) <= 3 * lit {
      WaitingAtMost(calls, i);
      GivenGrows(calls, i + 1, n);
    }
  }

  lemma {:induction false} WaitingAtMost(calls: seq<Call>, n: nat)
    requires n <= |calls|
    ensures Waiting(calls, n) <= |Given(calls, n)|
  {
    if n > 0 { WaitingAtMost(calls, n - 1); }
  }

  lemma {:induction false} GivenGrows(calls: seq<Call>, m: nat, n: nat)
    requires m <= n <= |calls|
    ensures |Given(calls, m)| <= |Given(calls, n)|
  {
    if m < n { GivenGrows(calls, m, n - 1); }
  }

  lemma OftenBefore(calls: seq<Call>, n: nat, lit: nat)
    requires n < |calls| && OftenFlushed(calls, n + 1, lit)
    ensures OftenFlushed(calls, n, lit) && 4 * (Waiting(calls, n) + |calls[n].data|) <= 3 * lit
    ensures Waiting(calls, n + 1)
         == if calls[n].flush != Z_NO_FLUSH then 0 else Waiting(calls, n) + |calls[n].data|
  {
  }

  lemma WaitingShort(calls: seq<Call>, n: nat, lit: nat)
    requires n <= |calls| && OftenFlushed(calls, n, lit)
    ensures 4 * Waiting(calls, n) <= 3 * lit
  {
  }

  function SentLen(ps: seq<Piece>): nat { if ps == [] then 0 else SentLen(ps[..|ps| - 1]) + LenOf(ps[|ps| - 1]) }

  ghost predicate AllShort(ps: seq<Piece>, lit: nat) { forall i :: 0 <= i < |ps| ==> 4 * LenOf(ps[i]) <= 3 * lit }

  lemma {:induction false} PiecesLen(before: seq<byte>, ps: seq<Piece>, out: seq<byte>)
    requires Pieces(before, ps, out)
    ensures |out| == |before| + SentLen(ps)
    decreases |ps|
  {
    hide PieceOk;
    if ps != [] { PiecesLen(before, ps[..|ps| - 1], out[..|out| - LenOf(ps[|ps| - 1])]); }
  }

  /** Pieces that are short in all are short each. */
  lemma {:induction false} ShortMore(ps: seq<Piece>, ps': seq<Piece>, lit: nat)
    requires ps <= ps' && AllShort(ps, lit) && 4 * (SentLen(ps') - SentLen(ps)) <= 3 * lit
    ensures AllShort(ps', lit) && SentLen(ps) <= SentLen(ps')
    decreases |ps'|
  {
    if |ps| < |ps'| {
      SentLenGrows(ps, ps'[..|ps'| - 1]);
      ShortMore(ps, ps'[..|ps'| - 1], lit);
    } else {
      assert ps == ps';
    }
  }

  lemma {:induction false} SentLenGrows(ps: seq<Piece>, ps': seq<Piece>)
    requires ps <= ps'
    ensures SentLen(ps) <= SentLen(ps')
    decreases |ps'|
  {
    if |ps| < |ps'| { SentLenGrows(ps, ps'[..|ps'| - 1]); } else { assert ps == ps'; }
  }

  lemma SentSizes(d: Deflater)
    requires d.Valid()
    ensures SentLen(d.s.sent) <= |d.s.total| && (AllSent(d.s) ==> SentLen(d.s.sent) == |d.s.total|)
  {
    hide Pieces, AllWithin, DeflateReady, Closed, Unfinished;
    SentSpells(d);
    ghost var s := d.s;
    PiecesLen([], s.sent, s.past + s.hist[..s.base + s.blockStart]);
    if AllSent(s) { RestEnd(d); }
  }

  lemma RestEnd(d: Deflater)
    requires d.Valid() && AllSent(d.s)
    ensures d.s.base + d.s.blockStart == |d.s.hist|
  {
    hide Pieces, AllWithin, Closed, Unfinished;
  }

  /** No more than n bytes are not in pieces yet, and none after a flush. */
  ghost predicate UpToDate(d: Deflater, n: nat)
    reads d, d.s
  {
    0 <= d.lastFlush <= 4 && |d.s.total| + |d.s.input| <= SentLen(d.s.sent) + if d.lastFlush == 0 then n else 0
  }

  lemma UpToDateIs(d: Deflater, n: nat)
    ensures UpToDate(d, n) ==>
      0 <= d.lastFlush <= 4 && |d.s.total| + |d.s.input| <= SentLen(d.s.sent) + if d.lastFlush == 0 then n else 0
  {
  }

  lemma NothingYet(d: Deflater, calls: seq<Call>, lit: nat)
    requires d.s.total == d.s.input == [] && d.s.sent == [] && d.lastFlush == 0
    ensures AllShort(d.s.sent, lit) && UpToDate(d, Waiting(calls, 0))
  {
  }

  /** A call that goes on with total bytes of input, of which the pieces sent hold some. */
  lemma StepShort(d: Deflater, total: nat, sent: seq<Piece>, last: int, call: Call, n: nat, lit: nat, error: bool,
                  done: bool)
    requires AllShort(sent, lit) && sent <= d.s.sent && total <= SentLen(sent) + if last == 0 then n else 0
    requires |d.s.total| + |d.s.input| == total + |call.data| && 4 * (n + |call.data|) <= 3 * lit
    requires SentLen(d.s.sent) <= |d.s.total| && d.lastFlush == FlushCode(call.flush)
    requires error ==> call.data == [] && d.s.sent == sent && FlushRank(FlushCode(call.flush)) <= FlushRank(last)
    requires done ==> SentLen(d.s.sent) == |d.s.total| && d.s.input == []
    requires !error && !d.finished && call.flush != Z_NO_FLUSH ==> done
    requires 0 <= last <= 4
    ensures AllShort(d.s.sent, lit)
    ensures !d.finished ==> UpToDate(d, if call.flush != Z_NO_FLUSH then 0 else n + |call.data|)
  {
    hide SentLen, AllShort, LenOf;
    ShortMore(sent, d.s.sent, lit);
  }

  lemma NoneGiven(calls: seq<Call>)
    ensures Given(calls, 0) == []
  {
  }

  lemma OneGiven(calls: seq<Call>, n: nat, x: seq<byte>)
    requires n < |calls|
    ensures x == Given(calls, n) ==> x + calls[n].data == Given(calls, n + 1)
    ensures PartlyFlushed(calls, n + 1) <==> PartlyFlushed(calls, n) || calls[n].flush == Z_PARTIAL_FLUSH
  {
    if calls[n].flush == Z_PARTIAL_FLUSH {
      assert PartlyFlushed(calls, n + 1);
    }
  }

  /** The limits that the parameters of deflateInit2 set. */
  ghost function InitLimits(level: nat, strategy: Strategy, windowBits: nat, memLevel: nat, partial: bool): Limits
    requires level <= 9
  {
    Limits(Configure(level, strategy, Pow2(memLevel + 6)), Pow2(if windowBits == 8 then 9 else windowBits), partial)
  }

  lemma InitLimitsAre(level: nat, strategy: Strategy, windowBits: nat, memLevel: nat, partial: bool)
    requires level <= 9
    ensures InitLimits(level, strategy, windowBits, memLevel, partial)
         == Limits(Configure(level, strategy, Pow2(memLevel + 6)), Pow2(if windowBits == 8 then 9 else windowBits),
           partial)
  {
  }

  /** The pieces spell the data, end with the last block, and keep the limits. */
  ghost predicate Sends(sent: seq<Piece>, data: seq<byte>, g: Limits) {
    Pieces([], sent, data) && Closed(sent) && AllWithin(sent, g)
  }

  /** Why the pieces sent for the data could not be written: pending_buf had no room for one of
      them, or the codes of a block overtook its tokens there.  Neither happens where the limits
      exclude it, and the second only to a piece of some length. */
  ghost predicate Failed(tb: Tables, data: seq<byte>, sent: seq<Piece>, bs: seq<Block>, next: Block, g: Limits) {
    && TablesOk(tb) && Sends(sent, data, g)
    && ((!AlwaysRoom(g) && Overruns(tb, sent, bs, 0, g.cfg))
      || (!NeverOvertakes(g) && Overtakes(tb, sent, bs, next, 0, g.cfg)
        && 4 * LenOf(sent[|bs|]) > 3 * g.cfg.litBufsize))
  }

  /** What a caller can check: pending_buf is large enough, and the blocks do not overtake their
      tokens for their kind, or because they are short. */
  ghost predicate Suffices(g: Limits, calls: seq<Call>, n: nat)
    requires n <= |calls|
  {
    AlwaysRoom(g) && (NeverOvertakes(g) || OftenFlushed(calls, n, g.cfg.litBufsize))
  }

  /** Any calls of deflate, with any parameters of deflateInit2, and any calls of inflate.  ok
      says that the stream was finished by d and written.  With enough output space it is, unless
      pending_buf fails; the ghost results are the blocks for the pieces that d has sent, and
      the one that failed.  It does not fail where the parameters exclude it, nor,
      if there is always room, when the data are flushed often enough. */
  method ThereAndBack(level: nat, strategy: Strategy, windowBits: nat, memLevel: nat, ample: bool, wrap: bool,
                      calls: seq<Call>, cuts: seq<Cut>, room: nat)
    returns (ok: bool, given: nat, output: seq<byte>, ret: I.Return, d: Deflater, ghost tb: Tables,
             ghost bs: seq<Block>, ghost next: Block)
    requires level <= 9 && 8 <= windowBits <= 15 && 1 <= memLevel <= 9
    ensures given <= |calls| && d.Valid()
    ensures d.calls == calls[..given] || d.calls == calls[..given] + [Call([], Z_FINISH)]
    ensures (forall i :: 0 <= i < |calls| ==> calls[i].flush != Z_FINISH) ==> given == |calls|
    ensures ok && room > |Given(calls, given)| ==> ret == I.Z_STREAM_END && output == Given(calls, given)
    ensures ample && !ok ==>
      Failed(tb, Given(calls, given), d.s.sent, bs, next,
        InitLimits(level, strategy, windowBits, memLevel, PartlyFlushed(calls, given)))
    ensures Suffices(InitLimits(level, strategy, windowBits, memLevel, PartlyFlushed(calls, given)), calls, given) ==>
      (ample ==> ok)
  {
    hide *;
    d := DeflateInit(level, strategy, windowBits, memLevel, ample);
    ghost var lit := Pow2(memLevel + 6);
    given := CompressAll(d, calls, lit);
    ok, output, ret, tb, bs, next := false, [], I.Z_OK, Tables([], [], [], []), [], StoredBlock([]);
    if !d.finished { return; }
    InitLimitsAre(level, strategy, windowBits, memLevel, PartlyFlushed(calls, given));
    var stream;
    ok, stream, tb, bs, next := Write(d, wrap, PartlyFlushed(calls, given));
    if !ok && ample {
      FailedAnyhow(tb, d.s.total, d.s.sent, bs, next, Limits(d.s.cfg, d.s.wSize, PartlyFlushed(calls, given)),
        calls, given);
    }
    if ok { output, ret := Read(stream, wrap, d.s.total, cuts, room); }
  }

  /** The finished stream, written by a new encoder. */
  method Write(d: Deflater, wrap: bool, ghost partial: bool)
    returns (ok: bool, stream: seq<byte>, ghost tb: Tables, ghost bs: seq<Block>, ghost next: Block)
    requires d.Valid() && d.finished && (d.s.partial ==> partial)
    ensures ok ==> StreamOf(wrap, stream, d.s.total)
    ensures !ok ==> Failed(tb, d.s.total, d.s.sent, bs, next, Limits(d.s.cfg, d.s.wSize, partial))
  {
    hide *;
    LitBufsizeIs(d);
    var enc := NewEncoder(d.s.cfg.litBufsize);
    QuietFacts(enc);
    ghost var mark;
    ok, stream, mark, bs, next := WriteStream(d, enc, wrap);
    tb := enc.tb;
    if !ok {
      FinishedFacts(d);
      FailedIs(tb, d.s.total, d.s.sent, bs, next, Limits(d.s.cfg, d.s.wSize, d.s.partial), partial);
    }
  }

  lemma LitBufsizeIs(d: Deflater)
    requires d.Valid() && d.finished
    ensures 128 <= d.s.cfg.litBufsize <= 32768
  {
    hide Pieces, AllWithin, Closed, Unfinished;
  }

  lemma FailedIs(tb: Tables, data: seq<byte>, sent: seq<Piece>, bs: seq<Block>, next: Block, g: Limits, partial: bool)
    requires AllWithin(sent, g) && 128 <= g.cfg.litBufsize && (g.partial ==> partial) && TablesOk(tb)
    requires Pieces([], sent, data) && Closed(sent)
    requires Overruns(tb, sent, bs, 0, g.cfg) || Overtakes(tb, sent, bs, next, 0, g.cfg)
    ensures Failed(tb, data, sent, bs, next, g.(partial := partial))
  {
    hide AllWithin, Overruns, Overtakes, Roomy, TablesOk, Pieces, Closed;
    WithinMore(sent, g, partial);
    if Overtakes(tb, sent, bs, next, 0, g.cfg) { OvertakingIsLong(tb, sent, bs, next, 0, g.cfg, data); }
    if AlwaysRoom(g.(partial := partial)) {
      LessPartial(g, partial);
      NeverOverruns(tb, sent, bs, g);
    }
    if NeverOvertakes(g) { NoneOvertakes(tb, sent, bs, next, 0, g); }
  }

  /** inflateInit2 and the calls of inflate. */
  method Read(stream: seq<byte>, wrap: bool, ghost data: seq<byte>, cuts: seq<Cut>, room: nat)
    returns (output: seq<byte>, ret: I.Return)
    requires StreamOf(wrap, stream, data)
    ensures room > |data| ==> ret == I.Z_STREAM_END && output == data
  {
    hide *;
    var s := I.InflateInit(wrap);
    var pos;
    output, pos, ret := Feed(s, stream, cuts, room);
    OutputWithin(wrap, stream, data, pos, s.a);
    if Ended(stream, pos, s.a) { GivesBack(wrap, stream, data, pos, s.a); }
  }

  lemma WithinMore(ps: seq<Piece>, g: Limits, partial: bool)
    requires AllWithin(ps, g) && (g.partial ==> partial)
    ensures AllWithin(ps, g.(partial := partial))
  {
    hide AllNear, Literals;
    forall i | 0 <= i < |ps| ensures Within(ps[i], g.(partial := partial)) { assert Within(ps[i], g); }
  }

  lemma FailedAnyhow(tb: Tables, data: seq<byte>, sent: seq<Piece>, bs: seq<Block>, next: Block, g: Limits,
                     calls: seq<Call>, n: nat)
    requires Failed(tb, data, sent, bs, next, g) && n <= |calls|
    requires OftenFlushed(calls, n, g.cfg.litBufsize) ==> AllShort(sent, g.cfg.litBufsize)
    ensures !Suffices(g, calls, n)
  {
    hide Overruns, Sends, TablesOk, BlocksFor, EncodedAs, PieceFits, AllBits, Overtaking, AlwaysRoom, NeverOvertakes,
      OftenFlushed;
  }

  lemma LessPartial(g: Limits, partial: bool)
    requires AlwaysRoom(g.(partial := partial)) && (g.partial ==> partial)
    ensures AlwaysRoom(g)
  {
  }
}
