/** The dictionary after the end of a stream (deps/libz/inflate.c: CHECK,
    updatewindow, inflateGetDictionary).  CHECK takes the output of the call off the
    count, so for a zlib stream the closing updatewindow copies nothing. */
module StaleDictionary {
  import opened Bits
  import opened Machine
  import opened BitBuffer
  import opened Window
  import opened Inflate
  import opened InflateRuns
  import opened Tokens
  import opened BlockFormat
  import opened Encoder
  import opened Emission
  import opened Tally
  import opened PieceWriter
  import opened RoundTrip
  import A32 = Adler32
  import L = LzState
  import D = DeflateCalls

  /** The last 32K of the output repeat what is put bytes before. */
  ghost predicate Periodic(out: seq<byte>, put: nat) {
    |out| >= 32768 + put && forall i :: |out| - 32768 <= i < |out| ==> out[i] == out[i - put]
  }

  /** At the end of a stream, when the last call has produced put bytes of the output,
      inflateGetDictionary is right if and only if the stream is raw, or that call
      produced nothing, or what it produced happens to repeat the 32K before. */
  lemma DictionaryExactly(wrap: bool, out: seq<byte>, put: nat)
    requires put <= |out|
    ensures var kept := if wrap then out[..|out| - put] else out;
      LastPart(kept, 32768) == LastPart(out, 32768) <==> !wrap || put == 0 || Periodic(out, put)
  {
    var before := out[..|out| - put];
    if put == 0 {
      assert before == out;
    } else if |out| >= 32768 + put {
      var x, y := LastPart(before, 32768), LastPart(out, 32768);
      forall j | 0 <= j < 32768 ensures x[j] == out[|out| - 32768 + j - put] && y[j] == out[|out| - 32768 + j] {}
      if x == y {
        forall i | |out| - 32768 <= i < |out| ensures out[i] == out[i - put] {
          var j := i - (|out| - 32768);
          assert x[j] == y[j];
        }
      }
    } else {
      assert |LastPart(before, 32768)| < |LastPart(out, 32768)|;
    }
  }

  /** The last call of a stream, and the dictionary after it. */
  method LastCall(s: Inflater, input: seq<byte>, out: array<byte>)
    returns (ret: Return, used: nat, put: nat, d: seq<byte>)
    requires s.Ready() && out != s.win.window && s.a.mode != DONE && s.a.mode != BAD
    modifies s, s.lens, s.work, s.codes, out, s.win, s.win.window
    ensures s.Ready() && used <= |input| && put <= out.Length && s.a.out == old(s.a.out) + out[..put]
    ensures ret == ReturnCode(s.a.mode, used, put)
    ensures s.a.mode == DONE ==>
      (d == LastPart(s.a.out, 32768) <==> !s.wrap || put == 0 || Periodic(s.a.out, put))
  {
    hide *;
    ghost var before := s.a.out;
    ghost var fast;
    ret, used, put, fast := s.Inflate(input, out);
    d := s.GetDictionary();
    WithoutLast(before, out[..put]);
    DictionaryExactly(s.wrap, s.a.out, put);
  }

  lemma WithoutLast(x: seq<byte>, y: seq<byte>)
    ensures (x + y)[..|x + y| - |y|] == x
  {
  }

  // ---- A stream that shows it ----

  /** One stored block that holds the byte 61. */
  lemma OnePiece()
    ensures var ps := [Copied([0x61], true)];
      Pieces([], ps, [0x61]) && Closed(ps) && (forall i :: 0 <= i < |ps| ==> PieceSized(ps[i], 128))
  {
    var ps: seq<Piece>, x: seq<byte> := [Copied([0x61], true)], [0x61];
    assert ps[..0] == [] && x[..0] == [];
    assert [] + x == x;
  }

  lemma OnePieceFits(tb: Tables, bs: seq<Block>, next: Block)
    ensures !Overruns(tb, [Copied([0x61], true)], bs, 0, D.Configure(0, L.Z_DEFAULT_STRATEGY, 128))
    ensures !Overtakes(tb, [Copied([0x61], true)], bs, next, 0, D.Configure(0, L.Z_DEFAULT_STRATEGY, 128))
  {
    hide BlocksFor, EncodedAs, AllBits, Cheaper;
  }

  lemma SmallConfig()
    ensures D.Configure(0, L.Z_DEFAULT_STRATEGY, 128).litBufsize == 128
  {
  }

  lemma HeaderPlain()
    ensures HeaderFits(0x7801)
  {
  }

  lemma StartHead(wrap: bool)
    ensures Start(wrap).mode == HEAD && Start(wrap).out == [] && forall x: seq<bool> :: [] + x == x
  {
  }

  /** One call decodes the stream of one byte to its end. */
  lemma OneCallEnds(stream: seq<byte>, pos: nat, a: State, full: bool)
    requires StreamOf(true, stream, [0x61]) && Ran(true, stream, pos, a)
    requires Stuck(BytesToBits(stream[..pos]), full, pos == |stream|, a) && (full ==> |a.out| == 10)
    ensures a.mode == DONE && a.out == [0x61]
  {
    hide *;
    RanPlace(true, stream, pos, a);
    StuckEnds(stream, pos, full, a);
    if Ended(stream, pos, a) {
      GivesBack(true, stream, [0x61], pos, a);
    } else {
      OutputWithin(true, stream, [0x61], pos, a);
    }
  }

  lemma RanPlace(wrap: bool, data: seq<byte>, pos: nat, a: State)
    requires Ran(wrap, data, pos, a)
    ensures pos <= |data|
  {
    hide Follows, BytesToBits;
  }

  /** A whole zlib stream in one call: the output is one byte, the dictionary is empty. */
  method StaleDictionary() returns (s: Inflater, d: seq<byte>)
    ensures s.Ready() && s.a.mode == DONE && s.a.out == [0x61] && LastPart(s.a.out, 32768) == [0x61]
    ensures d == LastPart(s.kept, 32768) == [] && s.kept == []
  {
    hide *;
    var enc := NewEncoder(128);
    OnePiece();
    SmallConfig();
    HeaderPlain();
    AdlerBound([0x61]);
    var adler := A32.Adler([0x61]);
    var ok, stream;
    ghost var bs, next;
    ok, stream, bs, next := WritePieces(enc, [Copied([0x61], true)], D.Configure(0, L.Z_DEFAULT_STRATEGY, 128),
      true, 0x7801, adler, [0x61]);
    OnePieceFits(enc.tb, bs, next);
    s := InflateInit(true);
    var out := new byte[10];
    StartHead(true);
    var ret, used, put;
    ghost var fast;
    ret, used, put, fast := s.Inflate(stream, out);
    ReadyRan(s, stream, used);
    OneCallEnds(stream, used, s.a, put == 10);
    d := s.GetDictionary();
    Parts();
  }

  lemma Parts()
    ensures LastPart([], 32768) == [] && LastPart([0x61], 32768) == [0x61]
  {
  }
}
