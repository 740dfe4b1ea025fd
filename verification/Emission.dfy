/** What the compressor hands to the block encoder (deps/libz/deflate.c: FLUSH_BLOCK,
    the _tr_tally calls): tokens and blocks that spell the input. */
module Emission {
  import opened Bits
  import opened CodeLengths
  import opened Tokens
  import opened BlockReader

  const MIN_MATCH: nat := 3
  const MAX_MATCH: nat := 258

  /** The string at s repeats the one at m. */
  ghost predicate IsMatch(hist: seq<byte>, m: nat, s: nat, len: nat) {
    m < s && s + len <= |hist| && hist[m..m + len] == hist[s..s + len]
  }

  // ---- Tokens ----

  lemma {:induction false} ExpandPush(out: seq<byte>, ts: seq<Token>, t: Token)
    requires AllFit(out, ts) && Fit(ExpandAll(out, ts), t)
    ensures AllFit(out, ts + [t]) && ExpandAll(out, ts + [t]) == Expand(ExpandAll(out, ts), t)
    decreases |ts|
  {
    hide Expand, Fit;
    if ts == [] {
      assert [t][1..] == [];
    } else {
      ExpandPush(Expand(out, ts[0]), ts[1..], t);
      assert (ts + [t])[1..] == ts[1..] + [t];
    }
  }

  lemma {:induction false} CopySize(out: seq<byte>, dist: nat, len: nat)
    requires 1 <= dist <= |out|
    ensures |CopyMatch(out, dist, len)| == |out| + len
    decreases len
  {
    if len > 0 { CopySize(out + [out[|out| - dist]], dist, len - 1); }
  }

  /** Every token stands for a byte at least. */
  lemma {:induction false} ExpandGrows(out: seq<byte>, ts: seq<Token>)
    requires AllFit(out, ts)
    ensures |ExpandAll(out, ts)| >= |out| + |ts|
    decreases |ts|
  {
    if ts != [] {
      if ts[0].Match? { CopySize(out, ts[0].dist, ts[0].lc + 3); }
      ExpandGrows(Expand(out, ts[0]), ts[1..]);
    }
  }

  /** As many bytes as tokens: all are literals. */
  lemma {:induction false} ExpandLiterals(out: seq<byte>, ts: seq<Token>)
    requires AllFit(out, ts) && |ExpandAll(out, ts)| == |out| + |ts|
    ensures Literals(ts)
    decreases |ts|
  {
    if ts != [] {
      if ts[0].Match? { CopySize(out, ts[0].dist, ts[0].lc + 3); }
      ExpandGrows(Expand(out, ts[0]), ts[1..]);
      ExpandLiterals(Expand(out, ts[0]), ts[1..]);
      forall i | 0 <= i < |ts| ensures ts[i].Literal? { if i > 0 { assert ts[i] == ts[1..][i - 1]; } }
    }
  }

  /** A copy from where the string is repeated spells the string. */
  lemma {:induction false} MatchSpells(hist: seq<byte>, m: nat, s: nat, len: nat)
    requires IsMatch(hist, m, s, len)
    ensures CopyMatch(hist[..s], s - m, len) == hist[..s + len]
    decreases len
  {
    if len > 0 {
      var x, y := hist[m..m + len], hist[s..s + len];
      assert x[0] == hist[m] && y[0] == hist[s];
      assert hist[..s] + [hist[s]] == hist[..s + 1];
      assert x[1..] == hist[m + 1..m + len] && y[1..] == hist[s + 1..s + len];
      MatchSpells(hist, m + 1, s + 1, len - 1);
    }
  }

  /** After the first begin bytes, the tokens spell the input up to end. */
  ghost predicate Spells(hist: seq<byte>, begin: int, ts: seq<Token>, end: int) {
    0 <= begin <= end <= |hist| && AllFit(hist[..begin], ts) && ExpandAll(hist[..begin], ts) == hist[..end]
  }

  lemma SpellsLiteral(hist: seq<byte>, begin: int, ts: seq<Token>, end: int)
    requires Spells(hist, begin, ts, end) && end < |hist|
    ensures Spells(hist, begin, ts + [Literal(hist[end])], end + 1)
  {
    ExpandPush(hist[..begin], ts, Literal(hist[end]));
    assert hist[..end] + [hist[end]] == hist[..end + 1];
  }

  lemma SpellsMatch(hist: seq<byte>, begin: int, ts: seq<Token>, end: int, m: nat, len: nat)
    requires Spells(hist, begin, ts, end) && IsMatch(hist, m, end, len) && 3 <= len <= 258
    ensures Spells(hist, begin, ts + [Match(len - 3, end - m)], end + len)
  {
    MatchSpells(hist, m, end, len);
    hide CopyMatch;
    ExpandPush(hist[..begin], ts, Match(len - 3, end - m));
  }

  lemma SpellsMore(hist: seq<byte>, begin: int, ts: seq<Token>, end: int, data: seq<byte>)
    requires Spells(hist, begin, ts, end)
    ensures Spells(hist + data, begin, ts, end)
  {
    assert (hist + data)[..begin] == hist[..begin] && (hist + data)[..end] == hist[..end];
  }

  lemma SpellsNone(hist: seq<byte>, begin: int)
    requires 0 <= begin <= |hist|
    ensures Spells(hist, begin, [], begin)
  {
  }

  // ---- Blocks ----

  /** A call of the block encoder: _tr_flush_block at a level above 0 and at level
      0, _tr_stored_block without data, _tr_align. */
  datatype Piece =
    | Compressed(tokens: seq<Token>, buf: Option<seq<byte>>, len: nat, last: bool)
    | Copied(data: seq<byte>, last: bool)
    | Marker
    | Align

  function LenOf(p: Piece): nat {
    match p case Compressed(_, _, len, _) => len case Copied(data, _) => |data| case Marker => 0 case Align => 0
  }

  /** The piece stands for the end of out, after prev. */
  ghost predicate PieceOk(prev: seq<byte>, p: Piece, out: seq<byte>) {
    match p
    case Compressed(tokens, buf, len, _) =>
      && AllFit(prev, tokens) && ExpandAll(prev, tokens) == out && |out| == |prev| + len && |tokens| < 32768
      && (buf.Some? ==> len < 65536 && out == prev + buf.value)
    case Copied(data, _) => |data| < 65536 && out == prev + data
    case Marker => out == prev
    case Align => out == prev
  }

  /** The pieces, one after another, turn before into out. */
  ghost predicate Pieces(before: seq<byte>, ps: seq<Piece>, out: seq<byte>)
    decreases |ps|
  {
    if ps == [] then out == before
    else
      var p := ps[|ps| - 1];
      LenOf(p) <= |out|
      && PieceOk(out[..|out| - LenOf(p)], p, out) && Pieces(before, ps[..|ps| - 1], out[..|out| - LenOf(p)])
  }

  lemma PiecesPush(before: seq<byte>, ps: seq<Piece>, mid: seq<byte>, p: Piece, out: seq<byte>)
    requires Pieces(before, ps, mid) && PieceOk(mid, p, out) && |out| == |mid| + LenOf(p) && mid <= out
    ensures Pieces(before, ps + [p], out)
  {
    hide PieceOk;
    assert (ps + [p])[..|ps|] == ps;
    assert out[..|mid|] == mid;
  }

  /** A finished block. */
  lemma BlockDone(hist: seq<byte>, begin: int, ts: seq<Token>, end: int, ps: seq<Piece>, buf: Option<seq<byte>>,
                  last: bool)
    requires Spells(hist, begin, ts, end) && Pieces([], ps, hist[..begin]) && |ts| < 32768
    requires buf.Some? ==> end - begin < 65536 && buf.value == hist[begin..end]
    ensures Pieces([], ps + [Compressed(ts, buf, end - begin, last)], hist[..end])
  {
    hide Pieces;
    assert hist[..begin] + hist[begin..end] == hist[..end];
    PiecesPush([], ps, hist[..begin], Compressed(ts, buf, end - begin, last), hist[..end]);
  }

  lemma CopyDone(hist: seq<byte>, begin: int, end: int, ps: seq<Piece>, last: bool)
    requires 0 <= begin <= end <= |hist| && Pieces([], ps, hist[..begin]) && end - begin < 65536
    ensures Pieces([], ps + [Copied(hist[begin..end], last)], hist[..end])
  {
    hide Pieces;
    assert hist[..begin] + hist[begin..end] == hist[..end];
    PiecesPush([], ps, hist[..begin], Copied(hist[begin..end], last), hist[..end]);
  }

  // ---- Full flushes ----

  /** More output before does not change a copy that stays clear of it. */
  lemma {:induction false} CopyAfter(x: seq<byte>, o: seq<byte>, dist: nat, len: nat)
    requires 1 <= dist <= |o|
    ensures CopyMatch(x + o, dist, len) == x + CopyMatch(o, dist, len)
    decreases len
  {
    if len > 0 {
      CopyAfter(x, o + [o[|o| - dist]], dist, len - 1);
      assert x + o + [o[|o| - dist]] == x + (o + [o[|o| - dist]]);
    }
  }

  lemma ExpandOneAfter(x: seq<byte>, o: seq<byte>, t: Token)
    requires Fit(o, t)
    ensures Fit(x + o, t) && Expand(x + o, t) == x + Expand(o, t)
  {
    if t.Match? { CopyAfter(x, o, t.dist, t.lc + 3); }
    else { assert x + o + [t.c] == x + (o + [t.c]); }
  }

  lemma {:induction false} ExpandAfter(x: seq<byte>, o: seq<byte>, ts: seq<Token>)
    requires AllFit(o, ts)
    ensures AllFit(x + o, ts) && ExpandAll(x + o, ts) == x + ExpandAll(o, ts)
    decreases |ts|
  {
    hide Expand, Fit;
    if ts != [] {
      ExpandOneAfter(x, o, ts[0]);
      ExpandAfter(x, Expand(o, ts[0]), ts[1..]);
    }
  }

  lemma PieceAfter(x: seq<byte>, prev: seq<byte>, p: Piece, out: seq<byte>)
    requires PieceOk(prev, p, out)
    ensures PieceOk(x + prev, p, x + out)
  {
    if p.Compressed? {
      ExpandAfter(x, prev, p.tokens);
      if p.buf.Some? { assert x + prev + p.buf.value == x + (prev + p.buf.value); }
    } else if p.Copied? {
      assert x + prev + p.data == x + (prev + p.data);
    }
  }

  /** Pieces that stand alone, as after a full flush, also stand after others. */
  lemma {:induction false} PiecesJoin(x: seq<byte>, ps: seq<Piece>, qs: seq<Piece>, out: seq<byte>)
    requires Pieces([], ps, x) && Pieces([], qs, out)
    ensures Pieces([], ps + qs, x + out)
    decreases |qs|
  {
    hide PieceOk;
    if qs == [] {
      assert ps + qs == ps && x + out == x;
    } else {
      var p, mid := qs[|qs| - 1], out[..|out| - LenOf(qs[|qs| - 1])];
      PiecesJoin(x, ps, qs[..|qs| - 1], mid);
      PieceAfter(x, mid, p, out);
      assert ps + qs == ps + qs[..|qs| - 1] + [p];
      PiecesPush([], ps + qs[..|qs| - 1], x + mid, p, x + out);
    }
  }
}
