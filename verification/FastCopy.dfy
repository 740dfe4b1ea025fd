/** The match copy of inflate_fast (deps/libz/inffast.c): from the output, from
    one piece or two pieces of the window, or from the window and then the output. */
module FastCopy {
  import opened Bits
  import opened BlockReader
  import opened OutputStates
  import opened Window

  lemma {:induction false} CopyMatchAdd(o: seq<byte>, dist: nat, m: nat, n: nat)
    requires 1 <= dist <= |o|
    ensures CopyMatch(CopyMatch(o, dist, m), dist, n) == CopyMatch(o, dist, m + n)
    decreases m
  {
    if m > 0 { CopyMatchAdd(o + [o[|o| - dist]], dist, m - 1, n); }
  }

  /** One copy after another. */
  lemma RepeatedAdd(hist: seq<byte>, o0: seq<byte>, p0: nat, o1: seq<byte>, p1: nat, o2: seq<byte>, p2: nat, dist: nat)
    requires Repeated(hist, o0, p0, o1, p1, dist) && Repeated(hist, o1, p1, o2, p2, dist)
    ensures Repeated(hist, o0, p0, o2, p2, dist)
  {
    CopyMatchAdd(hist + o0[..p0], dist, p1 - p0, p2 - p1);
    hide CopyMatch;
  }

  /** Three bytes at a time, then the rest, from the output. */
  method CopyThrees(out: array<byte>, put: nat, dist: nat, len0: nat, ghost hist: seq<byte>)
    requires 1 <= dist <= put && put + len0 <= out.Length
    modifies out
    ensures Repeated(hist, old(out[..]), put, out[..], put + len0, dist)
  {
    hide Repeated;
    RepeatedNone(hist, out[..], put, dist);
    var len, p := len0, put;
    while len > 2
      invariant 0 <= len && p + len == put + len0 && Repeated(hist, old(out[..]), put, out[..], p, dist)
    {
      ghost var o: seq<byte> := out[..];
      CopyWithin(out, p, dist, 3, hist);
      RepeatedAdd(hist, old(out[..]), put, o, p, out[..], p + 3, dist);
      p, len := p + 3, len - 3;
    }
    if len > 0 {
      ghost var o: seq<byte> := out[..];
      CopyWithin(out, p, dist, len, hist);
      RepeatedAdd(hist, old(out[..]), put, o, p, out[..], p + len, dist);
    }
  }

  /** The piece of the window that starts d bytes before its end. */
  lemma PieceAt(win: OutputWindow, d: nat, from: nat, n: nat, hist: seq<byte>)
    requires win.Holds(hist) && 1 <= d <= win.whave && n <= d
    requires if d > win.wnext then from == win.wsize + win.wnext - d && n <= d - win.wnext else from == win.wnext - d
    ensures from + n <= win.window.Length && d <= |hist|
    ensures win.window[from..from + n] == hist[|hist| - d..|hist| - d + n]
  {
    WindowReach(win, hist);
    var w, h := win.window[from..from + n], hist[|hist| - d..|hist| - d + n];
    forall i | 0 <= i < n ensures w[i] == h[i] {
      assert from + i == RingSlot(win.wnext, win.size, d - i);
      assert hist[|hist| - (d - i)] == win.window[RingSlot(win.wnext, win.size, d - i)];
    }
  }

  /** op bytes from the window at from, the rest from the output. */
  method WindowThenOutput(out: array<byte>, put: nat, window: array<byte>, from: nat, op: nat, dist: nat, len: nat,
                          ghost hist: seq<byte>)
    requires out != window && put + len <= out.Length && dist == put + op && 1 <= op <= |hist|
    requires from + op <= window.Length
    requires window[from..from + op] == hist[|hist| - op..]
    modifies out
    ensures Repeated(hist, old(out[..]), put, out[..], put + len, dist)
  {
    hide Repeated;
    assert hist[|hist| - op..] == hist[|hist| - op..|hist| - op + op];
    if op < len {
      CopyWindow(out, put, window, from, op, op, op, hist);
      ghost var o: seq<byte> := out[..];
      CopyThrees(out, put + op, dist, len - op, hist);
      RepeatedAdd(hist, old(out[..]), put, o, put + op, out[..], put + len, dist);
    } else {
      CopyWindow(out, put, window, from, op, len, op, hist);
    }
  }

  /** dist reaches before the output of this call, into the window. */
  method FromWindow(out: array<byte>, put: nat, win: OutputWindow, dist: nat, len: nat, ghost hist: seq<byte>)
    requires win.Holds(hist) && out != win.window && put + len <= out.Length && put < dist && dist - put <= win.whave
    modifies out
    ensures Repeated(hist, old(out[..]), put, out[..], put + len, dist)
  {
    hide Repeated, RingSlot;
    var op := dist - put;                               // distance back in window
    WindowReach(win, hist);
    if win.wnext < op && win.wnext != 0 {               // wrap around window
      var from := win.wsize + win.wnext - op;
      var piece := op - win.wnext;
      PieceAt(win, op, from, piece, hist);
      if piece < len {                                  // some from end of window
        CopyWindow(out, put, win.window, from, op, piece, piece, hist);
        ghost var o: seq<byte> := out[..];
        PieceAt(win, win.wnext, 0, win.wnext, hist);
        assert hist[|hist| - win.wnext..|hist| - win.wnext + win.wnext] == hist[|hist| - win.wnext..];
        WindowThenOutput(out, put + piece, win.window, 0, win.wnext, dist, len - piece, hist);
        RepeatedAdd(hist, old(out[..]), put, o, put + piece, out[..], put + len, dist);
      } else {
        CopyWindow(out, put, win.window, from, op, len, piece, hist);
      }
    } else {                                            // contiguous in window
      var from := if win.wnext == 0 then win.wsize - op else win.wnext - op;
      PieceAt(win, op, from, op, hist);
      assert hist[|hist| - op..|hist| - op + op] == hist[|hist| - op..];
      WindowThenOutput(out, put, win.window, from, op, dist, len, hist);
    }
  }
}
