/** The sliding window of inflate (deps/libz/inflate.c: updatewindow,
    inflateGetDictionary, and the addressing of window bytes in MATCH). */
module Window {
  import opened Bits

  /** Where the byte k before the next one to be written stands. */
  function RingSlot(wnext: nat, wsize: nat, k: nat): nat
    requires 1 <= k <= wsize && wnext < wsize
  {
    if k <= wnext then wnext - k else wnext + wsize - k
  }

  function Min(a: nat, b: nat): nat { if a < b then a else b }

  /** The ring holds the last wsize bytes of the output hist, or all of them. */
  ghost predicate Ring(window: seq<byte>, wsize: nat, wnext: nat, whave: nat, hist: seq<byte>) {
    && |window| == wsize && wnext < wsize
    && whave == Min(|hist|, wsize) && (whave < wsize ==> wnext == whave)
    && forall k :: 1 <= k <= whave ==> window[RingSlot(wnext, wsize, k)] == hist[|hist| - k]
  }

  /** The last size bytes, or all of them: what inflateGetDictionary is for. */
  function LastPart(x: seq<byte>, size: nat): seq<byte> { x[|x| - Min(|x|, size)..] }

  /** bytes copied to index at */
  function Blit(w: seq<byte>, at: nat, src: seq<byte>): (r: seq<byte>)
    requires at + |src| <= |w|
    ensures |r| == |w|
  {
    w[..at] + src + w[at + |src|..]
  }

  lemma BlitAt(w: seq<byte>, at: nat, src: seq<byte>, i: nat)
    requires at + |src| <= |w| && i < |w|
    ensures Blit(w, at, src)[i] == if at <= i < at + |src| then src[i - at] else w[i]
  {
  }

  lemma RingFull(w: seq<byte>, hist: seq<byte>, data: seq<byte>)
    requires |w| <= |data| && |w| > 0
    ensures Ring(data[|data| - |w|..], |w|, 0, |w|, hist + data)
  {
    var n := hist + data;
    var w': seq<byte> := data[|data| - |w|..];
    forall k | 1 <= k <= |w| ensures w'[RingSlot(0, |w|, k)] == n[|n| - k] {}
  }

  /** The new bytes fit before the end of the ring. */
  lemma RingPart(w: seq<byte>, wnext: nat, whave: nat, hist: seq<byte>, data: seq<byte>)
    requires Ring(w, |w|, wnext, whave, hist) && |data| < |w| && |data| <= |w| - wnext
    ensures Ring(Blit(w, wnext, data), |w|, if wnext + |data| == |w| then 0 else wnext + |data|,
              if whave < |w| then whave + |data| else whave, hist + data)
  {
    var n, w', next := hist + data, Blit(w, wnext, data), if wnext + |data| == |w| then 0 else wnext + |data|;
    var have := if whave < |w| then whave + |data| else whave;
    assert have == Min(|n|, |w|);
    hide Blit;
    forall k | 1 <= k <= have
      ensures w'[RingSlot(next, |w|, k)] == n[|n| - k]
    {
      BlitAt(w, wnext, data, RingSlot(next, |w|, k));
      if k > |data| { assert w[RingSlot(wnext, |w|, k - |data|)] == hist[|hist| - (k - |data|)]; }
    }
  }

  /** The new bytes go around the end of the ring. */
  lemma RingAround(w: seq<byte>, wnext: nat, whave: nat, hist: seq<byte>, data: seq<byte>)
    requires Ring(w, |w|, wnext, whave, hist) && |w| - wnext < |data| < |w|
    ensures var d := |w| - wnext;
            Ring(Blit(Blit(w, wnext, data[..d]), 0, data[d..]), |w|, |data| - d, |w|, hist + data)
  {
    var d := |w| - wnext;
    var a := Blit(w, wnext, data[..d]);
    var n, w', next := hist + data, Blit(a, 0, data[d..]), |data| - d;
    hide Blit;
    forall k | 1 <= k <= |w|
      ensures w'[RingSlot(next, |w|, k)] == n[|n| - k]
    {
      var i := RingSlot(next, |w|, k);
      BlitAt(w, wnext, data[..d], i);
      BlitAt(a, 0, data[d..], i);
      if k > |data| { assert w[RingSlot(wnext, |w|, k - |data|)] == hist[|hist| - (k - |data|)]; }
    }
  }

  class OutputWindow {
    const window: array<byte>
    const size: nat
    var wsize: nat
    var wnext: nat
    var whave: nat

    constructor (wbits: nat)
      ensures Holds([]) && fresh(window) && size == Pow2(wbits)
    {
      size := Pow2(wbits);
      window := new byte[Pow2(wbits)](i => 0);
      wsize, wnext, whave := 0, 0, 0;
    }

    /** Unused until the first update; then the ring of hist. */
    ghost predicate Holds(hist: seq<byte>)
      reads this, window
    {
      && window.Length == size > 0
      && if wsize == 0 then hist == [] && whave == 0 && wnext == 0
         else wsize == size && Ring(window[..], size, wnext, whave, hist)
    }

    /** updatewindow: append the last copy bytes before end of the output. */
    method Update(out: array<byte>, end: nat, copy: nat, ghost hist: seq<byte>)
      requires Holds(hist) && copy <= end <= out.Length && out != window
      modifies this, window
      ensures Holds(hist + out[end - copy..end]) && wsize == size
    {
      hide Ring, RingSlot;
      if wsize == 0 {
        wsize, wnext, whave := size, 0, 0;
        RingEmpty(window[..]);
      }
      RingBounds(window[..], size, wnext, whave, hist);
      if copy >= wsize {
        Replace(out, end, copy, hist);
      } else {
        var dist := if wsize - wnext > copy then copy else wsize - wnext;
        if copy - dist != 0 {
          WrapAround(out, end, copy, dist, hist);
        } else {
          Append(out, end, copy, dist, hist);
        }
      }
    }

    method Replace(out: array<byte>, end: nat, copy: nat, ghost hist: seq<byte>)
      requires Holds(hist) && wsize == size <= copy <= end <= out.Length && out != window
      modifies this`wnext, this`whave, window
      ensures Holds(hist + out[end - copy..end])
    {
      hide Ring, RingSlot;
      ghost var w0: seq<byte>, data: seq<byte> := window[..], out[end - copy..end];
      RingFull(w0, hist, data);
      Copy(out, end - wsize, wsize, 0);
      assert Blit(w0, 0, out[end - wsize..end]) == data[|data| - size..];
      wnext, whave := 0, wsize;
    }

    method WrapAround(out: array<byte>, end: nat, copy: nat, dist: nat, ghost hist: seq<byte>)
      requires Holds(hist) && wsize == size > copy && copy <= end <= out.Length && out != window
      requires wnext < size && dist == size - wnext < copy
      modifies this`wnext, this`whave, window
      ensures Holds(hist + out[end - copy..end])
    {
      hide Ring, RingSlot, Blit;
      ghost var w0: seq<byte>, data: seq<byte> := window[..], out[end - copy..end];
      RingAround(w0, wnext, whave, hist, data);
      assert out[end - copy..end - copy + dist] == data[..dist] && out[end - copy + dist..end] == data[dist..];
      Copy(out, end - copy, dist, wnext);
      Copy(out, end - (copy - dist), copy - dist, 0);
      wnext, whave := copy - dist, wsize;
    }

    method Append(out: array<byte>, end: nat, copy: nat, dist: nat, ghost hist: seq<byte>)
      requires Holds(hist) && wsize == size > copy && copy <= end <= out.Length && out != window
      requires wnext < size && whave <= size && dist == copy <= size - wnext
      modifies this`wnext, this`whave, window
      ensures Holds(hist + out[end - copy..end])
    {
      hide Ring, RingSlot, Blit;
      ghost var w0: seq<byte>, data: seq<byte> := window[..], out[end - copy..end];
      RingPart(w0, wnext, whave, hist, data);
      Copy(out, end - copy, dist, wnext);
      wnext := wnext + dist;
      if wnext == wsize { wnext := 0; }
      if whave < wsize { whave := whave + dist; }
    }

    /** zmemcpy from the output to the window */
    method Copy(out: array<byte>, from: nat, n: nat, to: nat)
      requires from + n <= out.Length && to + n <= window.Length && out != window
      modifies window
      ensures window[..] == Blit(old(window[..]), to, out[from..from + n])
    {
      forall i | 0 <= i < n { window[to + i] := out[from + i]; }
      assert window[..] == Blit(old(window[..]), to, out[from..from + n]);
    }

    /** inflateGetDictionary: the bytes in order, oldest first. */
    method GetDictionary(ghost hist: seq<byte>) returns (d: seq<byte>)
      requires Holds(hist)
      ensures d == LastPart(hist, size)
    {
      if whave == 0 { return []; }
      d := window[wnext..whave] + window[..wnext];
      forall i | 0 <= i < |d| ensures |d| == whave && d[i] == hist[|hist| - whave + i] {
        assert hist[|hist| - (whave - i)] == window[RingSlot(wnext, size, whave - i)];
      }
    }

    /** The byte at distance dist before the output of this call, as MATCH addresses it. */
    method At(dist: nat, ghost hist: seq<byte>) returns (from: nat)
      requires Holds(hist) && 1 <= dist <= whave
      ensures from < window.Length && window[from] == hist[|hist| - dist]
    {
      if dist > wnext {
        from := wsize - (dist - wnext);
      } else {
        from := wnext - dist;
      }
      assert from == RingSlot(wnext, size, dist);
    }
  }

  lemma RingEmpty(w: seq<byte>)
    requires |w| > 0
    ensures Ring(w, |w|, 0, 0, [])
  {
  }

  lemma RingBounds(w: seq<byte>, wsize: nat, wnext: nat, whave: nat, hist: seq<byte>)
    requires Ring(w, wsize, wnext, whave, hist)
    ensures |w| == wsize && wnext < wsize && whave <= wsize
  {
  }
}
