/** INSERT_STRING and fill_window (deps/libz/deflate.c): reading input, and sliding
    the window and the hash tables down by half. */
module WindowFill {
  import opened Bits
  import opened RollingHash
  import opened HashChains
  import opened Emission
  import opened LzState
  import A32 = Adler32

  /** ins_h is ready for the string at a: it has taken in the first two bytes. */
  ghost predicate Rolling(k: Hashing, hist: seq<byte>, a: nat, insH: nat) {
    a + 1 < |hist| && exists h: nat :: insH == Mix(k, Mix(k, h, hist[a]), hist[a + 1])
  }

  lemma RollingMix(k: Hashing, hist: seq<byte>, a: nat, insH: nat)
    requires HashingOk(k) && Rolling(k, hist, a, insH) && a + 2 < |hist|
    ensures Mix(k, insH, hist[a + 2]) == HashAt(k, hist, a)
    ensures Rolling(k, hist, a + 1, Mix(k, insH, hist[a + 2]))
  {
    hide Mix;
    var h: nat :| insH == Mix(k, Mix(k, h, hist[a]), hist[a + 1]);
    MixForgets(k, h, hist[a], hist[a + 1], hist[a + 2]);
  }

  /** ins_h = window[a]; UPDATE_HASH(ins_h, window[a + 1]) */
  lemma RollingStart(k: Hashing, hist: seq<byte>, a: nat)
    requires HashingOk(k) && a + 1 < |hist|
    ensures Rolling(k, hist, a, Mix(k, hist[a], hist[a + 1]))
  {
    MixFirst(k, hist[a]);
    hide Mix;
  }

  lemma WindowByte(window: seq<byte>, hist: seq<byte>, base: nat, i: nat)
    requires Windowed(window, hist, base) && base + i < |hist|
    ensures i < |window| && window[i] == hist[base + i]
  {
    assert window[..|hist| - base][i] == hist[base..][i];
  }

  /** INSERT_STRING */
  method InsertString(s: Lz, str: nat) returns (matchHead: nat)
    requires s.Valid() && Rolling(s.k, s.hist, s.base + str, s.insH) && s.top <= s.base + str
    requires s.base + str + 2 < |s.hist|
    modifies s`insH, s`ins, s`top, s.head, s.prev
    ensures s.Valid() && Rolling(s.k, s.hist, s.base + str + 1, s.insH) && s.top == s.base + str + 1
    ensures s.ins == old(s.ins) + {s.base + str}
    ensures LinksTo(s.k, s.hist, s.base, old(s.ins), matchHead, HashAt(s.k, s.hist, s.base + str), s.base + str)
  {
    hide Rolling, Chained, Windowed, Mix, HashAt, Low, HashingOk, LinksTo;
    WindowByte(s.window[..], s.hist, s.base, str + 2);
    RollingMix(s.k, s.hist, s.base + str, s.insH);
    InsertChained(s.k, s.hist, s.base, s.ins, s.head[..], s.prev[..], s.wBits, s.top, str);
    s.insH := Mix(s.k, s.insH, s.window[str + 2]);
    matchHead := s.head[s.insH];
    s.prev[Low(str, s.wBits)] := matchHead;
    s.head[s.insH] := str;
    s.ins, s.top := s.ins + {s.base + str}, s.base + str + 1;
  }

  // ---- The state between two steps ----

  /** Inserted strings lie before the current one, and insert counts the last
      strings that could not be inserted. */
  ghost predicate Settled(hist: seq<byte>, base: nat, strstart: nat, lookahead: nat, insert: nat, top: nat) {
    && base + strstart + lookahead == |hist| && top <= base + strstart && (top + 2 <= |hist| || top == 0)
    && (base > 0 ==> strstart >= 2)
    && (insert > 0 ==> lookahead + insert < MIN_MATCH && insert <= strstart && top + insert <= base + strstart)
  }

  ghost predicate Steady(s: Lz)
    reads s, s.window, s.head, s.prev
  {
    s.Valid() && Settled(s.hist, s.base, s.strstart, s.lookahead, s.insert, s.top)
  }

  /** ins_h is ready for the current string when three bytes are there. */
  ghost predicate Ready(s: Lz)
    reads s, s.window, s.head, s.prev
  {
    Steady(s) && (s.lookahead >= MIN_MATCH ==> Rolling(s.k, s.hist, s.base + s.strstart, s.insH))
  }

  // ---- Sliding ----

  /** x - d on 32 bits. */
  function Wrap(x: nat, d: nat): nat { (x - d) % 0x1_0000_0000 }

  /** m >= wsize ? m - wsize : NIL, for every entry. */
  method SlideTable(a: array<nat>, w: nat)
    modifies a
    ensures forall i :: 0 <= i < a.Length ==> a[i] == Slid(old(a[i]), w)
  {
    var n := a.Length;
    while n > 0
      invariant 0 <= n <= a.Length
      invariant forall i :: 0 <= i < n ==> a[i] == old(a[i])
      invariant forall i :: n <= i < a.Length ==> a[i] == Slid(old(a[i]), w)
    {
      n := n - 1;
      a[n] := if a[n] >= w then a[n] - w else 0;
    }
  }

  lemma SlideWindow(window: seq<byte>, window': seq<byte>, hist: seq<byte>, base: nat, w: nat)
    requires Windowed(window, hist, base) && |window| == |window'| == 2 * w && base + w <= |hist|
    requires window'[..w] == window[w..]
    ensures Windowed(window', hist, base + w)
  {
    var end := |hist| - base;
    assert window'[..end - w] == window'[..w][..end - w];
    assert window[w..][..end - w] == window[..end][w..];
  }

  /** Move the upper half of the window to the lower one. */
  method Slide(s: Lz)
    requires s.Valid() && s.strstart >= s.wSize + s.MaxDist() && s.base + s.strstart <= |s.hist|
    modifies s`matchStart, s`strstart, s`blockStart, s`base, s.window, s.head, s.prev
    ensures s.Valid() && s.base == old(s.base) + s.wSize && s.strstart == old(s.strstart) - s.wSize
    ensures s.blockStart == old(s.blockStart) - s.wSize && s.matchStart == Wrap(old(s.matchStart), s.wSize)
  {
    hide *;
    ValidParts(s);
    MaxDistIs(s);
    var w := s.wSize;
    ghost var w0: seq<byte> := s.window[..];
    forall i | 0 <= i < w { s.window[i] := s.window[w + i]; }
    assert s.window[..w] == w0[w..];
    SlideWindow(w0, s.window[..], s.hist, s.base, w);
    s.matchStart := Wrap(s.matchStart, w);
    s.strstart := s.strstart - w;
    s.blockStart := s.blockStart - w;
    SlideTable(s.head, w);
    SlideTable(s.prev, w);
    SlideChained(s.k, s.hist, s.base, s.ins, old(s.head[..]), old(s.prev[..]), s.wBits, s.top, s.head[..], s.prev[..]);
    s.base := s.base + w;
    ValidIs(s);
  }

  lemma ValidParts(s: Lz)
    requires s.Valid()
    ensures s.Shape() && Windowed(s.window[..], s.hist, s.base)
    ensures Chained(s.k, s.hist, s.base, s.ins, s.head[..], s.prev[..], s.wBits, s.top)
    ensures s.wSize == Pow2(s.wBits) && s.window.Length == 2 * s.wSize && s.head != s.prev && 512 <= s.wSize <= 32768
  {
    hide Windowed, Chained, HashingOk;
  }

  lemma ValidIs(s: Lz)
    requires s.Shape() && Windowed(s.window[..], s.hist, s.base)
    requires Chained(s.k, s.hist, s.base, s.ins, s.head[..], s.prev[..], s.wBits, s.top)
    ensures s.Valid()
  {
    hide Windowed, Chained, HashingOk;
  }

  lemma MaxDistIs(s: Lz)
    requires s.wSize >= 512
    ensures 0 < s.MaxDist() < s.wSize
  {
  }

  // ---- Reading ----

  lemma ReadMore(window: seq<byte>, hist: seq<byte>, base: nat, end: nat, data: seq<byte>, window': seq<byte>)
    requires Windowed(window, hist, base) && base + end == |hist| && end + |data| <= |window| == |window'|
    requires window'[..end] == window[..end] && window'[end..end + |data|] == data
    ensures Windowed(window', hist + data, base)
  {
    assert window'[..end + |data|] == window'[..end] + window'[end..end + |data|];
  }

  /** read_buf: at most size bytes of the input, to the end of the window. */
  method ReadBuf(s: Lz, size: nat) returns (n: nat)
    requires s.Valid() && s.base + s.strstart + s.lookahead == |s.hist|
    requires s.strstart + s.lookahead + size <= s.window.Length && s.adler as nat == A32.Adler(s.total)
    modifies s`input, s`adler, s`lookahead, s`hist, s`total, s.window
    ensures n == if |old(s.input)| > size then size else |old(s.input)|
    ensures s.input == old(s.input)[n..] && s.lookahead == old(s.lookahead) + n
    ensures s.hist == old(s.hist) + old(s.input)[..n] && s.total == old(s.total) + old(s.input)[..n]
    ensures s.Valid() && s.adler as nat == A32.Adler(s.total)
  {
    hide Chained, HashingOk, Windowed, A32.Adler, A32.Update, A32.Pack, A32.Unpack;
    n := |s.input|;
    if n > size { n := size; }
    ghost var w0: seq<byte>, end := s.window[..], s.strstart + s.lookahead;
    var data := s.input[..n];
    A32.Continued(s.total, data);
    ChainedMore(s.k, s.hist, s.base, s.ins, s.head[..], s.prev[..], s.wBits, s.top, data);
    s.adler := A32.Adler32(s.adler, A32.Bytes(data));
    CopyIn(s.window, s.strstart + s.lookahead, data);
    ReadMore(w0, s.hist, s.base, end, data, s.window[..]);
    s.input, s.lookahead := s.input[n..], s.lookahead + n;
    s.hist, s.total := s.hist + data, s.total + data;
  }

  /** zmemcpy */
  method CopyIn(a: array<byte>, at: nat, data: seq<byte>)
    requires at + |data| <= a.Length
    modifies a
    ensures a[..at] == old(a[..at]) && a[at..at + |data|] == data
  {
    forall i | 0 <= i < |data| { a[at + i] := data[i]; }
  }

  /** ins' has the strings from begin to end, too. */
  ghost predicate Joined(ins: set<nat>, ins': set<nat>, begin: int, end: int) {
    ins <= ins' && forall p: nat :: begin <= p < end ==> p in ins'
  }

  /** Start the hash value again, and insert the strings that had to wait. */
  method HashUp(s: Lz)
    requires s.Valid() && s.base + s.strstart + s.lookahead == |s.hist| && s.lookahead + s.insert >= MIN_MATCH
    requires s.insert <= s.strstart && s.top + s.insert <= s.base + s.strstart
    requires (s.top + 2 <= |s.hist| || s.top == 0) && (s.base > 0 ==> s.strstart >= 2)
    modifies s`insH, s`insert, s`ins, s`top, s.head, s.prev
    ensures Ready(s) && (old(s.insert) == 0 ==> s.insert == 0 && s.top == old(s.top))
    ensures Joined(old(s.ins), s.ins, old(s.base + s.strstart - s.insert), s.base + s.strstart - s.insert)
  {
    hide Rolling, Chained, Windowed, Mix, HashAt, Low, HashingOk, LinksTo;
    var str := s.strstart - s.insert;
    WindowByte(s.window[..], s.hist, s.base, str);
    WindowByte(s.window[..], s.hist, s.base, str + 1);
    RollingStart(s.k, s.hist, s.base + str);
    s.insH := s.window[str];
    s.insH := Mix(s.k, s.insH, s.window[str + 1]);
    while s.insert > 0
      invariant s.Valid() && s.insert <= s.strstart && str == s.strstart - s.insert && s.lookahead + s.insert >= 2
      invariant Rolling(s.k, s.hist, s.base + str, s.insH) && s.top <= s.base + str
      invariant (s.top + 2 <= |s.hist| || s.top == 0)
      invariant s.insert > 0 ==> s.lookahead + s.insert >= MIN_MATCH
      invariant Joined(old(s.ins), s.ins, old(s.base + s.strstart - s.insert), s.base + str)
      invariant old(s.insert) == 0 ==> s.insert == 0 && s.top == old(s.top)
    {
      var matchHead := InsertString(s, str);
      str := str + 1;
      s.insert := s.insert - 1;
      if s.lookahead + s.insert < MIN_MATCH { break; }
    }
  }

  lemma WindowEnd(window: seq<byte>, hist: seq<byte>, base: nat)
    requires Windowed(window, hist, base)
    ensures |hist| - base <= |window|
  {
  }

  // ---- fill_window ----

  /** Make room when the window is almost full. */
  method MakeRoom(s: Lz) returns (size: nat)
    requires Steady(s)
    modifies s`matchStart, s`strstart, s`blockStart, s`base, s.window, s.head, s.prev
    ensures Steady(s) && (old(Ready(s)) ==> Ready(s)) && s.strstart + MIN_LOOKAHEAD <= 2 * s.wSize
    ensures s.strstart + s.base == old(s.strstart + s.base) && s.blockStart + s.base == old(s.blockStart + s.base)
    ensures s.base == old(s.base) || (s.base == old(s.base) + s.wSize && s.strstart <= s.wSize)
    ensures s.base != old(s.base) ==> old(s.strstart) >= s.wSize + s.MaxDist()
    ensures s.matchStart == if s.base == old(s.base) then old(s.matchStart) else Wrap(old(s.matchStart), s.wSize)
    ensures s.strstart + s.lookahead + size == s.window.Length 
  {
    hide Rolling, Chained, Windowed, HashingOk, Wrap;
    WindowEnd(s.window[..], s.hist, s.base);
    size := s.window.Length - s.lookahead - s.strstart;
    if s.strstart >= s.wSize + s.MaxDist() {
      Slide(s);
      size := size + s.wSize;
    }
  }

  /** Read input, and bring the hash value up to date. */
  method ReadIn(s: Lz, size: nat) returns (ghost data: seq<byte>)
    requires Steady(s) && s.adler as nat == A32.Adler(s.total) && s.strstart + s.lookahead + size == s.window.Length
    modifies s`input, s`adler, s`lookahead, s`hist, s`total, s`insH, s`insert, s`ins, s`top, s.window, s.head, s.prev
    ensures Steady(s) && s.adler as nat == A32.Adler(s.total) && Ready(s)
    ensures Joined(old(s.ins), s.ins, old(s.base + s.strstart - s.insert), s.base + s.strstart - s.insert)
    ensures old(s.insert) == 0 ==> s.insert == 0 && s.top == old(s.top)
    ensures s.lookahead == old(s.lookahead) + |data| && (old(s.input) != [] && size > 0 ==> data != [])
    ensures s.input == [] || |data| == size
    ensures s.hist == old(s.hist) + data && s.total == old(s.total) + data && old(s.input) == data + s.input
  {
    hide Rolling, Chained, Windowed, HashingOk, A32.Adler;
    var n := ReadBuf(s, size);
    data := old(s.input)[..n];
    if s.lookahead + s.insert >= MIN_MATCH { HashUp(s); }
  }

  /** All input is read, or the window is full. */
  ghost predicate FilledUp(s: Lz)
    reads s
  {
    s.input == [] || s.strstart + s.lookahead == s.window.Length
  }

  /** One turn of fill_window: slide when the window is almost full, then read. */
  method FillOnce(s: Lz) returns (more: bool, ghost data: seq<byte>)
    requires Steady(s) && s.lookahead < MIN_LOOKAHEAD && s.adler as nat == A32.Adler(s.total)
    modifies s`matchStart, s`strstart, s`blockStart, s`base, s`input, s`adler, s`lookahead, s`hist, s`total
    modifies s`insH, s`insert, s`ins, s`top, s.window, s.head, s.prev
    ensures Steady(s) && s.adler as nat == A32.Adler(s.total) && s.strstart + MIN_LOOKAHEAD <= 2 * s.wSize
    ensures (old(Ready(s)) ==> Ready(s)) && (old(s.insert) == 0 ==> s.insert == 0 && s.top == old(s.top))
    ensures s.strstart + s.base == old(s.strstart + s.base) && s.lookahead == old(s.lookahead) + |data|
    ensures s.hist == old(s.hist) + data && s.total == old(s.total) + data && old(s.input) == data + s.input
    ensures s.base == old(s.base) || (s.base == old(s.base) + s.wSize && s.strstart <= s.wSize)
    ensures s.base != old(s.base) ==> old(s.strstart) >= s.wSize + s.MaxDist()
    ensures s.blockStart + s.base == old(s.blockStart + s.base)
    ensures Joined(old(s.ins), s.ins, old(s.base + s.strstart - s.insert), s.base + s.strstart - s.insert)
    ensures s.matchStart == if s.base == old(s.base) then old(s.matchStart) else Wrap(old(s.matchStart), s.wSize)
    ensures more ==> data != []
    ensures !more ==> s.input == []
    ensures FilledUp(s)
  {
    hide Steady, Ready, A32.Adler, Wrap;
    ReadyShape(s);
    data := [];
    var size := MakeRoom(s);
    if s.input == [] { return false, data; }
    more := true;
    data := ReadIn(s, size);
  }

  /** fill_window: the window, the chains and what waits for them move together. */
  method FillWindow(s: Lz) returns (ghost data: seq<byte>)
    requires Steady(s) && s.lookahead < MIN_LOOKAHEAD && s.adler as nat == A32.Adler(s.total)
    modifies s`matchStart, s`strstart, s`blockStart, s`base, s`input, s`adler, s`lookahead, s`hist, s`total
    modifies s`insH, s`insert, s`ins, s`top, s.window, s.head, s.prev
    ensures Steady(s) && s.adler as nat == A32.Adler(s.total) && s.strstart + MIN_LOOKAHEAD <= 2 * s.wSize
    ensures (old(Ready(s)) ==> Ready(s)) && (old(s.insert) == 0 ==> s.insert == 0 && s.top == old(s.top))
    ensures s.strstart + s.base == old(s.strstart + s.base) && s.lookahead == old(s.lookahead) + |data|
    ensures s.hist == old(s.hist) + data && s.total == old(s.total) + data && old(s.input) == data + s.input
    ensures s.base == old(s.base) || (s.base == old(s.base) + s.wSize && old(s.strstart) >= s.wSize + s.MaxDist())
    ensures s.blockStart + s.base == old(s.blockStart + s.base)
    ensures s.matchStart == if s.base == old(s.base) then old(s.matchStart) else Wrap(old(s.matchStart), s.wSize)
    ensures Joined(old(s.ins), s.ins, old(s.base + s.strstart - s.insert), s.base + s.strstart - s.insert)
    ensures s.lookahead >= MIN_LOOKAHEAD || s.input == []
    ensures FilledUp(s)
  {
    hide Steady, Ready, A32.Adler, Wrap, FilledUp;
    ReadyShape(s);
    var more;
    more, data := FillOnce(s);
    while more && s.lookahead < MIN_LOOKAHEAD && s.input != []
      invariant old(s.insert) == 0 ==> s.insert == 0 && s.top == old(s.top)
      invariant (old(Ready(s)) ==> Ready(s)) && Steady(s) && s.adler as nat == A32.Adler(s.total)
      invariant s.strstart + MIN_LOOKAHEAD <= 2 * s.wSize
      invariant s.strstart + s.base == old(s.strstart + s.base) && s.lookahead == old(s.lookahead) + |data|
      invariant s.hist == old(s.hist) + data && s.total == old(s.total) + data && old(s.input) == data + s.input
      invariant s.base == old(s.base) || (s.base == old(s.base) + s.wSize && s.strstart <= s.wSize)
      invariant s.base != old(s.base) ==> old(s.strstart) >= s.wSize + s.MaxDist()
      invariant s.blockStart + s.base == old(s.blockStart + s.base)
      invariant s.matchStart == if s.base == old(s.base) then old(s.matchStart) else Wrap(old(s.matchStart), s.wSize)
      invariant Joined(old(s.ins), s.ins, old(s.base + s.strstart - s.insert), s.base + s.strstart - s.insert)
      invariant !more ==> s.input == []
      invariant FilledUp(s)
      decreases |s.input|
    {
      ghost var d;
      more, d := FillOnce(s);
      data := data + d;
    }
  }

  lemma ReadyShape(s: Lz)
    requires Steady(s)
    ensures s.wSize >= 512 && s.window.Length == 2 * s.wSize
  {
  }
}
