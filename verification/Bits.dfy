/** Shifts, masks, bit reversal, and the bit sequences (least significant bit
    first) that the encoder's bi_buf and the decoder's hold accumulate.  Shifts
    and masks are defined one bit at a time, so no proof needs more than linear
    arithmetic. */
module Bits {

  function Pow2(n: nat): (r: nat)
    ensures r >= 1
  {
    if n == 0 then 1 else 2 * Pow2(n - 1)
  }

  /** v << n */
  function Shl(v: nat, n: nat): nat {
    if n == 0 then v else 2 * Shl(v, n - 1)
  }

  /** v >> n */
  function Shr(v: nat, n: nat): nat {
    if n == 0 then v else Shr(v / 2, n - 1)
  }

  /** v & ((1 << n) - 1) */
  function Low(v: nat, n: nat): (r: nat)
    ensures r < Pow2(n)
  {
    if n == 0 then 0 else v % 2 + 2 * Low(v / 2, n - 1)
  }

  lemma {:induction false} Pow2Monotone(a: nat, b: nat)
    requires a <= b
    ensures Pow2(a) <= Pow2(b)
    ensures a < b ==> 2 * Pow2(a) <= Pow2(b)
  {
    if a < b { Pow2Monotone(a, b - 1); }
  }

  lemma Pow2Values()
    ensures Pow2(5) == 32 && Pow2(7) == 128 && Pow2(8) == 256 && Pow2(15) == 32768 && Pow2(16) == 65536
  {
    assert Pow2(5) == 32;
    assert Pow2(10) == 1024;
    assert Pow2(15) == 32768;
  }

  lemma {:induction false} ShlOne(n: nat)
    ensures Shl(1, n) == Pow2(n) && Shl(0, n) == 0
  {
    if n > 0 { ShlOne(n - 1); }
  }

  lemma {:induction false} ShlAdd(a: nat, b: nat, n: nat)
    ensures Shl(a + b, n) == Shl(a, n) + Shl(b, n)
  {
    if n > 0 { ShlAdd(a, b, n - 1); }
  }

  lemma {:induction false} ShlShl(v: nat, m: nat, n: nat)
    ensures Shl(Shl(v, m), n) == Shl(v, m + n)
  {
    if n > 0 { ShlShl(v, m, n - 1); }
  }

  lemma ShlPow2(m: nat, n: nat)
    ensures Shl(Pow2(m), n) == Pow2(m + n)
  {
    ShlOne(m);
    ShlShl(1, m, n);
    ShlOne(m + n);
  }

  lemma ShlMonotone(a: nat, b: nat, n: nat)
    requires a <= b
    ensures Shl(a, n) <= Shl(b, n)
    ensures a < b ==> Shl(a, n) + Pow2(n) <= Shl(b, n)
  {
    ShlAdd(a, b - a, n);
    if a < b {
      ShlAdd(1, b - a - 1, n);
      ShlOne(n);
    }
  }

  /** v is its high part and its low part. */
  lemma {:induction false} Split(v: nat, n: nat)
    ensures v == Shl(Shr(v, n), n) + Low(v, n)
  {
    if n > 0 { Split(v / 2, n - 1); }
  }

  /** ... and in only one way. */
  lemma {:induction false} SplitUnique(q: nat, r: nat, n: nat)
    requires r < Pow2(n)
    ensures Shr(Shl(q, n) + r, n) == q && Low(Shl(q, n) + r, n) == r
  {
    if n > 0 {
      SplitUnique(q, r / 2, n - 1);
      assert (Shl(q, n) + r) / 2 == Shl(q, n - 1) + r / 2;
    }
  }

  lemma {:induction false} LowSmall(v: nat, n: nat)
    requires v < Pow2(n)
    ensures Low(v, n) == v && Shr(v, n) == 0
  {
    if n > 0 { LowSmall(v / 2, n - 1); }
  }

  lemma {:induction false} ShrShr(v: nat, m: nat, n: nat)
    ensures Shr(Shr(v, m), n) == Shr(v, m + n)
  {
    if m > 0 { ShrShr(v / 2, m - 1, n); }
  }

  lemma {:induction false} LowLow(v: nat, m: nat, n: nat)
    requires m <= n
    ensures Low(Low(v, n), m) == Low(v, m)
    ensures Shr(Low(v, n), m) == Low(Shr(v, m), n - m)
  {
    if m > 0 { LowLow(v / 2, m - 1, n - 1); }
  }

  lemma {:induction false} ShrBound(v: nat, m: nat, n: nat)
    requires m <= n && v < Pow2(n)
    ensures Shr(v, m) < Pow2(n - m)
  {
    if m > 0 { ShrBound(v / 2, m - 1, n - 1); }
  }

  lemma {:induction false} ShrMonotone(a: nat, b: nat, n: nat)
    requires a <= b
    ensures Shr(a, n) <= Shr(b, n)
  {
    if n > 0 { ShrMonotone(a / 2, b / 2, n - 1); }
  }

  /** a | b */
  function Or(a: nat, b: nat): nat {
    if a == 0 then b
    else if b == 0 then a
    else (if a % 2 == 1 || b % 2 == 1 then 1 else 0) + 2 * Or(a / 2, b / 2)
  }

  /** Or adds when the bits do not overlap. */
  lemma {:induction false} OrIsPlus(v: nat, r: nat, n: nat)
    requires r < Pow2(n)
    ensures Or(r, Shl(v, n)) == Or(Shl(v, n), r) == r + Shl(v, n)
  {
    if n > 0 { OrIsPlus(v, r / 2, n - 1); }
  }

  // ---- Reversal ----

  /** The low len bits of c, reversed. */
  function Rev(c: nat, len: nat): (r: nat)
    ensures r < Pow2(len)
  {
    if len == 0 then 0 else (if c % 2 == 1 then Pow2(len - 1) else 0) + Rev(c / 2, len - 1)
  }

  lemma {:induction false} RevSplit(c: nat, a: nat, b: nat)
    // the low a bits become the high part, the next b bits the low part
    ensures Rev(c, a + b) == Shl(Rev(c, a), b) + Rev(Shr(c, a), b)
  {
    if a == 0 {
      ShlOne(b);
    } else {
      RevSplit(c / 2, a - 1, b);
      ShlPow2(a - 1, b);
      ShlAdd(if c % 2 == 1 then Pow2(a - 1) else 0, Rev(c / 2, a - 1), b);
      ShlOne(b);
    }
  }

  lemma {:induction false} RevLow(c: nat, m: nat, n: nat)
    requires m <= n
    ensures Rev(Low(c, n), m) == Rev(c, m)
  {
    if m > 0 { RevLow(c / 2, m - 1, n - 1); }
  }

  lemma RevBit(t: nat, q: nat)
    requires t < 2
    ensures Rev(t, 1) == t && Shl(q, 1) == 2 * q
  {
  }

  lemma RevLast(t: nat, r: nat, n: nat)
    requires t < 2 && r < Pow2(n)
    ensures Rev((if t == 1 then Pow2(n) else 0) + r, n + 1) == 2 * Rev(r, n) + t
  {
    hide Shl, Shr, Low, Pow2, Rev;
    var v := Shl(t, n) + r;
    ShlOne(n);
    SplitUnique(t, r, n);
    RevSplit(v, n, 1);
    RevLow(v, n, n);
    RevBit(t, Rev(r, n));
  }

  lemma {:induction false} RevRev(c: nat, len: nat)
    ensures Rev(Rev(c, len), len) == Low(c, len)
  {
    if len > 0 {
      RevRev(c / 2, len - 1);
      RevLast(c % 2, Rev(c / 2, len - 1), len - 1);
    }
  }

  /** The first n of m stream bits, read most significant first. */
  lemma RevHigh(h: nat, n: nat, m: nat)
    requires n <= m
    ensures Shr(Rev(h, m), m - n) == Rev(h, n)
  {
    RevSplit(h, n, m - n);
    SplitUnique(Rev(h, n), Rev(Shr(h, n), m - n), m - n);
  }

  /** A code c of len bits leads a stream h of m bits, least significant bit
      first, exactly when the stream read most significant bit first starts
      with c. */
  lemma RevPrefix(h: nat, c: nat, len: nat, m: nat)
    requires len <= m && c < Pow2(len)
    ensures Low(h, len) == Rev(c, len) <==> Shr(Rev(h, m), m - len) == c
  {
    RevHigh(h, len, m);
    RevRev(c, len);
    LowSmall(c, len);
    RevLow(h, len, len);
    RevRev(h, len);
  }

  lemma {:induction false} RevShl(c: nat, len: nat, d: nat)
    // zeros appended to a code leave its reversal unchanged
    ensures Rev(Shl(c, d), len + d) == Rev(c, len)
  {
    if d > 0 { RevShl(c, len, d - 1); }
  }

  // ---- Bit sequences ----

  /** The low n bits of v, least significant first. */
  function ToBits(v: nat, n: nat): (b: seq<bool>)
    ensures |b| == n
  {
    if n == 0 then [] else [v % 2 == 1] + ToBits(v / 2, n - 1)
  }

  function FromBits(b: seq<bool>): (v: nat)
    ensures v < Pow2(|b|)
  {
    if b == [] then 0 else (if b[0] then 1 else 0) + 2 * FromBits(b[1..])
  }

  lemma {:induction false} FromToBits(v: nat, n: nat)
    ensures FromBits(ToBits(v, n)) == Low(v, n)
  {
    if n > 0 {
      FromToBits(v / 2, n - 1);
      assert ToBits(v, n)[1..] == ToBits(v / 2, n - 1);
    }
  }

  lemma {:induction false} ToFromBits(b: seq<bool>)
    ensures ToBits(FromBits(b), |b|) == b
  {
    if b != [] { ToFromBits(b[1..]); }
  }

  lemma {:induction false} FromBitsConcat(a: seq<bool>, b: seq<bool>)
    ensures FromBits(a + b) == FromBits(a) + Shl(FromBits(b), |a|)
  {
    if a == [] {
      assert a + b == b;
    } else {
      FromBitsConcat(a[1..], b);
      assert (a + b)[1..] == a[1..] + b;
    }
  }

  /** Masking takes a prefix of the bits and shifting drops one. */
  lemma FromBitsSplit(b: seq<bool>, n: nat)
    requires n <= |b|
    ensures Low(FromBits(b), n) == FromBits(b[..n])
    ensures Shr(FromBits(b), n) == FromBits(b[n..])
  {
    assert b[..n] + b[n..] == b;
    FromBitsAppend(b[..n], b[n..]);
  }

  lemma FromBitsAppend(x: seq<bool>, y: seq<bool>)
    ensures Low(FromBits(x + y), |x|) == FromBits(x)
    ensures Shr(FromBits(x + y), |x|) == FromBits(y)
  {
    FromBitsConcat(x, y);
    SplitUnique(FromBits(y), FromBits(x), |x|);
  }

  lemma {:induction false} ToBitsConcat(v: nat, m: nat, n: nat)
    ensures ToBits(v, m + n) == ToBits(v, m) + ToBits(Shr(v, m), n)
    decreases m
  {
    if m > 0 {
      ToBitsConcat(v / 2, m - 1, n);
      assert ToBits(v, m + n) == [v % 2 == 1] + ToBits(v / 2, m - 1 + n);
    }
  }

  lemma {:induction false} ToBitsLow(v: nat, m: nat, n: nat)
    requires n <= m
    ensures ToBits(Low(v, m), n) == ToBits(v, n)
    decreases n
  {
    if n > 0 { ToBitsLow(v / 2, m - 1, n - 1); }
  }

  // ---- Bytes ----

  type byte = x: nat | x < 256

  /** The bits of the bytes, each least significant bit first (section 3.1.1 of RFC 1951). */
  function BytesToBits(s: seq<byte>): (b: seq<bool>)
    ensures |b| == 8 * |s|
  {
    if s == [] then [] else BytesToBits(s[..|s| - 1]) + ToBits(s[|s| - 1], 8)
  }

  lemma BitsOf(x: seq<byte>)
    ensures |BytesToBits(x)| == 8 * |x|
  {
  }

  lemma BytesPush(s: seq<byte>, x: byte)
    ensures BytesToBits(s + [x]) == BytesToBits(s) + ToBits(x, 8)
  {
    assert (s + [x])[..|s|] == s;
  }

  lemma {:induction false} BytesConcat(s: seq<byte>, t: seq<byte>)
    ensures BytesToBits(s + t) == BytesToBits(s) + BytesToBits(t)
  {
    if t == [] {
      assert s + t == s;
    } else {
      BytesConcat(s, t[..|t| - 1]);
      assert (s + t)[..|s + t| - 1] == s + t[..|t| - 1];
    }
  }

  /** Two bytes hold 16 bits. */
  lemma TwoBytes(w: nat)
    ensures ToBits(w, 16) == ToBits(Low(w, 8), 8) + ToBits(Shr(w, 8), 8)
  {
    ToBitsConcat(w, 8, 8);
    ToBitsLow(w, 8, 8);
  }

  lemma ByteBound(v: nat)
    ensures Low(v, 8) < 256 && (v < 65536 ==> Shr(v, 8) < 256)
  {
    Pow2Values();
    hide Pow2;
    if v < 65536 { ShrBound(v, 8, 16); }
  }
}
