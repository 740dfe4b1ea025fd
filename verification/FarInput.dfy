/** An input in which deflate_slow finds nothing but long matches far back, for any hash: only
    the strings that begin a block of 258 bytes have a hash that is not a multiple of 8. */
module FarInput {
  import opened Bits
  import opened RollingHash
  import opened HashChains
  import opened Emission
  import opened FarRuns

  /** A byte for each of 96 blocks, none of them a multiple of 8. */
  function Mark(c: nat): (b: byte)
    requires c < 96
    ensures 0 < b < 256 && b % 8 != 0
  {
    1 + c + c / 7
  }

  lemma MarksDiffer(c: nat, d: nat)
    requires c < 96 && d < 96 && Mark(c) == Mark(d)
    ensures c == d
  {
    assert Mark(c) / 8 == c / 7 && Mark(d) / 8 == d / 7;
  }

  /** The third byte of each block is its mark; the other bytes are 0, and so is the first of all. */
  function ByteAt(i: nat): byte {
    if i > 0 && (i - 1) % 258 == 2 then Mark((i - 1) / 258 % 96) else 0
  }

  function Data(n: nat): (h: seq<byte>)
    ensures |h| == n && forall i :: 0 <= i < n ==> h[i] == ByteAt(i)
  {
    seq(n, i requires 0 <= i => ByteAt(i))
  }

  // ---- Hashes ----

  lemma {:induction false} LowEights(y: nat, n: nat)
    requires n >= 3
    ensures Low(8 * y, n) % 8 == 0
  {
    assert Low(8 * y, n) == 2 * Low(4 * y, n - 1);
    assert Low(4 * y, n - 1) == 2 * Low(2 * y, n - 2);
    assert Low(2 * y, n - 2) == 2 * Low(y, n - 3);
  }

  lemma ShlEights(h: nat, s: nat)
    requires s >= 3
    ensures Shl(h, s) == 8 * Shl(h, s - 3)
  {
    assert Shl(h, s) == 2 * Shl(h, s - 1);
    assert Shl(h, s - 1) == 2 * Shl(h, s - 2);
    assert Shl(h, s - 2) == 2 * Shl(h, s - 3);
  }

  /** A hash whose last byte is 0 is a multiple of 8. */
  lemma MixZero(k: Hashing, h: nat)
    requires HashingOk(k)
    ensures Mix(k, h, 0) % 8 == 0
  {
    hide Low, Shl, Xor;
    XorZero(Shl(h, k.shift));
    ShlEights(h, k.shift);
    LowEights(Shl(h, k.shift - 3), k.bits);
  }

  /** The hash of one byte after zeros is the byte. */
  lemma HashMark(k: Hashing, v: byte)
    requires HashingOk(k)
    ensures Hash3(k, 0, 0, v) == v
  {
    ShlZero(k.shift);
    MixFirst(k, 0);
    MixFirst(k, v);
    hide Low, Shl, Xor, Mix;
  }

  lemma HashData(k: Hashing, n: nat, q: nat)
    requires HashingOk(k) && q + 2 < n
    ensures q == 0 || (q - 1) % 258 != 0 ==> HashAt(k, Data(n), q) % 8 == 0
    ensures q > 0 && (q - 1) % 258 == 0 ==> HashAt(k, Data(n), q) == Mark((q - 1) / 258 % 96)
  {
    hide Mix, Data, ByteAt, Mark;
    Near(q);
    if q == 0 || (q - 1) % 258 != 0 {
      MixZero(k, Mix(k, Mix(k, 0, ByteAt(q)), ByteAt(q + 1)));
    } else {
      HashMark(k, Mark((q - 1) / 258 % 96));
    }
  }

  lemma Near(q: nat)
    ensures q == 0 || (q - 1) % 258 != 0 ==> ByteAt(q + 2) == 0
    ensures q > 0 && (q - 1) % 258 == 0 ==>
      ByteAt(q) == ByteAt(q + 1) == 0 && ByteAt(q + 2) == Mark((q - 1) / 258 % 96)
  {
    hide Mark;
  }

  // ---- Copies ----

  lemma Repeats(i: nat)
    requires i > 0
    ensures ByteAt(i + FAR) == ByteAt(i)
  {
    hide Mark;
    assert (i + FAR - 1) == (i - 1) + 258 * 96;
    assert (i + FAR - 1) / 258 == (i - 1) / 258 + 96;
  }

  lemma DataMatches(n: nat, a: nat)
    requires FAR < a && a + MAX_MATCH <= n
    ensures IsMatch(Data(n), a - FAR, a, MAX_MATCH)
  {
    hide ByteAt;
    var h := Data(n);
    var x, y := h[a - FAR..a - FAR + MAX_MATCH], h[a..a + MAX_MATCH];
    forall j | 0 <= j < MAX_MATCH ensures x[j] == y[j] { Repeats(a - FAR + j); }
    assert x == y;
  }

  /** Blocks of the same mark are 96 blocks apart. */
  lemma MarkApart(q: nat, a: nat)
    requires 0 < q < a <= q + 32506 && (q - 1) % 258 == 0 && (a - 1) % 258 == 0
    requires (q - 1) / 258 % 96 == (a - 1) / 258 % 96
    ensures q + FAR == a
  {
    var x, y := (q - 1) / 258, (a - 1) / 258;
    assert a - q == 258 * (y - x);
    assert 0 < y - x < 126 && (y - x) % 96 == 0;
  }

  lemma DataCopies(k: Hashing, n: nat, a: nat)
    requires HashingOk(k) && FAR < a && (a - 1) % 258 == 0 && a + MAX_MATCH <= n
    ensures Copies(k, Data(n), a, 32506)
  {
    hide HashAt, Data, IsMatch, Mark;
    DataMatches(n, a);
    HashData(k, n, a);
    forall q: nat | a <= q + 32506 && q < a && q != a - FAR
      ensures HashAt(k, Data(n), q) != HashAt(k, Data(n), a)
    {
      HashData(k, n, q);
      if q > 0 && (q - 1) % 258 == 0 && Mark((q - 1) / 258 % 96) == Mark((a - 1) / 258 % 96) {
        MarksDiffer((q - 1) / 258 % 96, (a - 1) / 258 % 96);
        MarkApart(q, a);
      }
    }
  }

  /** After the first 96 blocks, each string that begins a block is a copy. */
  lemma DataCopiesFrom(k: Hashing, n: nat, m: nat)
    requires HashingOk(k) && FAR + 1 + MAX_MATCH * m + 262 <= n
    ensures CopiesFrom(k, Data(n), FAR + 1, m, 32506)
  {
    hide Copies, Data;
    forall i | 0 <= i < m ensures Copies(k, Data(n), FAR + 1 + MAX_MATCH * i, 32506) {
      assert (FAR + MAX_MATCH * i) % 258 == 0;
      DataCopies(k, n, FAR + 1 + MAX_MATCH * i);
    }
  }
}
