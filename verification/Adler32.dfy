/** adler32 (deps/libz/adler32.c): sums whose reduction is deferred for NMAX
    bytes at a time, against the definition in section 8.2 of RFC 1950. */
module Adler32 {
  import opened Bits

  newtype uint32 = x: int | 0 <= x < 0x1_0000_0000

  const BASE: nat := 65521
  const NMAX: nat := 5552

  datatype Buffer = Null | Bytes(data: seq<byte>)

  /** s1 is the sum of all bytes, s2 the sum of the s1 values, both modulo BASE. */
  datatype Checks = Checks(s1: nat, s2: nat)

  /** Section 8.2 of RFC 1950, continued from start. */
  function Update(start: Checks, buf: seq<byte>): (r: Checks)
    decreases |buf|
  {
    if buf == [] then start
    else
      var c := Update(start, buf[..|buf| - 1]);
      var s1 := (c.s1 + buf[|buf| - 1]) % BASE;
      Checks(s1, (c.s2 + s1) % BASE)
  }

  function Pack(c: Checks): nat { c.s2 * 65536 + c.s1 }

  function Unpack(adler: nat): Checks { Checks(adler % 65536, adler / 65536 % 65536) }

  /** The Adler-32 checksum of the bytes. */
  function Adler(buf: seq<byte>): nat { Pack(Update(Checks(1, 0), buf)) }

  /** The same sums without reduction. */
  function Sums(start: Checks, buf: seq<byte>): (r: Checks)
    decreases |buf|
  {
    if buf == [] then start
    else
      var c := Sums(start, buf[..|buf| - 1]);
      Checks(c.s1 + buf[|buf| - 1], c.s2 + c.s1 + buf[|buf| - 1])
  }

  function Reduce(c: Checks): Checks { Checks(c.s1 % BASE, c.s2 % BASE) }

  lemma ModAdd(a: nat, b: nat)
    ensures (a % BASE + b) % BASE == (a + b) % BASE
  {
    var q := a / BASE;
    assert a == q * BASE + a % BASE;
    ModShift(a % BASE + b, q);
  }

  lemma {:induction false} ModShift(a: nat, q: nat)
    ensures (a + q * BASE) % BASE == a % BASE
  {
    if q > 0 { ModShift(a, q - 1); }
  }

  lemma ModStep(a: nat, b: nat, x: nat)
    ensures var s1 := (a % BASE + x) % BASE;
            s1 == (a + x) % BASE && (b % BASE + s1) % BASE == (b + a + x) % BASE
  {
    ModAdd(a, x);
    ModAdd(b, (a + x) % BASE);
    ModAdd(a + x, b);
  }

  /** Reducing at the end is reducing at every byte. */
  lemma {:induction false} SumsReduce(start: Checks, buf: seq<byte>)
    requires buf != [] || Reduce(start) == start
    ensures Reduce(Sums(start, buf)) == Update(start, buf)
  {
    if buf != [] {
      var c, x := Sums(start, buf[..|buf| - 1]), buf[|buf| - 1];
      if |buf| == 1 {
        assert buf[..0] == [];
        ModAdd(c.s2, (c.s1 + x) % BASE);
        ModAdd(c.s1 + x, c.s2);
      } else {
        SumsReduce(start, buf[..|buf| - 1]);
        ModStep(c.s1, c.s2, x);
      }
    }
  }

  lemma {:induction false} UpdateConcat(start: Checks, x: seq<byte>, y: seq<byte>)
    ensures Update(start, x + y) == Update(Update(start, x), y)
    decreases |y|
  {
    if y == [] {
      assert x + y == x;
    } else {
      UpdateConcat(start, x, y[..|y| - 1]);
      assert (x + y)[..|x + y| - 1] == x + y[..|y| - 1];
    }
  }

  // ---- No overflow within NMAX bytes ----

  function Limit(n: nat): nat {
    if n == 0 then 65535 else Limit(n - 1) + 65535 + 255 * n
  }

  lemma {:induction false} LimitClosed(n: nat)
    ensures 2 * Limit(n) == 131070 + 131070 * n + 255 * n * (n + 1)
  {
    if n > 0 { LimitClosed(n - 1); }
  }

  lemma {:induction false} LimitGrows(n: nat, m: nat)
    requires n <= m
    ensures Limit(n) <= Limit(m)
  {
    if n < m { LimitGrows(n, m - 1); }
  }

  lemma {:induction false} SumsBounded(start: Checks, buf: seq<byte>)
    requires start.s1 <= 65535 && start.s2 <= 65535
    ensures Sums(start, buf).s1 <= 65535 + 255 * |buf| && Sums(start, buf).s2 <= Limit(|buf|)
  {
    if buf != [] { SumsBounded(start, buf[..|buf| - 1]); }
  }

  /** The sums of up to NMAX bytes fit in 32 bits, even when the start is not reduced. */
  lemma NoOverflow(start: Checks, buf: seq<byte>)
    requires start.s1 <= 65535 && start.s2 <= 65535 && |buf| <= NMAX
    ensures Sums(start, buf).s1 < 0x1_0000_0000 && Sums(start, buf).s2 < 0x1_0000_0000
  {
    SumsBounded(start, buf);
    LimitGrows(|buf|, NMAX);
    LimitClosed(NMAX);
  }

  /** n bytes of the largest value. */
  function Full(n: nat): (r: seq<byte>)
    ensures |r| == n && forall i :: 0 <= i < n ==> r[i] == 255
  {
    seq(n, i => 255)
  }

  lemma {:induction false} FullSums(n: nat)
    ensures var c := Sums(Checks(BASE - 1, BASE - 1), Full(n));
      c.s1 == BASE - 1 + 255 * n && 2 * c.s2 == 2 * (n + 1) * (BASE - 1) + 255 * n * (n + 1)
  {
    if n > 0 {
      FullSums(n - 1);
      assert Full(n)[..n - 1] == Full(n - 1);
    }
  }

  /** NMAX is the largest such number, even for a start that is reduced. */
  lemma NmaxIsTight()
    ensures exists buf: seq<byte> :: |buf| == NMAX + 1 && Sums(Checks(BASE - 1, BASE - 1), buf).s2 > 0xffff_ffff
  {
    FullSums(NMAX + 1);
    assert |Full(NMAX + 1)| == NMAX + 1;
  }

  lemma SumsPush(start: Checks, buf: seq<byte>, i: nat, j: nat)
    requires i <= j < |buf|
    ensures var c := Sums(start, buf[i..j]);
            Sums(start, buf[i..j + 1]) == Checks(c.s1 + buf[j], c.s2 + c.s1 + buf[j])
  {
    assert buf[i..j + 1][..j - i] == buf[i..j];
  }

  /** One byte: s1 += buf[i]; s2 += s1. */
  method Add(buf: seq<byte>, ghost i: nat, j: nat, ghost start: Checks, a: uint32, b: uint32)
    returns (s1: uint32, s2: uint32)
    requires i <= j < |buf| && j + 1 - i <= NMAX && start.s1 <= 65535 && start.s2 <= 65535
    requires Sums(start, buf[i..j]) == Checks(a as nat, b as nat)
    ensures Sums(start, buf[i..j + 1]) == Checks(s1 as nat, s2 as nat)
  {
    SumsPush(start, buf, i, j);
    NoOverflow(start, buf[i..j + 1]);
    s1 := a + buf[j] as uint32;
    s2 := b + s1;
  }

  /** At most NMAX bytes, sixteen at a time and then the rest. */
  method Chunk(buf: seq<byte>, i: nat, n: nat, a: uint32, b: uint32) returns (s1: uint32, s2: uint32)
    requires i + n <= |buf| && n <= NMAX && a <= 65535 && b <= 65535
    ensures Checks(s1 as nat, s2 as nat) == Sums(Checks(a as nat, b as nat), buf[i..i + n])
  {
    hide Sums, Limit;
    s1, s2 := a, b;
    ghost var start := Checks(a as nat, b as nat);
    var k: nat, p: nat := n, i;
    SumsNone(start, buf, i);
    while k >= 16
      invariant k <= n && p == i + n - k
      invariant Checks(s1 as nat, s2 as nat) == Sums(start, buf[i..p])
    {
      var q: nat := 0;                                        // DO16
      while q < 16
        invariant q <= 16 && Checks(s1 as nat, s2 as nat) == Sums(start, buf[i..p + q])
      {
        s1, s2 := Add(buf, i, p + q, start, s1, s2);
        q := q + 1;
      }
      p, k := p + 16, k - 16;
    }
    while k != 0
      invariant k <= n && p == i + n - k
      invariant Checks(s1 as nat, s2 as nat) == Sums(start, buf[i..p])
    {
      s1, s2 := Add(buf, i, p, start, s1, s2);
      p, k := p + 1, k - 1;
    }
  }

  lemma SumsNone(start: Checks, buf: seq<byte>, i: nat)
    requires i <= |buf|
    ensures Sums(start, buf[i..i]) == start
  {
  }

  /** adler32.  A null buffer gives the initial value; an empty one returns
      adler as it is; otherwise the halves of adler need not be reduced. */
  method Adler32(adler: uint32, buf: Buffer) returns (r: uint32)
    ensures buf.Null? ==> r == 1
    ensures buf.Bytes? ==> r as nat == Pack(Update(Unpack(adler as nat), buf.data))
  {
    var s1: uint32 := adler % 65536;
    var s2: uint32 := adler / 65536 % 65536;
    if buf.Null? { return 1; }
    ghost var start := Unpack(adler as nat);
    var len: nat, p: nat := |buf.data|, 0;
    hide Sums, Update, Reduce;
    UpdateNone(start);
    while len > 0
      invariant p + len == |buf.data| && s1 <= 65535 && s2 <= 65535
      invariant Checks(s1 as nat, s2 as nat) == Update(start, buf.data[..p])
    {
      var k := if len < NMAX then len else NMAX;
      ChunkUpdates(start, buf.data, p, k);
      s1, s2 := Chunk(buf.data, p, k, s1, s2);
      len, p := len - k, p + k;
      s1 := s1 % 65521;
      s2 := s2 % 65521;
    }
    assert buf.data[..p] == buf.data;
    r := s2 * 65536 + s1;                                // (s2 << 16) | s1
  }

  lemma UpdateNone(start: Checks)
    ensures Update(start, []) == start
  {
  }

  lemma ChunkUpdates(start: Checks, buf: seq<byte>, p: nat, k: nat)
    requires p + k <= |buf| && k > 0
    ensures Update(start, buf[..p + k]) == Checks(
      Sums(Update(start, buf[..p]), buf[p..p + k]).s1 % BASE, Sums(Update(start, buf[..p]), buf[p..p + k]).s2 % BASE)
  {
    assert buf[..p + k] == buf[..p] + buf[p..p + k];
    UpdateConcat(start, buf[..p], buf[p..p + k]);
    SumsReduce(Update(start, buf[..p]), buf[p..p + k]);
  }

  lemma PackUnpack(c: Checks)
    requires c.s1 < 65536 && c.s2 < 65536
    ensures Unpack(Pack(c)) == c
  {
  }

  lemma {:induction false} UpdateFits(start: Checks, buf: seq<byte>)
    requires start.s1 < 65536 && start.s2 < 65536
    ensures Update(start, buf).s1 < 65536 && Update(start, buf).s2 < 65536
  {
    if buf != [] { UpdateFits(start, buf[..|buf| - 1]); }
  }

  /** What adler32 computes for a buffer that is not null. */
  function Continue(adler: nat, buf: seq<byte>): nat { Pack(Update(Unpack(adler), buf)) }

  /** The checksum of a whole is the checksum of its parts in turn, whatever the
      start value. */
  lemma Concatenation(adler: nat, x: seq<byte>, y: seq<byte>)
    ensures Continue(Continue(adler, x), y) == Continue(adler, x + y)
    ensures Continue(1, x) == Adler(x)
  {
    UpdateFits(Unpack(adler), x);
    PackUnpack(Update(Unpack(adler), x));
    UpdateConcat(Unpack(adler), x, y);
  }

  /** adler32(adler32(x), y), for a checksum that has been packed. */
  lemma Continued(x: seq<byte>, y: seq<byte>)
    ensures Pack(Update(Unpack(Adler(x)), y)) == Adler(x + y)
  {
    Concatenation(1, x, y);
    Concatenation(1, x + y, []);
  }
}
