/** The bit buffer of the encoder (deps/libz/trees.c: send_bits, bi_flush,
    bi_windup, copy_block): 16 bits are collected in bi_buf before they go to
    the pending buffer.  Whatever the order of the calls, the pending bytes and
    the valid bits of bi_buf are the stream of all bits sent. */
module BitWriter {
  import opened Bits

  lemma JoinBits(buf: nat, valid: nat, value: nat, len: nat)
    requires buf < Pow2(valid) && value < Pow2(len)
    ensures var sum := buf + Shl(value, valid);
            Or(buf, Shl(value, valid)) == sum && sum < Pow2(valid + len) && Shr(sum, valid) == value
            && ToBits(sum, valid + len) == ToBits(buf, valid) + ToBits(value, len)
  {
    hide Pow2, Shl, Or, ToBits;
    var sum := buf + Shl(value, valid);
    OrIsPlus(value, buf, valid);
    SplitUnique(value, buf, valid);
    ShlMonotone(value, Pow2(len), valid);
    ShlPow2(len, valid);
    ToBitsConcat(sum, valid, len);
    ToBitsLow(sum, valid, valid);
  }

  /** The first 16 bits leave, the rest stay. */
  lemma SplitBits(buf: nat, valid: nat, value: nat, len: nat)
    requires buf < Pow2(valid) && value < Pow2(len) && valid <= 16 < valid + len
    ensures var sum := buf + Shl(value, valid);
            var rest := Shr(value, 16 - valid);
            Low(sum, 16) < 65536 && rest < Pow2(valid + len - 16)
            && ToBits(buf, valid) + ToBits(value, len) == ToBits(Low(sum, 16), 16) + ToBits(rest, valid + len - 16)
  {
    Pow2Values();
    hide Pow2, Shl, ToBits, Low, Shr;
    JoinBits(buf, valid, value, len);
    var sum := buf + Shl(value, valid);
    ShrShr(sum, valid, 16 - valid);
    ToBitsConcat(sum, 16, valid + len - 16);
    ToBitsLow(sum, 16, 16);
    ShrBound(sum, 16, valid + len);
  }

  lemma JoinSmall(buf: nat, valid: nat, value: nat, len: nat)
    requires buf < Pow2(valid) && value < Pow2(len) && valid + len <= 16
    ensures var w := Low(Or(buf, Shl(value, valid)), 16);
            w < Pow2(valid + len) && ToBits(w, valid + len) == ToBits(buf, valid) + ToBits(value, len)
  {
    hide Pow2, Shl, Or, ToBits;
    JoinBits(buf, valid, value, len);
    Pow2Monotone(valid + len, 16);
    LowSmall(buf + Shl(value, valid), 16);
  }

  /** The number of bits up to the next byte boundary. */
  function Padding(n: nat): (k: nat)
    ensures k < 8 && (n + k) % 8 == 0
  {
    (8 - n % 8) % 8
  }

  function Zeros(n: nat): (b: seq<bool>)
    ensures |b| == n
  {
    if n == 0 then [] else [false] + Zeros(n - 1)
  }

  lemma {:induction false} ZeroBits(n: nat)
    ensures ToBits(0, n) == Zeros(n)
  {
    if n > 0 { ZeroBits(n - 1); }
  }

  /** Bits above the valid ones are zero. */
  lemma PadBits(v: nat, n: nat, m: nat)
    requires v < Pow2(n) && n <= m
    ensures ToBits(v, m) == ToBits(v, n) + Zeros(m - n)
  {
    ToBitsConcat(v, n, m - n);
    LowSmall(v, n);
    ZeroBits(m - n);
  }

  lemma Regroup(x: seq<bool>, a: seq<bool>, b: seq<bool>, c: seq<bool>, d: seq<bool>)
    requires a + b == c + d
    ensures x + a + b == x + c + d
  {
    assert x + a + b == x + (a + b);
    assert x + c + d == x + (c + d);
  }

  lemma PaddingAligned(k: nat, n: nat)
    ensures Padding(8 * k + n) == Padding(n)
  {
  }

  /** How many bytes the 16-bit buffer has given up for n bits. */
  function Emitted(n: nat): nat { if n == 0 then 0 else 2 * ((n - 1) / 16) }

  class Writer {
    const pendingBuf: array<byte>
    var pending: nat
    var biBuf: nat
    var biValid: nat

    constructor (size: nat)
      ensures Valid() && fresh(pendingBuf) && pendingBuf.Length == size && pending == 0 && biValid == 0
    {
      pendingBuf := new byte[size](i => 0);
      pending, biBuf, biValid := 0, 0, 0;
    }

    ghost predicate Valid()
      reads this
    {
      pending <= pendingBuf.Length && biValid <= 16 && biBuf < Pow2(biValid)
    }

    /** All bits sent and not yet taken out of the pending buffer. */
    ghost function Stream(): (b: seq<bool>)
      reads this, pendingBuf
      requires Valid()
      ensures |b| == 8 * pending + biValid
    {
      BytesToBits(pendingBuf[..pending]) + ToBits(biBuf, biValid)
    }

    /** There is room for n more bits. */
    ghost predicate Room(n: nat)
      reads this
    {
      8 * pending + biValid + n <= 8 * pendingBuf.Length
    }

    /** There is room for n more bits, filled up to a byte, and then for len bytes. */
    ghost predicate RoomBytes(n: nat, len: nat)
      reads this
    {
      pending + (biValid + n + 7) / 8 + len <= pendingBuf.Length
    }

    /** Behind the pending bytes nothing is written: the buffer was was before. */
    ghost predicate Behind(was: seq<byte>)
      reads this, pendingBuf
    {
      pending <= |was| == pendingBuf.Length && pendingBuf[pending..] == was[pending..]
    }

    /** All pending bytes are from the bit buffer, two at a time, and it gave them up only for
        more bits. */
    ghost predicate InPairs()
      reads this
    {
      pending % 2 == 0 && (biValid == 0 ==> pending == 0)
    }

    /** Then the bits sent say how many bytes are pending. */
    lemma PendingOf()
      requires Valid() && InPairs()
      ensures pending == Emitted(|Stream()|)
    {
    }

    method PutByte(b: byte)
      requires pending < pendingBuf.Length
      modifies this`pending, pendingBuf
      ensures Behind(old(pendingBuf[..]))
      ensures pending == old(pending) + 1 && pendingBuf[..pending] == old(pendingBuf[..pending]) + [b]
    {
      pendingBuf[pending] := b;
      pending := pending + 1;
    }

    method PutShort(w: nat)
      requires pending + 1 < pendingBuf.Length && w < 65536
      modifies this`pending, pendingBuf
      ensures Behind(old(pendingBuf[..]))
      ensures pending == old(pending) + 2
      ensures BytesToBits(pendingBuf[..pending]) == old(BytesToBits(pendingBuf[..pending])) + ToBits(w, 16)
    {
      hide Shr, Low, ToBits, BytesToBits;
      TwoBytes(w);
      ByteBound(w);
      BytesPush(pendingBuf[..pending], Low(w, 8));
      BytesPush(pendingBuf[..pending] + [Low(w, 8)], Shr(w, 8));
      ghost var was, p: nat := pendingBuf[..], pending + 1;
      PutByte(Low(w, 8));
      ghost var mid := pendingBuf[..];
      PutByte(Shr(w, 8));
      assert mid[p + 1..] == mid[p..][1..] && was[p + 1..] == was[p..][1..];
    }

    /** Send a value on a given number of bits. */
    method SendBits(value: nat, length: nat)
      requires Valid() && 1 <= length <= 16 && value < Pow2(length) && Room(length)
      modifies this, pendingBuf
      ensures Valid() && Stream() == old(Stream()) + ToBits(value, length)
      ensures pending >= old(pending) && Behind(old(pendingBuf[..]))
      ensures old(InPairs()) ==> InPairs()
    {
      hide Shr, Low, Shl, Or, ToBits, BytesToBits, Pow2;
      if biValid > 16 - length {
        JoinBits(biBuf, biValid, value, length);
        SplitBits(biBuf, biValid, value, length);
        var w := Low(Or(biBuf, Shl(value, biValid)), 16);
        Regroup(BytesToBits(pendingBuf[..pending]), ToBits(w, 16),
          ToBits(Shr(value, 16 - biValid), biValid + length - 16), ToBits(biBuf, biValid), ToBits(value, length));
        PutShort(w);
        biBuf := Shr(value, 16 - biValid);
        biValid := biValid + length - 16;
      } else {
        JoinSmall(biBuf, biValid, value, length);
        Regroup(BytesToBits(pendingBuf[..pending]), ToBits(Low(Or(biBuf, Shl(value, biValid)), 16), biValid + length),
          [], ToBits(biBuf, biValid), ToBits(value, length));
        biBuf := Low(Or(biBuf, Shl(value, biValid)), 16);
        biValid := biValid + length;
      }
    }

    /** Move whole bytes to the pending buffer, keeping at most 7 bits. */
    method BiFlush()
      requires Valid()
      requires Room(0)
      modifies this, pendingBuf
      ensures Valid() && biValid < 8 && Stream() == old(Stream())
    {
      hide Shr, Low, Shl, ToBits, BytesToBits;
      NoBits();
      Pow2Values();
      hide Pow2;
      if biValid == 16 {
        PutShort(biBuf);
        biBuf, biValid := 0, 0;
      } else if biValid >= 8 {
        FlushByte(biBuf, biValid);
        BytesPush(pendingBuf[..pending], Low(biBuf, 8));
        PutByte(Low(biBuf, 8));
        biBuf, biValid := Shr(biBuf, 8), biValid - 8;
      }
    }

    /** flush_pending with enough output space: whole bytes leave the pending buffer. */
    method Take() returns (bytes: seq<byte>)
      requires Valid() && Room(0)
      modifies this, pendingBuf
      ensures Valid() && pending == 0 && biValid < 8 && BytesToBits(bytes) + Stream() == old(Stream())
    {
      hide BytesToBits, ToBits, Pow2;
      BiFlush();
      bytes := pendingBuf[..pending];
      pending := 0;
      EmptyBytes(pendingBuf[..0]);
    }

    /** Fill up with zeros to a byte boundary. */
    method BiWindup()
      requires Valid() && Room(0)
      modifies this, pendingBuf
      ensures Valid() && biValid == 0 && Stream() == old(Stream()) + Zeros(Padding(old(8 * pending + biValid)))
      ensures pending == old(pending + (biValid + 7) / 8)
    {
      hide Shr, Low, Shl, ToBits, BytesToBits, Zeros, Pow2, Padding;
      ghost var n, x := biValid, BytesToBits(pendingBuf[..pending]);
      WindupBits(biBuf, biValid);
      PaddingAligned(pending, biValid);
      NoBits();
      if biValid > 8 {
        PutShort(biBuf);
        Regroup(x, ToBits(biBuf, 16), [], ToBits(biBuf, n), Zeros(Padding(n)));
      } else if biValid > 0 {
        BytesPush(pendingBuf[..pending], Low(biBuf, 8));
        PutByte(Low(biBuf, 8));
        Regroup(x, ToBits(Low(biBuf, 8), 8), [], ToBits(biBuf, n), Zeros(Padding(n)));
      }
      biBuf, biValid := 0, 0;
    }

    /** Copy a stored block, with its length and the complement of its length. */
    method CopyBlock(buf: seq<byte>, header: bool)
      requires Valid() && |buf| < 65536 && RoomBytes(0, |buf| + if header then 4 else 0)
      modifies this, pendingBuf
      ensures Valid() && biValid == 0
      ensures Stream() == old(Stream()) + Zeros(Padding(old(8 * pending + biValid)))
              + (if header then ToBits(|buf|, 16) + ToBits(65535 - |buf|, 16) else []) + BytesToBits(buf)
    {
      hide ToBits, BytesToBits, Zeros, Pow2;
      NoBits();
      BiWindup();
      if header {
        PutShort(|buf|);
        PutShort(65535 - |buf|);                        // ~len
      }
      CopyBytes(buf);
    }

    method CopyBytes(buf: seq<byte>)
      requires Valid() && biValid == 0 && pending + |buf| <= pendingBuf.Length
      modifies this`pending, pendingBuf
      ensures Valid() && pending == old(pending) + |buf|
      ensures BytesToBits(pendingBuf[..pending]) == old(BytesToBits(pendingBuf[..pending])) + BytesToBits(buf)
    {
      hide BytesToBits, Pow2;
      ghost var before := pendingBuf[..pending];
      var i := 0;
      while i < |buf|
        invariant 0 <= i <= |buf|
        invariant pending == |before| + i && pending + |buf| - i <= pendingBuf.Length
        invariant pendingBuf[..pending] == before + buf[..i]
      {
        assert buf[..i + 1] == buf[..i] + [buf[i]];
        PutByte(buf[i]);
        i := i + 1;
      }
      assert buf[..i] == buf;
      BytesConcat(before, buf);
    }
  }

  lemma EmptyBytes(x: seq<byte>)
    requires x == []
    ensures BytesToBits(x) == []
  {
  }

  lemma NoBits()
    ensures Pow2(0) == 1 && forall v: nat :: ToBits(v, 0) == []
  {
  }

  lemma FlushByte(v: nat, n: nat)
    requires v < Pow2(n) && 8 <= n
    ensures Low(v, 8) < 256 && Shr(v, 8) < Pow2(n - 8)
    ensures ToBits(v, n) == ToBits(Low(v, 8), 8) + ToBits(Shr(v, 8), n - 8)
  {
    hide Pow2, Low, Shr, ToBits;
    ByteBound(v);
    ToBitsConcat(v, 8, n - 8);
    ToBitsLow(v, 8, 8);
    ShrBound(v, 8, n);
  }

  lemma WindupBits(v: nat, n: nat)
    requires v < Pow2(n) && n <= 16
    ensures n == 0 ==> ToBits(v, n) == [] && Zeros(Padding(n)) == []
    ensures n > 8 ==> v < 65536 && ToBits(v, 16) == ToBits(v, n) + Zeros(Padding(n))
    ensures 0 < n <= 8 ==> Low(v, 8) < 256 && ToBits(Low(v, 8), 8) == ToBits(v, n) + Zeros(Padding(n))
  {
    if n == 0 {
      assert Padding(0) == 0;
    } else {
      hide Low, Pow2, ToBits, Zeros;
      Pow2Values();
      assert Padding(n) == if n > 8 then 16 - n else 8 - n;
      hide Padding;
      WindupSome(v, n);
    }
  }

  lemma WindupSome(v: nat, n: nat)
    requires v < Pow2(n) && 0 < n <= 16
    ensures n > 8 ==> v < 65536 && ToBits(v, 16) == ToBits(v, n) + Zeros(16 - n)
    ensures n <= 8 ==> Low(v, 8) < 256 && ToBits(Low(v, 8), 8) == ToBits(v, n) + Zeros(8 - n)
  {
    hide Low, Pow2, ToBits, Zeros;
    Pow2Values();
    if n > 8 {
      Pow2Monotone(n, 16);
      PadBits(v, n, 16);
    } else {
      ByteBound(v);
      PadBits(v, n, 8);
      ToBitsLow(v, 8, 8);
    }
  }
}
