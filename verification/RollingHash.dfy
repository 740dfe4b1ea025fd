/** The rolling hash of three bytes (deps/libz/deflate.c: UPDATE_HASH): it forgets
    older bytes, and with equal first bytes it tells the third byte apart. */
module RollingHash {
  import opened Bits

  function Xor(a: nat, b: nat): nat {
    if a == 0 && b == 0 then 0 else (if a % 2 != b % 2 then 1 else 0) + 2 * Xor(a / 2, b / 2)
  }

  /** hash_bits and hash_shift. */
  datatype Hashing = Hashing(bits: nat, shift: nat)

  /** The shift drops a byte after three steps, and the hash holds a whole byte. */
  ghost predicate HashingOk(k: Hashing) { 8 <= k.bits <= 3 * k.shift }

  /** UPDATE_HASH */
  function Mix(k: Hashing, h: nat, c: byte): (r: nat)
    ensures r < Pow2(k.bits)
  {
    Low(Xor(Shl(h, k.shift), c), k.bits)
  }

  function Mix3(k: Hashing, h: nat, a: byte, b: byte, c: byte): (r: nat)
    ensures r < Pow2(k.bits)
  {
    Mix(k, Mix(k, Mix(k, h, a), b), c)
  }

  /** The hash of three bytes alone. */
  function Hash3(k: Hashing, a: byte, b: byte, c: byte): (r: nat)
    ensures r < Pow2(k.bits)
  {
    Mix3(k, 0, a, b, c)
  }

  // ---- Xor, shift and mask ----

  lemma XorStep(a: nat, b: nat)
    ensures Xor(a, b) % 2 == (if a % 2 != b % 2 then 1 else 0) && Xor(a, b) / 2 == Xor(a / 2, b / 2)
  {
  }

  lemma LowStep(v: nat, n: nat)
    requires n > 0
    ensures Low(v, n) % 2 == v % 2 && Low(v, n) / 2 == Low(v / 2, n - 1)
  {
  }

  lemma Halves(x: nat, y: nat)
    requires x % 2 == y % 2 && x / 2 == y / 2
    ensures x == y
  {
  }

  lemma {:induction false} LowXor(a: nat, b: nat, n: nat)
    ensures Low(Xor(a, b), n) == Xor(Low(a, n), Low(b, n))
    decreases n
  {
    if n > 0 {
      LowXor(a / 2, b / 2, n - 1);
      hide Xor, Low;
      XorStep(a, b);
      LowStep(Xor(a, b), n);
      LowStep(a, n);
      LowStep(b, n);
      XorStep(Low(a, n), Low(b, n));
      Halves(Low(Xor(a, b), n), Xor(Low(a, n), Low(b, n)));
    }
  }

  lemma {:induction false} ShlXor(a: nat, b: nat, n: nat)
    ensures Shl(Xor(a, b), n) == Xor(Shl(a, n), Shl(b, n))
  {
    if n > 0 {
      ShlXor(a, b, n - 1);
      hide Xor;
      XorDouble(Shl(a, n - 1), Shl(b, n - 1));
    }
  }

  lemma XorDouble(a: nat, b: nat)
    ensures Xor(2 * a, 2 * b) == 2 * Xor(a, b)
  {
  }

  lemma {:induction false} XorZero(a: nat)
    ensures Xor(0, a) == a && Xor(a, 0) == a
  {
    if a > 0 { XorZero(a / 2); }
  }

  /** Xor with the same value can be undone. */
  lemma {:induction false} XorCancel(x: nat, a: nat, b: nat)
    requires Xor(x, a) == Xor(x, b)
    ensures a == b
    decreases x + a + b
  {
    if x + a + b > 0 { XorCancel(x / 2, a / 2, b / 2); }
  }

  // ---- The hash ----

  lemma ShlStep(v: nat, s: nat)
    requires s > 0
    ensures Shl(v, s) == 2 * Shl(v, s - 1)
  {
  }

  /** What a shift brings in is zero. */
  lemma {:induction false} LowShl(v: nat, s: nat, n: nat)
    ensures n <= s ==> Low(Shl(v, s), n) == 0
    decreases s
  {
    if n == 0 {
      NoBits(Shl(v, s));
    } else if s > 0 {
      LowShl(v, s - 1, n - 1);
      hide Low, Shl;
      ShlStep(v, s);
      LowDouble(Shl(v, s - 1), n);
    }
  }

  lemma NoBits(v: nat)
    ensures Low(v, 0) == 0
  {
  }

  /** What a mask takes away is shifted out anyway. */
  lemma {:induction false} MaskShl(v: nat, s: nat, n: nat)
    ensures Low(Shl(Low(v, n), s), n) == Low(Shl(v, s), n)
    decreases s
  {
    if s == 0 {
      LowLow(v, n, n);
    } else if n > 0 {
      MaskShl(v, s - 1, n);
      hide Low, Shl;
      var x, y := Shl(Low(v, n), s - 1), Shl(v, s - 1);
      ShlStep(v, s);
      ShlStep(Low(v, n), s);
      LowDouble(x, n);
      LowDouble(y, n);
      LowLow(x, n - 1, n);
      LowLow(y, n - 1, n);
    }
  }

  lemma LowDouble(v: nat, n: nat)
    requires n > 0
    ensures Low(2 * v, n) == 2 * Low(v, n - 1)
  {
  }

  /** One step, with the shifted value taken apart. */
  lemma MixIs(k: Hashing, h: nat, c: byte)
    ensures Mix(k, Low(h, k.bits), c) == Low(Xor(Shl(h, k.shift), c), k.bits)
  {
    hide Low, Shl, Xor;
    LowXor(Shl(h, k.shift), c, k.bits);
    LowXor(Shl(Low(h, k.bits), k.shift), c, k.bits);
    MaskShl(h, k.shift, k.bits);
  }

  /** Three steps, with nothing masked off in between. */
  lemma Mix3Is(k: Hashing, h: nat, a: byte, b: byte, c: byte)
    ensures Mix3(k, h, a, b, c)
         == Low(Xor(Shl(Xor(Shl(Xor(Shl(h, k.shift), a), k.shift), b), k.shift), c), k.bits)
  {
    hide Low, Shl, Xor;
    var x := Xor(Shl(h, k.shift), a);
    MixIs(k, x, b);
    var y := Xor(Shl(x, k.shift), b);
    MixIs(k, y, c);
  }

  /** What came before the three bytes is shifted out. */
  lemma MixForgets(k: Hashing, h: nat, a: byte, b: byte, c: byte)
    requires HashingOk(k)
    ensures Mix3(k, h, a, b, c) == Hash3(k, a, b, c)
  {
    Mix3Is(k, h, a, b, c);
    Mix3Is(k, 0, a, b, c);
    Spread(k, h, a, b, c);
    Spread(k, 0, a, b, c);
    ShlZero(3 * k.shift);
    hide Low, Shl, Xor;
    LowShl(h, 3 * k.shift, k.bits);
    LowShl(0, 3 * k.shift, k.bits);
  }

  lemma ShlZero(n: nat)
    ensures Shl(0, n) == 0
  {
    ShlOne(n);
  }

  lemma Spread(k: Hashing, h: nat, a: byte, b: byte, c: byte)
    ensures Low(Xor(Shl(Xor(Shl(Xor(Shl(h, k.shift), a), k.shift), b), k.shift), c), k.bits)
         == Xor(Xor(Xor(Low(Shl(h, 3 * k.shift), k.bits), Low(Shl(a, 2 * k.shift), k.bits)),
           Low(Shl(b, k.shift), k.bits)), Low(c, k.bits))
  {
    hide Low, Shl, Xor;
    var s := k.shift;
    ShlXor(Shl(h, s), a, s);
    ShlShl(h, s, s);
    ShlXor(Xor(Shl(h, 2 * s), Shl(a, s)), b, s);
    ShlXor(Shl(h, 2 * s), Shl(a, s), s);
    ShlShl(h, 2 * s, s);
    ShlShl(a, s, s);
    var x, y, z := Shl(h, 3 * s), Shl(a, 2 * s), Shl(b, s);
    LowXor(Xor(Xor(x, y), z), c, k.bits);
    LowXor(Xor(x, y), z, k.bits);
    LowXor(x, y, k.bits);
  }

  /** The hash begins with the first byte itself. */
  lemma MixFirst(k: Hashing, a: byte)
    requires HashingOk(k)
    ensures Mix(k, 0, a) == a
  {
    ShlZero(k.shift);
    XorZero(a);
    ByteLow(k.bits, a);
  }

  lemma ByteLow(n: nat, a: byte)
    requires n >= 8
    ensures Low(a, n) == a
  {
    Pow2Values();
    Pow2Monotone(8, n);
    LowSmall(a, n);
  }

  /** Two strings with the same hash that agree in two bytes agree in the third. */
  lemma HashThird(k: Hashing, a: byte, b: byte, c: byte, d: byte)
    requires HashingOk(k) && Hash3(k, a, b, c) == Hash3(k, a, b, d)
    ensures c == d
  {
    hide Low, Shl, Xor, Mix;
    var h := Mix(k, Mix(k, 0, a), b);
    MixThird(k, h, c, d);
  }

  lemma MixThird(k: Hashing, h: nat, c: byte, d: byte)
    requires HashingOk(k) && Mix(k, h, c) == Mix(k, h, d)
    ensures c == d
  {
    hide Low, Shl, Xor;
    LowXor(Shl(h, k.shift), c, k.bits);
    LowXor(Shl(h, k.shift), d, k.bits);
    ByteLow(k.bits, c);
    ByteLow(k.bits, d);
    XorCancel(Low(Shl(h, k.shift), k.bits), c, d);
  }
}
