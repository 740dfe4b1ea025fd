/** The tokens of deflate_rle as a function of the input (deps/libz/deflate.c): where each of
    them ends. */
module RunLengths {
  import opened Bits
  import opened Emission

  /** How many bytes from p on are b, at most max. */
  function Repeats(h: seq<byte>, p: nat, b: byte, max: nat): (n: nat)
    ensures n <= max && (p <= |h| ==> p + n <= |h|)
    decreases max
  {
    if max == 0 || p >= |h| || h[p] != b then 0 else 1 + Repeats(h, p + 1, b, max - 1)
  }

  /** The bytes that the token at p stands for: a run of the byte before, or one byte. */
  function RunAt(h: seq<byte>, p: nat): (n: nat)
    requires p < |h|
    ensures 1 <= n <= MAX_MATCH && p + n <= |h|
  {
    var r := if p == 0 then 0 else Repeats(h, p, h[p - 1], MAX_MATCH);
    if r >= MIN_MATCH then r else 1
  }

  /** Where the first n tokens end. */
  function TokensEnd(h: seq<byte>, n: nat): (p: nat)
    ensures p <= |h|
  {
    if n == 0 then 0
    else
      var p := TokensEnd(h, n - 1);
      if p < |h| then p + RunAt(h, p) else p
  }

  lemma {:induction false} RepeatsIs(h: seq<byte>, p: nat, b: byte, max: nat, n: nat)
    requires n <= max && p + n <= |h| && forall i :: p <= i < p + n ==> h[i] == b
    requires n == max || p + n == |h| || h[p + n] != b
    ensures Repeats(h, p, b, max) == n
    decreases n
  {
    if n > 0 {
      assert h[p] == b;
      RepeatsIs(h, p + 1, b, max - 1, n - 1);
    }
  }

  /** A byte that differs ends the run. */
  lemma {:induction false} RepeatsEnd(h: seq<byte>, p: nat, b: byte, max: nat, n: nat)
    requires p + n < |h| && h[p + n] != b
    ensures Repeats(h, p, b, max) <= n
    decreases n
  {
    if n > 0 && max > 0 { RepeatsEnd(h, p + 1, b, max - 1, n - 1); }
  }

  lemma {:induction false} EndsGrow(h: seq<byte>, m: nat, n: nat)
    requires m <= n
    ensures TokensEnd(h, m) <= TokensEnd(h, n)
  {
    if m < n { EndsGrow(h, m, n - 1); }
  }
}
