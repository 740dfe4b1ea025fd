/** Input in which every string of a block repeats one far back (deps/libz/deflate.c:
    deflate_slow). */
module FarRuns {
  import opened Bits
  import opened RollingHash
  import opened HashChains
  import opened Tokens
  import opened Emission

  /** A distance with the largest number of extra bits. */
  const FAR: nat := 24768

  /** n matches of the largest length at that distance. */
  function Far(n: nat): (ts: seq<Token>)
    ensures |ts| == n && forall i :: 0 <= i < n ==> ts[i] == Match(255, FAR)
  {
    seq(n, i => Match(255, FAR))
  }

  lemma FarNext(n: nat)
    ensures Far(n) + [Match(255, FAR)] == Far(n + 1) && Far(0) == []
  {
  }

  /** The string at a repeats the one FAR before, the only one of its hash that is near enough. */
  ghost predicate Copies(k: Hashing, h: seq<byte>, a: nat, maxDist: nat) {
    && FAR < a && FAR <= maxDist && IsMatch(h, a - FAR, a, MAX_MATCH)
    && forall q: nat :: a <= q + maxDist && q < a && q != a - FAR ==> HashAt(k, h, q) != HashAt(k, h, a)
  }

  /** n strings, one after another, of which each does, and more input. */
  ghost predicate CopiesFrom(k: Hashing, h: seq<byte>, x: nat, n: nat, maxDist: nat) {
    x + MAX_MATCH * n + 262 <= |h| && forall i :: 0 <= i < n ==> Copies(k, h, x + MAX_MATCH * i, maxDist)
  }
}
