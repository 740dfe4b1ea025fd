/** An input for deflate_rle whose first block has as many tokens as there is room for, and
    four bytes for each of them (deps/libz/deflate.c: deflate_rle). */
module LongRuns {
  import opened Bits
  import opened Emission
  import opened RunLengths

  /** The length of run i: one byte, 61 runs of four, one of seven, q of eight, one of 259, one byte. */
  function RunSize(i: nat, q: nat): (n: nat)
    ensures n == 1 || 4 <= n <= 259
  {
    if i == 0 then 1
    else if i < 62 then 4
    else if i == 62 then 7
    else if i < 63 + q then 8
    else if i == 63 + q then 259
    else 1
  }

  function Same(b: byte, n: nat): (r: seq<byte>)
    ensures |r| == n && forall i :: 0 <= i < n ==> r[i] == b
  {
    seq(n, i => b)
  }

  /** The first n runs, of the bytes 0 and 1 in turn. */
  function Runs(n: nat, q: nat): seq<byte> {
    if n == 0 then [] else Runs(n - 1, q) + Same((n - 1) % 2, RunSize(n - 1, q))
  }

  /** The number of tokens for them: a literal, and a match unless the run is one byte. */
  function RunTokens(n: nat, q: nat): nat {
    if n == 0 then 0 else RunTokens(n - 1, q) + if RunSize(n - 1, q) == 1 then 1 else 2
  }

  lemma {:induction false} RunsPrefix(m: nat, n: nat, q: nat)
    requires m <= n
    ensures Runs(m, q) <= Runs(n, q)
  {
    if m < n { RunsPrefix(m, n - 1, q); }
  }

  lemma RunsLast(n: nat, q: nat)
    requires n > 0
    ensures Runs(n, q) != [] && Runs(n, q)[|Runs(n, q)| - 1] == (n - 1) % 2
  {
  }

  /** Where run i is in the input. */
  lemma RunPlace(i: nat, n: nat, q: nat)
    requires i < n
    ensures var h, p := Runs(n, q), |Runs(i, q)|;
      && p + RunSize(i, q) == |Runs(i + 1, q)| <= |h| && (forall j :: p <= j < p + RunSize(i, q) ==> h[j] == i % 2)
      && (p == 0 <==> i == 0) && (i > 0 ==> h[p - 1] == (i - 1) % 2)
      && (i + 1 < n ==> p + RunSize(i, q) < |h| && h[p + RunSize(i, q)] == (i + 1) % 2)
  {
    RunsPrefix(i + 1, n, q);
    var h, x, y := Runs(n, q), Runs(i, q), Same(i % 2, RunSize(i, q));
    assert Runs(i + 1, q) == x + y;
    forall j | |x| <= j < |x| + |y| ensures h[j] == i % 2 { assert h[j] == (x + y)[j]; }
    if i > 0 {
      RunsLast(i, q);
      assert h[|x| - 1] == (x + y)[|x| - 1] == x[|x| - 1];
    }
    if i + 1 < n {
      RunsPrefix(i + 2, n, q);
      var z := Same((i + 1) % 2, RunSize(i + 1, q));
      assert Runs(i + 2, q) == x + y + z;
      assert h[|x + y|] == (x + y + z)[|x + y|] == z[0];
    }
  }

  /** The tokens end where the runs end. */
  lemma {:induction false} TokensOfRuns(i: nat, n: nat, q: nat)
    requires i < n
    ensures TokensEnd(Runs(n, q), RunTokens(i, q)) == |Runs(i, q)|
    decreases i
  {
    if i > 0 {
      TokensOfRuns(i - 1, n, q);
      OneRun(i - 1, n, q);
    }
  }

  /** A literal, as the byte before differs, and then a match for the rest of the run. */
  lemma OneRun(i: nat, n: nat, q: nat)
    requires i + 1 < n && TokensEnd(Runs(n, q), RunTokens(i, q)) == |Runs(i, q)|
    ensures TokensEnd(Runs(n, q), RunTokens(i, q) + 1) == |Runs(i, q)| + 1
    ensures TokensEnd(Runs(n, q), RunTokens(i + 1, q)) == |Runs(i + 1, q)|
  {
    hide Runs, Repeats;
    RunPlace(i, n, q);
    var h, p, r := Runs(n, q), |Runs(i, q)|, RunSize(i, q);
    if i > 0 { RepeatsEnd(h, p, h[p - 1], MAX_MATCH, 0); }
    assert RunAt(h, p) == 1;
    if r > 1 { RepeatsIs(h, p + 1, h[p], MAX_MATCH, r - 1); }
  }

  /** Sizes: up to the 62nd run, then the runs of eight, then the rest. */
  lemma {:induction false} SizesStart(n: nat, q: nat)
    requires 1 <= n <= 62
    ensures |Runs(n, q)| == 4 * n - 3 && RunTokens(n, q) == 2 * n - 1
  {
    if n > 1 { SizesStart(n - 1, q); } else { assert Runs(0, q) == []; }
  }

  lemma {:induction false} SizesEight(j: nat, q: nat)
    requires j <= q
    ensures |Runs(63 + j, q)| == 252 + 8 * j && RunTokens(63 + j, q) == 125 + 2 * j
  {
    if j > 0 { SizesEight(j - 1, q); } else { SizesStart(62, q); }
  }

  /** For lit_bufsize 2 q + 128: the first block ends after 4 lit_bufsize - 1 bytes. */
  lemma FirstBlock(q: nat)
    ensures var h, lit := Runs(65 + q, q), 2 * q + 128;
      |h| == 4 * lit && TokensEnd(h, lit - 1) == 4 * lit - 1 && TokensEnd(h, lit - 2) + MAX_MATCH == 4 * lit - 1
  {
    hide *;
    SizesEight(q, q);
    TokensOfRuns(63 + q, 65 + q, q);
    OneRun(63 + q, 65 + q, q);
    SizesEnd(q);
  }

  lemma SizesEnd(q: nat)
    ensures |Runs(64 + q, q)| == |Runs(63 + q, q)| + 259 && |Runs(65 + q, q)| == |Runs(64 + q, q)| + 1
    ensures RunTokens(64 + q, q) == RunTokens(63 + q, q) + 2 && MAX_MATCH == 258
  {
  }
}
