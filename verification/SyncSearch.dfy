/** syncsearch (deps/libz/inflate.c): find the marker of a flush point in a byte
    stream that arrives in pieces. */
module SyncSearch {
  import opened Bits

  const MARKER: seq<byte> := [0, 0, 0xff, 0xff]

  /** The last k bytes read are the first k bytes of the marker. */
  predicate EndsWith(x: seq<byte>, k: nat) {
    k <= 4 && k <= |x| && x[|x| - k..] == MARKER[..k]
  }

  /** k is the length of the longest beginning of the marker at the end of x. */
  ghost predicate LongestEnd(x: seq<byte>, k: nat) {
    EndsWith(x, k) && forall j :: k < j <= 4 ==> !EndsWith(x, j)
  }

  lemma LongestUnique(x: seq<byte>, k: nat, j: nat)
    requires LongestEnd(x, k) && LongestEnd(x, j)
    ensures k == j
  {
  }

  lemma LastByte(x: seq<byte>, k: nat)
    requires EndsWith(x, k) && 1 <= k
    ensures x != [] && x[|x| - 1] == if k < 3 then 0 else 0xff
  {
    assert x[|x| - 1] == x[|x| - k..][k - 1] == MARKER[k - 1];
  }

  /** The new value of got after byte b. */
  function Next(got: nat, b: byte): nat
    requires got < 4
  {
    if b == (if got < 2 then 0 else 0xff) then got + 1
    else if b != 0 then 0
    else 4 - got
  }

  lemma EndsWithNext(x: seq<byte>, b: byte, k: nat)
    requires k < 4
    ensures EndsWith(x + [b], k + 1) <==> EndsWith(x, k) && b == MARKER[k]
  {
    if k <= |x| {
      assert (x + [b])[|x| - k..] == x[|x| - k..] + [b];
      assert MARKER[..k + 1] == MARKER[..k] + [MARKER[k]];
    }
  }

  /** Shorter beginnings that end a longer one. */
  lemma Borders(x: seq<byte>, k: nat)
    requires LongestEnd(x, k) && k < 4
    ensures EndsWith(x, 0)
    ensures EndsWith(x, 1) <==> k == 1 || k == 2
    ensures EndsWith(x, 2) <==> k == 2
    ensures EndsWith(x, 3) <==> k == 3
  {
    if k == 2 { assert x[|x| - 1..] == x[|x| - 2..][1..] == MARKER[..1]; }
    if k == 3 { LastByte(x, 3); }
    if EndsWith(x, 1) { LastByte(x, 1); }
    if EndsWith(x, 2) { LastByte(x, 2); }
  }

  lemma EmptyEnd(x: seq<byte>)
    ensures EndsWith(x, 0)
  {
  }

  /** The failure function of the marker: got stays the longest match. */
  lemma NextIsLongest(x: seq<byte>, got: nat, b: byte)
    requires LongestEnd(x, got) && got < 4
    ensures LongestEnd(x + [b], Next(got, b))
  {
    hide EndsWith;
    Borders(x, got);
    EndsWithNext(x, b, 0);
    EndsWithNext(x, b, 1);
    EndsWithNext(x, b, 2);
    EndsWithNext(x, b, 3);
    EmptyEnd(x + [b]);
  }

  /** x is what was read before.  The search stops just after the first marker in
      x + buf, or at the end of buf; have1 is then the longest match. */
  method SyncSearch(have0: nat, buf: seq<byte>, ghost x: seq<byte>) returns (have1: nat, next: nat)
    requires have0 < 4 && LongestEnd(x, have0)
    ensures next <= |buf| && LongestEnd(x + buf[..next], have1)
    ensures have1 < 4 ==> next == |buf|
    ensures forall n :: 0 <= n < next ==> !EndsWith(x + buf[..n], 4)
    ensures have1 == 4 <==> EndsWith(x + buf[..next], 4)
  {
    hide EndsWith, Next, MARKER;
    var got: nat := have0;
    next := 0;
    assert x + buf[..0] == x;
    LongestFour(x, got);
    while next < |buf| && got < 4
      invariant next <= |buf| && LongestEnd(x + buf[..next], got) && got <= 4
      invariant got == 4 <==> EndsWith(x + buf[..next], 4)
      invariant forall n :: 0 <= n < next ==> !EndsWith(x + buf[..n], 4)
    {
      NextIsLongest(x + buf[..next], got, buf[next]);
      NextUnfold(got, buf[next]);
      if buf[next] == (if got < 2 then 0 else 0xff) {
        got := got + 1;
      } else if buf[next] != 0 {
        got := 0;
      } else {
        got := 4 - got;
      }
      assert x + buf[..next + 1] == (x + buf[..next]) + [buf[next]];
      next := next + 1;
      LongestFour(x + buf[..next], got);
    }
    have1 := got;
  }

  lemma NextUnfold(got: nat, b: byte)
    requires got < 4
    ensures Next(got, b) == if b == (if got < 2 then 0 else 0xff) then got + 1 else if b != 0 then 0 else 4 - got
    ensures Next(got, b) <= 4
  {
  }

  lemma LongestFour(x: seq<byte>, k: nat)
    requires LongestEnd(x, k)
    ensures k <= 4 && (k == 4 <==> EndsWith(x, 4))
  {
  }

  // ---- Over all pieces ----

  /** The search over the bytes x has stopped after pos bytes with the match have. */
  ghost predicate Searched(x: seq<byte>, pos: nat, have: nat) {
    && pos <= |x| && LongestEnd(x[..pos], have) && (have < 4 ==> pos == |x|)
    && forall n :: 0 <= n < pos ==> !EndsWith(x[..n], 4)
  }

  function Joined(pieces: seq<seq<byte>>, n: nat): seq<byte>
    requires n <= |pieces|
  {
    if n == 0 then [] else Joined(pieces, n - 1) + pieces[n - 1]
  }

  /** inflateSync over a stream in pieces, until the marker is complete. */
  method SearchPieces(pieces: seq<seq<byte>>) returns (have: nat, pos: nat)
    ensures Searched(Joined(pieces, |pieces|), pos, have)
  {
    hide LongestEnd, EndsWith;
    have, pos := 0, 0;
    NoneSearched();
    var i := 0;
    while i < |pieces| && have < 4
      invariant 0 <= i <= |pieces| && Searched(Joined(pieces, i), pos, have)
    {
      ghost var x := Joined(pieces, i);
      assert x[..pos] == x;
      var next;
      have, next := SyncSearch(have, pieces[i], x);
      SearchedMore(x, pieces[i], next, have);
      pos := pos + next;
      i := i + 1;
    }
    if i < |pieces| { SearchedStays(pieces, i, pos, have); }
  }

  lemma NoneSearched()
    ensures Searched([], 0, 0)
  {
    var none: seq<byte> := [];
    assert none[..0] == [];
  }

  lemma SearchedMore(x: seq<byte>, y: seq<byte>, next: nat, have: nat)
    requires exists h :: h < 4 && Searched(x, |x|, h)
    requires next <= |y| && LongestEnd(x + y[..next], have) && (have < 4 ==> next == |y|)
    requires forall n :: 0 <= n < next ==> !EndsWith(x + y[..n], 4)
    ensures Searched(x + y, |x| + next, have)
  {
    hide LongestEnd, EndsWith;
    assert (x + y)[..|x| + next] == x + y[..next];
    forall n | 0 <= n < |x| + next ensures !EndsWith((x + y)[..n], 4) {
      if n < |x| {
        assert (x + y)[..n] == x[..n];
      } else {
        assert (x + y)[..n] == x + y[..n - |x|];
      }
    }
  }

  /** What comes after the marker does not matter. */
  lemma {:induction false} SearchedStays(pieces: seq<seq<byte>>, i: nat, pos: nat, have: nat)
    requires i <= |pieces| && Searched(Joined(pieces, i), pos, have) && have >= 4
    ensures Searched(Joined(pieces, |pieces|), pos, have)
    decreases |pieces| - i
  {
    hide LongestEnd, EndsWith;
    if i < |pieces| {
      var x, y := Joined(pieces, i), Joined(pieces, i + 1);
      forall n | 0 <= n <= pos ensures y[..n] == x[..n] {}
      SearchedStays(pieces, i + 1, pos, have);
    }
  }

  /** The outcome does not depend on the pieces. */
  lemma SameSearch(x: seq<byte>, pos1: nat, have1: nat, pos2: nat, have2: nat)
    requires Searched(x, pos1, have1) && Searched(x, pos2, have2)
    ensures pos1 == pos2 && have1 == have2
  {
    hide EndsWith;
    LongestFour(x[..pos1], have1);
    LongestFour(x[..pos2], have2);
    if pos1 == pos2 { LongestUnique(x[..pos1], have1, have2); }
  }
}
