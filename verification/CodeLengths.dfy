/** Run-length coding of code lengths (deps/libz/trees.c: scan_tree, send_tree)
    and its inverse, the CODELENS state of inflate (deps/libz/inflate.c); section
    3.2.7 of RFC 1951. */
module CodeLengths {
  import opened Bits

  /** A symbol of the code length alphabet: 0 to 15 is a length, 16 repeats the
      previous length 3 + arg times, 17 and 18 stand for 3 + arg and 11 + arg zeros. */
  datatype Item = Item(sym: nat, arg: nat)

  const GUARD: nat := 0xffff

  function NextLen(lens: seq<nat>, n: nat): nat
    requires n < |lens|
  {
    if n + 1 < |lens| then lens[n + 1] else GUARD
  }

  /** max_count and min_count while a run of cur follows prev. */
  function MaxCount(prev: int, cur: nat): nat { if cur == 0 then 138 else if prev == cur then 6 else 7 }

  function MinCount(prev: int, cur: nat): nat { if cur == 0 || prev == cur then 3 else 4 }

  function Copies(x: Item, n: nat): (s: seq<Item>)
    ensures |s| == n
  {
    if n == 0 then [] else Copies(x, n - 1) + [x]
  }

  /** What is emitted for a run of count times cur after prev. */
  function Run(prev: int, cur: nat, count: nat): seq<Item>
    requires 1 <= count <= MaxCount(prev, cur)
  {
    if count < MinCount(prev, cur) then Copies(Item(cur, 0), count)
    else if cur != 0 then
      if cur != prev then [Item(cur, 0), Item(16, count - 4)] else [Item(16, count - 3)]
    else if count <= 10 then [Item(17, count - 3)]
    else [Item(18, count - 11)]
  }

  /** The loop from index n on, with count lengths of the current run pending. */
  function ItemsFrom(lens: seq<nat>, n: nat, prev: int, count: nat): seq<Item>
    requires n <= |lens| && (n < |lens| ==> count < MaxCount(prev, lens[n]))
    decreases |lens| - n
  {
    if n == |lens| then []
    else if count + 1 < MaxCount(prev, lens[n]) && lens[n] == NextLen(lens, n) && n + 1 < |lens| then
      ItemsFrom(lens, n + 1, prev, count + 1)
    else
      Run(prev, lens[n], count + 1) + ItemsFrom(lens, n + 1, lens[n], 0)
  }

  function Items(lens: seq<nat>): seq<Item> { ItemsFrom(lens, 0, -1, 0) }

  // ---- The decoder's view ----

  function Repeat(x: nat, n: nat): (s: seq<nat>)
    ensures |s| == n
  {
    if n == 0 then [] else Repeat(x, n - 1) + [x]
  }

  datatype Option<T> = None | Some(value: T)

  /** How CODELENS extends the lengths read so far; a repeat needs a previous length. */
  function Apply(lens: seq<nat>, item: Item): Option<seq<nat>> {
    if item.sym < 16 then Some(lens + [item.sym])
    else if item.sym == 16 then
      if lens == [] then None else Some(lens + Repeat(lens[|lens| - 1], 3 + item.arg))
    else Some(lens + Repeat(0, (if item.sym == 17 then 3 else 11) + item.arg))
  }

  function ApplyAll(lens: seq<nat>, items: seq<Item>): Option<seq<nat>>
    decreases |items|
  {
    if items == [] then Some(lens)
    else
      var r := Apply(lens, items[0]);
      if r.None? then None else ApplyAll(r.value, items[1..])
  }

  lemma {:induction false} ApplyConcat(lens: seq<nat>, a: seq<Item>, b: seq<Item>)
    requires ApplyAll(lens, a).Some?
    ensures ApplyAll(lens, a + b) == ApplyAll(ApplyAll(lens, a).value, b)
    decreases |a|
  {
    if a == [] {
      assert a + b == b;
    } else {
      assert (a + b)[1..] == a[1..] + b;
      ApplyConcat(Apply(lens, a[0]).value, a[1..], b);
    }
  }

  lemma {:induction false} ApplyCopies(lens: seq<nat>, x: nat, n: nat)
    requires x < 16
    ensures ApplyAll(lens, Copies(Item(x, 0), n)) == Some(lens + Repeat(x, n))
  {
    if n > 0 {
      ApplyCopies(lens, x, n - 1);
      ApplyConcat(lens, Copies(Item(x, 0), n - 1), [Item(x, 0)]);
      ApplyOne(lens + Repeat(x, n - 1), Item(x, 0));
      assert lens + Repeat(x, n - 1) + [x] == lens + Repeat(x, n);
    } else {
      assert lens + [] == lens;
    }
  }

  lemma ApplyOne(lens: seq<nat>, item: Item)
    requires Apply(lens, item).Some?
    ensures ApplyAll(lens, [item]) == Apply(lens, item)
  {
    assert [item][1..] == [];
    assert ApplyAll(Apply(lens, item).value, []) == Apply(lens, item);
  }

  lemma {:induction false} RepeatFirst(x: nat, n: nat)
    ensures Repeat(x, n + 1) == [x] + Repeat(x, n)
  {
    if n > 0 { RepeatFirst(x, n - 1); }
  }

  /** prev is the length before, if any. */
  ghost predicate Previous(prev: int, lens: seq<nat>) {
    prev >= 0 ==> lens != [] && lens[|lens| - 1] == prev
  }

  lemma ApplyRun(lens: seq<nat>, prev: int, cur: nat, count: nat)
    requires 1 <= count <= MaxCount(prev, cur) && cur < 16 && Previous(prev, lens)
    ensures ApplyAll(lens, Run(prev, cur, count)) == Some(lens + Repeat(cur, count))
  {
    hide ApplyAll, Repeat, Copies;
    if count < MinCount(prev, cur) {
      ApplyCopies(lens, cur, count);
    } else if cur == 0 {
      ApplyOne(lens, if count <= 10 then Item(17, count - 3) else Item(18, count - 11));
    } else if cur == prev {
      ApplyOne(lens, Item(16, count - 3));
    } else {
      ApplyNewRun(lens, cur, count);
    }
  }

  lemma ApplyNewRun(lens: seq<nat>, cur: nat, count: nat)
    requires 4 <= count && cur < 16
    ensures ApplyAll(lens, [Item(cur, 0), Item(16, count - 4)]) == Some(lens + Repeat(cur, count))
  {
    hide ApplyAll, Repeat;
    RepeatFirst(cur, count - 1);
    ApplyOne(lens, Item(cur, 0));
    ApplyOne(lens + [cur], Item(16, count - 4));
    ApplyConcat(lens, [Item(cur, 0)], [Item(16, count - 4)]);
    assert [Item(cur, 0)] + [Item(16, count - 4)] == [Item(cur, 0), Item(16, count - 4)];
    assert lens + [cur] + Repeat(cur, count - 1) == lens + Repeat(cur, count);
  }

  ghost predicate LengthsBelow16(lens: seq<nat>) { forall i :: 0 <= i < |lens| ==> lens[i] < 16 }

  /** count lengths equal to lens[n] are pending before index n. */
  ghost predicate Pending(lens: seq<nat>, n: nat, count: nat) {
    count <= n <= |lens| && (n < |lens| ==> forall i :: n - count <= i < n ==> lens[i] == lens[n])
  }

  lemma {:induction false} RunIsRepeat(lens: seq<nat>, n: nat, count: nat)
    requires Pending(lens, n, count) && n < |lens|
    ensures lens[n - count..n + 1] == Repeat(lens[n], count + 1)
    decreases count
  {
    if count > 0 {
      RunIsRepeat(lens, n, count - 1);
      RepeatFirst(lens[n], count);
      assert lens[n - count..n + 1] == [lens[n - count]] + lens[n - count + 1..n + 1];
    }
  }

  lemma {:induction false} Unpacks(out: seq<nat>, lens: seq<nat>, n: nat, prev: int, count: nat)
    requires LengthsBelow16(lens) && n <= |lens| && (n < |lens| ==> count < MaxCount(prev, lens[n]))
    requires Pending(lens, n, count) && Previous(prev, out + lens[..n - count]) && (n == |lens| ==> count == 0)
    ensures ApplyAll(out + lens[..n - count], ItemsFrom(lens, n, prev, count)) == Some(out + lens)
    decreases |lens| - n
  {
    if n == |lens| {
      assert lens[..n] == lens;
    } else if count + 1 < MaxCount(prev, lens[n]) && lens[n] == NextLen(lens, n) && n + 1 < |lens| {
      Unpacks(out, lens, n + 1, prev, count + 1);
    } else {
      UnpackRun(out, lens, n, prev, count);
      Unpacks(out, lens, n + 1, lens[n], 0);
    }
  }

  lemma UnpackRun(out: seq<nat>, lens: seq<nat>, n: nat, prev: int, count: nat)
    requires LengthsBelow16(lens) && n < |lens| && count < MaxCount(prev, lens[n])
    requires Pending(lens, n, count) && Previous(prev, out + lens[..n - count])
    ensures Previous(lens[n], out + lens[..n + 1])
    ensures var rest := ItemsFrom(lens, n + 1, lens[n], 0);
            ApplyAll(out + lens[..n - count], Run(prev, lens[n], count + 1) + rest)
              == ApplyAll(out + lens[..n + 1], rest)
  {
    var before := out + lens[..n - count];
    hide ItemsFrom, ApplyAll, Run;
    ApplyRun(before, prev, lens[n], count + 1);
    RunIsRepeat(lens, n, count);
    assert before + Repeat(lens[n], count + 1) == out + lens[..n + 1];
    ApplyConcat(before, Run(prev, lens[n], count + 1), ItemsFrom(lens, n + 1, lens[n], 0));
  }

  /** The decoder reads back exactly the lengths, whatever was read before, and
      without a repeat error: the first item never refers to what came before. */
  lemma RoundTrip(out: seq<nat>, lens: seq<nat>)
    requires LengthsBelow16(lens)
    ensures ApplyAll(out, Items(lens)) == Some(out + lens)
  {
    assert out + lens[..0] == out;
    Unpacks(out, lens, 0, -1, 0);
  }

  // ---- Arguments and counts ----

  /** extra_blbits */
  function ExtraBl(sym: nat): nat { if sym == 16 then 2 else if sym == 17 then 3 else if sym == 18 then 7 else 0 }

  predicate ItemOk(item: Item) {
    item.sym < 19 && item.arg < Pow2(ExtraBl(item.sym))
  }

  ghost predicate ItemsOk(items: seq<Item>) { forall i :: 0 <= i < |items| ==> ItemOk(items[i]) }

  lemma {:induction false} CopiesOk(x: Item, n: nat)
    requires ItemOk(x)
    ensures ItemsOk(Copies(x, n))
  {
    if n > 0 { CopiesOk(x, n - 1); }
  }

  lemma RunOk(prev: int, cur: nat, count: nat)
    requires 1 <= count <= MaxCount(prev, cur) && cur < 16
    ensures ItemsOk(Run(prev, cur, count)) && |Run(prev, cur, count)| <= count
  {
    Pow2Values();
    assert Pow2(2) == 4 && Pow2(3) == 8 && Pow2(0) == 1;
    hide Pow2;
    CopiesOk(Item(cur, 0), count);
  }

  lemma {:induction false} ItemsFromOk(lens: seq<nat>, n: nat, prev: int, count: nat)
    requires LengthsBelow16(lens) && n <= |lens| && (n < |lens| ==> count < MaxCount(prev, lens[n]))
    ensures ItemsOk(ItemsFrom(lens, n, prev, count))
    ensures |ItemsFrom(lens, n, prev, count)| <= count + |lens| - n
    decreases |lens| - n
  {
    if n == |lens| {
    } else if count + 1 < MaxCount(prev, lens[n]) && lens[n] == NextLen(lens, n) && n + 1 < |lens| {
      ItemsFromOk(lens, n + 1, prev, count + 1);
    } else {
      RunOk(prev, lens[n], count + 1);
      ItemsFromOk(lens, n + 1, lens[n], 0);
    }
  }

  /** How often a symbol is emitted. */
  function ItemCount(items: seq<Item>, sym: nat): nat {
    if items == [] then 0
    else ItemCount(items[..|items| - 1], sym) + (if items[|items| - 1].sym == sym then 1 else 0)
  }

  lemma {:induction false} CountConcat(a: seq<Item>, b: seq<Item>, sym: nat)
    ensures ItemCount(a + b, sym) == ItemCount(a, sym) + ItemCount(b, sym)
    decreases |b|
  {
    if b == [] {
      assert a + b == a;
    } else {
      assert (a + b)[..|a + b| - 1] == a + b[..|b| - 1];
      CountConcat(a, b[..|b| - 1], sym);
    }
  }

  lemma {:induction false} CountCopies(x: Item, n: nat, sym: nat)
    ensures ItemCount(Copies(x, n), sym) == if x.sym == sym then n else 0
  {
    if n > 0 {
      CountCopies(x, n - 1, sym);
      assert Copies(x, n)[..n - 1] == Copies(x, n - 1);
    }
  }

  lemma CountRun(prev: int, cur: nat, count: nat, sym: nat)
    requires 1 <= count <= MaxCount(prev, cur) && cur < 16
    ensures ItemCount(Run(prev, cur, count), sym) ==
      if count < MinCount(prev, cur) then (if sym == cur then count else 0)
      else if cur != 0 then (if sym == cur && cur != prev then 1 else 0) + (if sym == 16 then 1 else 0)
      else if count <= 10 then (if sym == 17 then 1 else 0)
      else (if sym == 18 then 1 else 0)
  {
    if count < MinCount(prev, cur) {
      CountCopies(Item(cur, 0), count, sym);
    } else if cur == 0 {
      CountOne(if count <= 10 then Item(17, count - 3) else Item(18, count - 11), sym);
    } else if cur != prev {
      CountOne(Item(cur, 0), sym);
      CountOne(Item(16, count - 4), sym);
      CountConcat([Item(cur, 0)], [Item(16, count - 4)], sym);
      assert [Item(cur, 0)] + [Item(16, count - 4)] == [Item(cur, 0), Item(16, count - 4)];
    } else {
      CountOne(Item(16, count - 3), sym);
    }
  }

  lemma CountOne(x: Item, sym: nat)
    ensures ItemCount([x], sym) == if x.sym == sym then 1 else 0
  {
    assert [x][..0] == [];
    assert ItemCount([], sym) == 0;
  }

}
