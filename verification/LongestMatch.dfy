/** longest_match (deps/libz/deflate.c): the third byte is never compared. */
module LongestMatch {
  import opened Bits
  import opened RollingHash
  import opened HashChains
  import opened Emission
  import opened LzState
  import W = WindowFill

  /** Equal hashes and equal first bytes make the third bytes equal. */
  lemma ThirdByte(k: Hashing, hist: seq<byte>, a: nat, b: nat)
    requires HashingOk(k) && a + 2 < |hist| && b + 2 < |hist| && HashAt(k, hist, a) == HashAt(k, hist, b)
    requires hist[a] == hist[b] && hist[a + 1] == hist[b + 1]
    ensures hist[a + 2] == hist[b + 2]
  {
    hide Hash3;
    HashThird(k, hist[a], hist[a + 1], hist[a + 2], hist[b + 2]);
  }

  /** The first l bytes at m and at scan are the same. */
  ghost predicate Same(w: seq<byte>, m: nat, scan: nat, l: nat) {
    m < scan && scan + l <= |w| && w[m..m + l] == w[scan..scan + l]
  }

  /** The match at m is not longer than best. */
  ghost predicate NoLonger(w: seq<byte>, m: nat, scan: nat, best: nat) {
    forall l :: best < l <= MAX_MATCH ==> !Same(w, m, scan, l)
  }

  lemma Differ(w: seq<byte>, m: nat, scan: nat, i: nat, best: nat)
    requires m < scan && scan + i < |w| && w[m + i] != w[scan + i] && i <= best
    ensures NoLonger(w, m, scan, best)
  {
    hide Same;
    forall l | best < l <= MAX_MATCH ensures !Same(w, m, scan, l) {
      if Same(w, m, scan, l) { SameAt(w, m, scan, l, i); }
    }
  }

  lemma SameAt(w: seq<byte>, m: nat, scan: nat, l: nat, i: nat)
    requires Same(w, m, scan, l) && i < l
    ensures w[m + i] == w[scan + i]
  {
    assert w[m..m + l][i] == w[scan..scan + l][i];
  }

  lemma SameMore(w: seq<byte>, m: nat, scan: nat, l: nat)
    requires Same(w, m, scan, l) && scan + l < |w| && w[m + l] == w[scan + l]
    ensures Same(w, m, scan, l + 1)
  {
    assert w[m..m + (l + 1)] == w[m..m + l] + [w[m + l]];
    assert w[scan..scan + (l + 1)] == w[scan..scan + l] + [w[scan + l]];
  }

  lemma SameLess(w: seq<byte>, m: nat, scan: nat, l: nat, n: nat)
    requires Same(w, m, scan, l) && n <= l
    ensures Same(w, m, scan, n)
  {
    assert w[m..m + n] == w[m..m + l][..n];
    assert w[scan..scan + n] == w[scan..scan + l][..n];
  }

  lemma SameThree(w: seq<byte>, m: nat, scan: nat)
    requires m < scan && scan + 2 < |w| && w[m] == w[scan] && w[m + 1] == w[scan + 1] && w[m + 2] == w[scan + 2]
    ensures Same(w, m, scan, 3)
  {
  }

  /** The string at m against the one at scan: the length of the match when it can be longer than best. */
  method Compare(window: array<byte>, scan: nat, m: nat, best: nat) returns (len: nat)
    requires m < scan && scan + MAX_MATCH < window.Length && 1 <= best <= MAX_MATCH
    requires window[m] == window[scan] && window[m + 1] == window[scan + 1] ==> window[m + 2] == window[scan + 2]
    ensures len <= MAX_MATCH && Same(window[..], m, scan, len)
    ensures NoLonger(window[..], m, scan, if len <= best then best else len)
  {
    hide NoLonger, Same;
    ghost var w: seq<byte> := window[..];
    SameNone(w, m, scan);
    if window[m + best] != window[scan + best] {
      Differ(w, m, scan, best, best);
      return 0;
    }
    if window[m + best - 1] != window[scan + best - 1] {
      Differ(w, m, scan, best - 1, best);
      return 0;
    }
    if window[m] != window[scan] {
      Differ(w, m, scan, 0, best);
      return 0;
    }
    if window[m + 1] != window[scan + 1] {
      Differ(w, m, scan, 1, best);
      return 0;
    }
    SameThree(w, m, scan);                    // the third byte is not compared
    len := Extend(window, scan, m);
    if len < MAX_MATCH {
      Differ(w, m, scan, len, if len <= best then best else len);
    } else {
      NoneLonger(w, m, scan);
    }
  }

  lemma NoneLonger(w: seq<byte>, m: nat, scan: nat)
    ensures NoLonger(w, m, scan, MAX_MATCH)
  {
  }

  lemma SameNone(w: seq<byte>, m: nat, scan: nat)
    requires m < scan <= |w|
    ensures Same(w, m, scan, 0)
  {
  }

  /** The comparison loop: the end is checked for after every eighth byte. */
  method Extend(window: array<byte>, scan0: nat, m: nat) returns (len: nat)
    requires m < scan0 && scan0 + MAX_MATCH < window.Length && Same(window[..], m, scan0, 3)
    ensures 3 <= len <= MAX_MATCH && Same(window[..], m, scan0, len)
    ensures len < MAX_MATCH ==> window[m + len] != window[scan0 + len]
  {
    hide Same;
    ghost var w: seq<byte> := window[..];
    var strend := scan0 + MAX_MATCH;
    var scan, match_ := scan0 + 2, m + 2;
    ghost var rounds := 0;
    while true
      invariant scan == scan0 + 2 + 8 * rounds && match_ == m + 2 + 8 * rounds && rounds < 32
      invariant Same(w, m, scan0, scan - scan0 + 1)
      decreases 32 - rounds
    {
      var i := 0;
      while i < 8
        invariant i <= 8 && scan == scan0 + 2 + 8 * rounds + i && match_ == m + 2 + 8 * rounds + i
        invariant Same(w, m, scan0, scan - scan0 + 1)
      {
        scan, match_ := scan + 1, match_ + 1;
        if window[scan] != window[match_] {
          return MAX_MATCH - (strend - scan);
        }
        SameMore(w, m, scan0, scan - scan0);
        i := i + 1;
      }
      rounds := rounds + 1;
      if scan >= strend { break; }
    }
    SameLess(w, m, scan0, scan - scan0 + 1, scan - scan0);
    len := MAX_MATCH - (strend - scan);
  }

  // ---- The search ----

  /** What holds of each string that is examined. */
  ghost predicate Candidate(k: Hashing, hist: seq<byte>, base: nat, ins: set<nat>, cur: nat, strstart: nat) {
    && 0 < cur < strstart && base + cur in ins && HashAt(k, hist, base + cur) == HashAt(k, hist, base + strstart)
  }

  /** The string that the search begins with is the latest of its hash. */
  ghost predicate HeadAt(k: Hashing, hist: seq<byte>, base: nat, ins: set<nat>, cur: nat, strstart: nat) {
    && Candidate(k, hist, base, ins, cur, strstart)
    && forall b :: b in ins && base + cur < b < base + strstart ==>
        HashAt(k, hist, b) != HashAt(k, hist, base + strstart)
  }

  lemma HeadFrom(k: Hashing, hist: seq<byte>, base: nat, ins: set<nat>, q: nat, strstart: nat)
    requires LinksTo(k, hist, base, ins, q, HashAt(k, hist, base + strstart), base + strstart) && q > 0
    ensures HeadAt(k, hist, base, ins + {base + strstart}, q, strstart)
  {
    hide HashAt;
  }

  /** In the window, the third bytes are equal when the first two are. */
  lemma CandidateThird(k: Hashing, window: seq<byte>, hist: seq<byte>, base: nat, ins: set<nat>, cur: nat,
                       strstart: nat)
    requires HashingOk(k) && Windowed(window, hist, base) && Candidate(k, hist, base, ins, cur, strstart)
    requires base + strstart + 2 < |hist|
    ensures window[cur] == window[strstart] && window[cur + 1] == window[strstart + 1] ==>
      window[cur + 2] == window[strstart + 2]
  {
    hide HashAt, HashingOk;
    WindowAt(window, hist, base, cur);
    WindowAt(window, hist, base, strstart);
    if window[cur] == window[strstart] && window[cur + 1] == window[strstart + 1] {
      ThirdByte(k, hist, base + cur, base + strstart);
    }
  }

  lemma WindowAt(window: seq<byte>, hist: seq<byte>, base: nat, i: nat)
    requires Windowed(window, hist, base) && base + i + 2 < |hist|
    ensures i + 2 < |window|
    ensures window[i] == hist[base + i] && window[i + 1] == hist[base + i + 1] && window[i + 2] == hist[base + i + 2]
  {
    var w := window[..|hist| - base];
    assert w[i] == hist[base..][i] && w[i + 1] == hist[base..][i + 1] && w[i + 2] == hist[base..][i + 2];
  }

  /** Equal bytes in the window, up to the lookahead, are a match in the input. */
  lemma FoundMatch(window: seq<byte>, hist: seq<byte>, base: nat, m: nat, strstart: nat, l: nat, len: nat)
    requires Windowed(window, hist, base) && Same(window, m, strstart, l) && len <= l && base + strstart + len <= |hist|
    ensures IsMatch(hist, base + m, base + strstart, len)
  {
    SameLess(window, m, strstart, l, len);
    WindowPart(window, hist, base, m, len);
    WindowPart(window, hist, base, strstart, len);
  }

  /** The next string of the chain. */
  lemma NextCandidate(k: Hashing, hist: seq<byte>, base: nat, ins: set<nat>, head: seq<nat>, prev: seq<nat>,
                      wbits: nat, cur: nat, strstart: nat)
    requires Chained(k, hist, base, ins, head, prev, wbits, base + strstart + 1)
    requires Candidate(k, hist, base, ins, cur, strstart)
    requires cur + Pow2(wbits) >= strstart + 1
    ensures Low(cur, wbits) < |prev|
    ensures prev[Low(cur, wbits)] > 0 ==>
      prev[Low(cur, wbits)] < cur && Candidate(k, hist, base, ins, prev[Low(cur, wbits)], strstart)
  {
    hide Chained, HashAt, Low, Pow2;
    Follow(k, hist, base, ins, head, prev, wbits, base + strstart + 1, cur);
  }

  /** The chain is followed from first: each index but the first is the link of the one
      before, and above limit. */
  ghost predicate Walk(prev: seq<nat>, wbits: nat, limit: nat, first: nat, seen: seq<nat>) {
    seen != [] && seen[0] == first && forall i: nat :: i + 1 < |seen| ==> Linked(prev, wbits, limit, seen, i)
  }

  ghost predicate Linked(prev: seq<nat>, wbits: nat, limit: nat, seen: seq<nat>, i: nat)
    requires i + 1 < |seen|
  {
    Low(seen[i], wbits) < |prev| && seen[i + 1] == prev[Low(seen[i], wbits)] > limit
  }

  lemma WalkOn(prev: seq<nat>, wbits: nat, limit: nat, first: nat, seen: seq<nat>, next: nat)
    requires Walk(prev, wbits, limit, first, seen)
    requires Low(seen[|seen| - 1], wbits) < |prev| && next == prev[Low(seen[|seen| - 1], wbits)] > limit
    ensures Walk(prev, wbits, limit, first, seen + [next])
  {
    hide Low;
    forall i: nat | i + 1 < |seen + [next]| ensures Linked(prev, wbits, limit, seen + [next], i) {
      assert i + 1 < |seen| ==> Linked(prev, wbits, limit, seen, i);
    }
  }

  /** No string in seen matches for more than best bytes. */
  ghost predicate NoneBetter(w: seq<byte>, seen: seq<nat>, scan: nat, best: nat) {
    forall i :: 0 <= i < |seen| ==> NoLonger(w, seen[i], scan, best)
  }

  /** No string in seen has a longer match within the lookahead. */
  ghost predicate NoneSeen(w: seq<byte>, seen: seq<nat>, scan: nat, len: nat, lookahead: nat) {
    forall m, l: nat :: m in seen && len < l <= MAX_MATCH && l <= lookahead ==> !Same(w, m, scan, l)
  }

  lemma NoneBetterMore(w: seq<byte>, seen: seq<nat>, scan: nat, best: nat, cur: nat, best': nat)
    requires NoneBetter(w, seen, scan, best) && best <= best' && NoLonger(w, cur, scan, best')
    ensures NoneBetter(w, seen + [cur], scan, best')
  {
    hide Same;
  }

  /** The number of links that the search may follow. */
  function ChainLength(c: Config, prevLength: nat): nat {
    if prevLength >= c.good then c.chain / 4 else c.chain
  }

  /** The length that ends the search. */
  function NiceLength(c: Config, lookahead: nat): nat {
    if c.nice > lookahead then lookahead else c.nice
  }

  /** The index where the search ends. */
  function Limit(strstart: nat, maxDist: nat): nat {
    if strstart > maxDist then strstart - maxDist else 0
  }

  /** longest_match: the length of the longest match among the strings of the chain from
      curMatch that it has seen, or prevLength when none is longer, but not beyond the
      input.  It has seen the whole chain, or enough of it, or a match that will do. */
  method FindLongest(s: Lz, curMatch: nat) returns (len: nat, ghost seen: seq<nat>)
    requires s.Valid() && s.base + s.strstart + s.lookahead == |s.hist| && s.strstart + MIN_LOOKAHEAD <= 2 * s.wSize
    requires s.lookahead >= MIN_MATCH
    requires s.top == s.base + s.strstart + 1 && HeadAt(s.k, s.hist, s.base, s.ins, curMatch, s.strstart)
    requires s.strstart - curMatch <= s.MaxDist() && 1 <= s.prevLength <= MAX_MATCH && s.cfg.chain >= 4
    modifies s`matchStart
    ensures len <= s.lookahead && len <= MAX_MATCH
    ensures (len > s.prevLength ==> s.matchStart < s.strstart <= s.matchStart + s.MaxDist() && s.matchStart in seen)
    ensures len > s.prevLength ==> IsMatch(s.hist, s.base + s.matchStart, s.base + s.strstart, len)
    ensures len <= s.prevLength ==> len == s.lookahead || len == s.prevLength
    ensures Walk(s.prev[..], s.wBits, Limit(s.strstart, s.MaxDist()), curMatch, seen)
    ensures Stopped(s.prev[..], s.wBits, Limit(s.strstart, s.MaxDist()), seen, ChainLength(s.cfg, s.prevLength),
              len >= NiceLength(s.cfg, s.lookahead))
    ensures NoneSeen(s.window[..], seen, s.strstart, len, s.lookahead)
    ensures |seen| < ChainLength(s.cfg, s.prevLength) && len < NiceLength(s.cfg, s.lookahead) ==>
      Longest(s.hist, s.base, s.ins, s.strstart, Limit(s.strstart, s.MaxDist()), len)
  {
    hide *;
    HeadFacts(s.k, s.hist, s.base, s.ins, curMatch, s.strstart);
    SearchFacts(s, curMatch);
    var bestLen;
    bestLen, seen := Search(s, curMatch);
    len := if bestLen <= s.lookahead then bestLen else s.lookahead;
    BestFound(s.window[..], seen, s.strstart, s.prevLength, bestLen, s.matchStart, s.MaxDist(), s.hist, s.base,
      s.lookahead, len);
    NiceReached(s.cfg, bestLen, s.lookahead, len);
    if |seen| < ChainLength(s.cfg, s.prevLength) && len < NiceLength(s.cfg, s.lookahead) {
      W.ValidIs(s);
      WholeChain(s, curMatch, seen, Limit(s.strstart, s.MaxDist()), ChainLength(s.cfg, s.prevLength), len);
    }
  }

  lemma HeadFacts(k: Hashing, hist: seq<byte>, base: nat, ins: set<nat>, cur: nat, strstart: nat)
    requires HeadAt(k, hist, base, ins, cur, strstart)
    ensures Candidate(k, hist, base, ins, cur, strstart)
  {
    hide Candidate, HashAt;
  }

  // ---- The whole chain ----

  /** No string that is in the hash tables, after the index limit, has a match of more than len bytes. */
  ghost predicate Longest(hist: seq<byte>, base: nat, ins: set<nat>, strstart: nat, limit: nat, len: nat) {
    forall q :: limit < q < strstart ==> NoLongerAt(hist, base, ins, strstart, q, len)
  }

  ghost predicate NoLongerAt(hist: seq<byte>, base: nat, ins: set<nat>, strstart: nat, q: nat, len: nat) {
    base + q in ins ==> NoMatch(hist, base + q, base + strstart, len)
  }

  ghost predicate NoMatch(hist: seq<byte>, m: nat, a: nat, len: nat) {
    forall l: nat :: len < l <= MAX_MATCH && MIN_MATCH <= l ==> !IsMatch(hist, m, a, l)
  }

  /** A match has the hash of the string. */
  lemma MatchHash(k: Hashing, hist: seq<byte>, m: nat, a: nat, l: nat)
    requires IsMatch(hist, m, a, l) && l >= 3
    ensures HashAt(k, hist, m) == HashAt(k, hist, a)
  {
    hide Hash3;
    var x, y := hist[m..m + l], hist[a..a + l];
    assert x[0] == y[0] && x[1] == y[1] && x[2] == y[2];
  }

  /** The strings of the hash h after limit are those of the walk, from the one at i on. */
  lemma {:induction false} WalkSees(s: Lz, h: nat, seen: seq<nat>, limit: nat, q: nat, i: nat)
    requires s.Valid() && s.top == s.base + s.strstart + 1 && i < |seen| && 0 < seen[i] < s.strstart
    requires s.base + seen[i] in s.ins && HashAt(s.k, s.hist, s.base + seen[i]) == h
    requires forall j: nat :: j + 1 < |seen| ==> Linked(s.prev[..], s.wBits, limit, seen, j)
    requires Low(seen[|seen| - 1], s.wBits) < s.prev.Length && s.prev[Low(seen[|seen| - 1], s.wBits)] <= limit
    requires s.base + q in s.ins && HashAt(s.k, s.hist, s.base + q) == h && limit < q <= seen[i]
    requires limit + s.wSize >= s.strstart
    ensures q in seen
    decreases |seen| - i
  {
    hide HashAt, Low, Windowed, HashingOk, Chained, LinksTo;
    if q < seen[i] {
      Follow(s.k, s.hist, s.base, s.ins, s.head[..], s.prev[..], s.wBits, s.top, seen[i]);
      var next := s.prev[Low(seen[i], s.wBits)];
      NotBetween(s.k, s.hist, s.base, s.ins, next, h, s.base + seen[i], q);
      if i + 1 < |seen| {
        assert Linked(s.prev[..], s.wBits, limit, seen, i);
        LinkIs(s.k, s.hist, s.base, s.ins, next, h, s.base + seen[i]);
        WalkSees(s, h, seen, limit, q, i + 1);
      }
    }
  }

  lemma NotBetween(k: Hashing, hist: seq<byte>, base: nat, ins: set<nat>, next: nat, h: nat, end: nat, q: nat)
    requires LinksTo(k, hist, base, ins, next, h, end) && base + q in ins && base + q < end
    requires HashAt(k, hist, base + q) == h
    ensures q <= next
  {
    hide HashAt;
  }

  lemma LinkIs(k: Hashing, hist: seq<byte>, base: nat, ins: set<nat>, next: nat, h: nat, end: nat)
    requires LinksTo(k, hist, base, ins, next, h, end) && next > 0
    ensures base + next in ins && HashAt(k, hist, base + next) == h && base + next < end
  {
    hide HashAt;
  }

  lemma WholeChain(s: Lz, cur: nat, seen: seq<nat>, limit: nat, chainLength: nat, len: nat)
    requires s.Valid() && s.top == s.base + s.strstart + 1 && HeadAt(s.k, s.hist, s.base, s.ins, cur, s.strstart)
    requires Walk(s.prev[..], s.wBits, limit, cur, seen) && limit == Limit(s.strstart, s.MaxDist())
    requires Stopped(s.prev[..], s.wBits, limit, seen, chainLength, false) && |seen| < chainLength
    requires NoneSeen(s.window[..], seen, s.strstart, len, s.lookahead)
    requires s.base + s.strstart + s.lookahead == |s.hist|
    ensures Longest(s.hist, s.base, s.ins, s.strstart, limit, len)
  {
    hide HashAt, Low, Windowed, HashingOk, Chained, IsMatch, Linked;
    forall q | limit < q < s.strstart ensures NoLongerAt(s.hist, s.base, s.ins, s.strstart, q, len) {
      WholeChainAt(s, cur, seen, limit, chainLength, len, q);
    }
  }

  lemma WholeChainAt(s: Lz, cur: nat, seen: seq<nat>, limit: nat, chainLength: nat, len: nat, q: nat)
    requires s.Valid() && s.top == s.base + s.strstart + 1 && HeadAt(s.k, s.hist, s.base, s.ins, cur, s.strstart)
    requires Walk(s.prev[..], s.wBits, limit, cur, seen) && limit == Limit(s.strstart, s.MaxDist())
    requires Stopped(s.prev[..], s.wBits, limit, seen, chainLength, false) && |seen| < chainLength
    requires NoneSeen(s.window[..], seen, s.strstart, len, s.lookahead) && limit < q < s.strstart
    requires s.base + s.strstart + s.lookahead == |s.hist|
    ensures NoLongerAt(s.hist, s.base, s.ins, s.strstart, q, len)
  {
    hide HashAt, Low, Windowed, HashingOk, Chained, IsMatch, Linked, Same;
    var m, a := s.base + q, s.base + s.strstart;
    forall l: nat | m in s.ins && len < l <= MAX_MATCH && MIN_MATCH <= l ensures !IsMatch(s.hist, m, a, l) {
      if IsMatch(s.hist, m, a, l) {
        MatchHash(s.k, s.hist, s.base + q, s.base + s.strstart, l);
        AfterHead(s.k, s.hist, s.base, s.ins, cur, s.strstart, q);
        WalkSees(s, HashAt(s.k, s.hist, s.base + s.strstart), seen, limit, q, 0);
        MatchInWindow(s.window[..], s.hist, s.base, q, s.strstart, l, s.lookahead);
      }
    }
  }

  lemma AfterHead(k: Hashing, hist: seq<byte>, base: nat, ins: set<nat>, cur: nat, strstart: nat, q: nat)
    requires HeadAt(k, hist, base, ins, cur, strstart) && q < strstart && base + q in ins
    requires HashAt(k, hist, base + q) == HashAt(k, hist, base + strstart)
    ensures q <= cur
  {
    hide HashAt;
  }

  lemma MatchInWindow(window: seq<byte>, hist: seq<byte>, base: nat, q: nat, strstart: nat, l: nat, lookahead: nat)
    requires Windowed(window, hist, base) && IsMatch(hist, base + q, base + strstart, l) && q < strstart
    requires base + strstart + lookahead == |hist|
    ensures l <= lookahead && Same(window, q, strstart, l)
  {
    WindowPart(window, hist, base, q, l);
    WindowPart(window, hist, base, strstart, l);
  }

  lemma NiceReached(c: Config, best: nat, lookahead: nat, len: nat)
    requires len == if best <= lookahead then best else lookahead
    ensures best >= NiceLength(c, lookahead) <==> len >= NiceLength(c, lookahead)
  {
  }

  /** Why the search has stopped: nothing is left of the chain, or it has been followed for
      long enough, or a match is nice. */
  ghost predicate Stopped(prev: seq<nat>, wbits: nat, limit: nat, seen: seq<nat>, chainLength: nat, nice: bool) {
    && 0 < |seen| <= chainLength
    && (|seen| < chainLength && !nice ==>
        Low(seen[|seen| - 1], wbits) < |prev| && prev[Low(seen[|seen| - 1], wbits)] <= limit)
  }

  /** The loop along the chain. */
  method Search(s: Lz, curMatch: nat) returns (bestLen: nat, ghost seen: seq<nat>)
    requires s.Valid() && s.base + s.strstart + s.lookahead == |s.hist| && s.strstart + MIN_LOOKAHEAD <= 2 * s.wSize
    requires s.lookahead >= MIN_MATCH
    requires s.top == s.base + s.strstart + 1 && Candidate(s.k, s.hist, s.base, s.ins, curMatch, s.strstart)
    requires s.strstart - curMatch <= s.MaxDist() && 1 <= s.prevLength <= MAX_MATCH && s.cfg.chain >= 4
    modifies s`matchStart
    ensures BestSoFar(s.window[..], seen, s.strstart, s.prevLength, bestLen, s.matchStart, s.MaxDist())
    ensures Walk(s.prev[..], s.wBits, Limit(s.strstart, s.MaxDist()), curMatch, seen)
    ensures Stopped(s.prev[..], s.wBits, Limit(s.strstart, s.MaxDist()), seen, ChainLength(s.cfg, s.prevLength),
              bestLen >= NiceLength(s.cfg, s.lookahead))
  {
    hide *;
    SearchFacts(s, curMatch);
    SearchLimits(s);
    var chainLength, niceMatch := s.cfg.chain, s.cfg.nice;
    bestLen := s.prevLength;
    var scan, maxDist := s.strstart, s.MaxDist();
    var limit := if scan > maxDist then scan - maxDist else 0;
    if s.prevLength >= s.cfg.good { chainLength := chainLength / 4; }
    if niceMatch > s.lookahead { niceMatch := s.lookahead; }
    var cur: nat := curMatch;
    ghost var k, hist, base, ins, w := s.k, s.hist, s.base, s.ins, s.window[..];
    ghost var head: seq<nat>, prev: seq<nat>, chain0 := s.head[..], s.prev[..], chainLength;
    seen := [];
    WalkStart(w, prev, s.wBits, limit, cur, scan, bestLen, s.matchStart, maxDist);
    while true
      invariant Candidate(k, hist, base, ins, cur, scan) && 0 < cur < scan <= cur + maxDist && chainLength > 0
      invariant BestSoFar(w, seen, scan, s.prevLength, bestLen, s.matchStart, maxDist)
      invariant Walk(prev, s.wBits, limit, curMatch, seen + [cur])
      invariant |seen| + chainLength == chain0
      decreases cur
    {
      CandidateThird(k, w, hist, base, ins, cur, scan);
      BestBound(w, seen, scan, s.prevLength, bestLen, s.matchStart, maxDist);
      var len := Compare(s.window, scan, cur, bestLen);
      BestNext(w, seen, scan, s.prevLength, bestLen, s.matchStart, maxDist, cur, len);
      seen := seen + [cur];
      StoppedAt(prev, s.wBits, limit, seen, chain0);
      if len > bestLen {
        s.matchStart := cur;
        bestLen := len;
        if len >= niceMatch { break; }
      }
      NextCandidate(k, hist, base, ins, head, prev, s.wBits, cur, scan);
      var next := s.prev[Low(cur, s.wBits)];
      if next <= limit { break; }
      WalkOn(prev, s.wBits, limit, curMatch, seen, next);
      cur := next;
      chainLength := chainLength - 1;
      if chainLength == 0 { break; }
    }
  }

  lemma StoppedAt(prev: seq<nat>, wbits: nat, limit: nat, seen: seq<nat>, chainLength: nat)
    requires 0 < |seen| <= chainLength
    ensures Stopped(prev, wbits, limit, seen, chainLength, true)
    ensures |seen| == chainLength ==> Stopped(prev, wbits, limit, seen, chainLength, false)
    ensures Low(seen[|seen| - 1], wbits) < |prev| && prev[Low(seen[|seen| - 1], wbits)] <= limit ==>
      Stopped(prev, wbits, limit, seen, chainLength, false)
  {
  }

  /** The best length so far, and where it was found. */
  ghost predicate BestSoFar(w: seq<byte>, seen: seq<nat>, scan: nat, prevLength: nat, best: nat, at: nat,
                            maxDist: nat) {
    && prevLength <= best <= MAX_MATCH && NoneBetter(w, seen, scan, best)
    && (best > prevLength ==> at < scan <= at + maxDist && Same(w, at, scan, best) && at in seen)
  }

  lemma WalkStart(w: seq<byte>, prev: seq<nat>, wbits: nat, limit: nat, first: nat, scan: nat, best: nat, at: nat,
                  maxDist: nat)
    requires best <= MAX_MATCH
    ensures Walk(prev, wbits, limit, first, [] + [first]) && BestSoFar(w, [], scan, best, best, at, maxDist)
  {
  }

  lemma BestBound(w: seq<byte>, seen: seq<nat>, scan: nat, prevLength: nat, best: nat, at: nat, maxDist: nat)
    requires BestSoFar(w, seen, scan, prevLength, best, at, maxDist)
    ensures prevLength <= best <= MAX_MATCH
  {
    hide Same, NoneBetter;
  }

  lemma BestNext(w: seq<byte>, seen: seq<nat>, scan: nat, prevLength: nat, best: nat, at: nat, maxDist: nat, cur: nat,
                 len: nat)
    requires BestSoFar(w, seen, scan, prevLength, best, at, maxDist) && cur < scan <= cur + maxDist
    requires len <= MAX_MATCH && Same(w, cur, scan, len) && NoLonger(w, cur, scan, if len <= best then best else len)
    ensures var (best', at') := if len > best then (len, cur) else (best, at);
      BestSoFar(w, seen + [cur], scan, prevLength, best', at', maxDist)
  {
    hide Same, NoneBetter, NoLonger;
    NoneBetterMore(w, seen, scan, best, cur, if len <= best then best else len);
  }

  lemma BestFound(w: seq<byte>, seen: seq<nat>, scan: nat, prevLength: nat, best: nat, at: nat, maxDist: nat,
                  hist: seq<byte>, base: nat, lookahead: nat, len: nat)
    requires BestSoFar(w, seen, scan, prevLength, best, at, maxDist) && Windowed(w, hist, base)
    requires len == if best <= lookahead then best else lookahead
    requires base + scan + lookahead == |hist|
    ensures best > prevLength ==> IsMatch(hist, base + at, base + scan, len) && at < scan <= at + maxDist && at in seen
    ensures prevLength <= best <= MAX_MATCH && NoneSeen(w, seen, scan, len, lookahead)
  {
    hide Same, NoneBetter, NoneSeen, Windowed, IsMatch;
    NoneFound(w, seen, scan, best, lookahead);
    if best > prevLength { FoundMatch(w, hist, base, at, scan, best, len); }
  }

  lemma SearchFacts(s: Lz, cur: nat)
    requires s.Valid() && Candidate(s.k, s.hist, s.base, s.ins, cur, s.strstart)
    ensures HashingOk(s.k) && Windowed(s.window[..], s.hist, s.base) && 0 < cur < s.strstart
    ensures Chained(s.k, s.hist, s.base, s.ins, s.head[..], s.prev[..], s.wBits, s.top) && s.wSize == Pow2(s.wBits)
    ensures s.window.Length == 2 * s.wSize && s.MaxDist() == s.wSize - MIN_LOOKAHEAD && 512 <= s.wSize && s.Shape()
    ensures MIN_LOOKAHEAD == 262 && MAX_MATCH == 258 && MIN_MATCH == 3
  {
    hide Windowed, Chained, HashAt, HashingOk;
  }

  lemma SearchLimits(s: Lz)
    requires s.wSize >= 512
    ensures ChainLength(s.cfg, s.prevLength) == if s.prevLength >= s.cfg.good then s.cfg.chain / 4 else s.cfg.chain
    ensures NiceLength(s.cfg, s.lookahead) == if s.cfg.nice > s.lookahead then s.lookahead else s.cfg.nice
    ensures Limit(s.strstart, s.MaxDist()) == if s.strstart > s.MaxDist() then s.strstart - s.MaxDist() else 0
  {
  }

  lemma NoneFound(w: seq<byte>, seen: seq<nat>, scan: nat, best: nat, lookahead: nat)
    requires NoneBetter(w, seen, scan, best)
    ensures NoneSeen(w, seen, scan, if best <= lookahead then best else lookahead, lookahead)
  {
    hide Same;
  }
}
