/** The matching state of the compressor (deps/libz/deflate.h: window, prev, head
    and the positions in them). */
module LzState {
  import opened Bits
  import opened RollingHash
  import opened HashChains
  import opened Tokens
  import opened Emission
  import A32 = Adler32

  const MIN_LOOKAHEAD: nat := 262

  datatype Strategy = Z_DEFAULT_STRATEGY | Z_FILTERED | Z_HUFFMAN_ONLY | Z_RLE | Z_FIXED

  /** Level and strategy, the parameters of the level, and lit_bufsize. */
  datatype Config = Config(level: nat, strategy: Strategy, good: nat, lazy: nat, nice: nat, chain: nat, litBufsize: nat)

  /** What limits the blocks: the configuration, the size of the window, and whether there
      has been a partial flush. */
  datatype Limits = Limits(cfg: Config, wSize: nat, partial: bool) {
    /** No match reaches further back than this. */
    function Far(): int { if cfg.strategy == Z_RLE then 1 else wSize - MIN_LOOKAHEAD }
  }

  /** The window holds hist from base on. */
  ghost predicate Windowed(window: seq<byte>, hist: seq<byte>, base: nat) {
    base <= |hist| && |hist| - base <= |window| && window[..|hist| - base] == hist[base..]
  }

  /** Any part of the window is a part of the input. */
  lemma WindowPart(window: seq<byte>, hist: seq<byte>, base: nat, i: nat, len: nat)
    requires Windowed(window, hist, base) && base + i + len <= |hist|
    ensures i + len <= |window| && window[i..i + len] == hist[base + i..base + i + len]
  {
    var x, y := window[i..i + len], hist[base + i..base + i + len];
    forall j | 0 <= j < len ensures x[j] == y[j] {
      assert window[..|hist| - base][i + j] == hist[base..][i + j];
    }
  }

  class Lz {
    const k: Hashing
    const wBits: nat
    const wSize: nat
    const window: array<byte>
    const head: array<nat>
    const prev: array<nat>
    const cfg: Config
    // the caller never runs out of output space
    const ample: bool
    var strstart: nat
    var lookahead: nat
    var insH: nat
    var insert: nat
    var matchLength: nat
    var matchStart: nat
    var prevLength: nat
    var prevMatch: nat
    var matchAvailable: bool
    var blockStart: int
    // the caller's input that is not read yet, and the checksum of what is
    var input: seq<byte>
    // the tokens of the current block, and the calls of the block encoder so far
    var tokens: seq<Token>
    var sent: seq<Piece>
    // avail_out is zero
    var outFull: bool
    var adler: A32.uint32
    // all input since the last full flush, where the window starts in it, the
    // positions of the strings in the hash chains, and where these end
    ghost var hist: seq<byte>
    ghost var base: nat
    ghost var ins: set<nat>
    ghost var top: nat
    // all input, across full flushes
    ghost var total: seq<byte>
    // total and sent up to the last full flush, and sent since then
    ghost var past: seq<byte>
    ghost var before: seq<Piece>
    ghost var since: seq<Piece>
    // there has been a partial flush
    ghost var partial: bool

    constructor (k: Hashing, wBits: nat, cfg: Config, ample: bool)
      requires HashingOk(k) && 9 <= wBits <= 15
      ensures this.k == k && this.wBits == wBits && wSize == Pow2(wBits) && this.cfg == cfg && this.ample == ample
      ensures fresh(window) && fresh(head) && fresh(prev) && head != prev
      ensures window.Length == 2 * Pow2(wBits) && head.Length == Pow2(k.bits) && prev.Length == Pow2(wBits)
      ensures strstart == lookahead == insert == 0 && matchLength == prevLength == 2 && !matchAvailable
      ensures tokens == [] && sent == before == since == [] && past == []
      ensures blockStart == 0 && input == [] && adler == 1 && total == [] && !outFull && !partial
      ensures hist == [] && base == 0 && ins == {} && top == 0 && forall i :: 0 <= i < head.Length ==> head[i] == 0
    {
      this.k, this.wBits, this.wSize, this.cfg, this.ample := k, wBits, Pow2(wBits), cfg, ample;
      window := new byte[2 * Pow2(wBits)](i => 0);
      head, prev := new nat[Pow2(k.bits)](i => 0), new nat[Pow2(wBits)](i => 0);
      strstart, lookahead, insH, insert := 0, 0, 0, 0;
      matchLength, matchStart, prevLength, prevMatch, matchAvailable := 2, 0, 2, 0, false;
      blockStart, input, adler, tokens, sent, outFull := 0, [], 1, [], [], false;
      past, before, since, partial := [], [], [], false;
      hist, base, ins, top, total := [], 0, {}, 0, [];
    }

    /** Sizes, and arrays that are not shared. */
    ghost predicate Shape() {
      && HashingOk(k) && 9 <= wBits <= 15 && wSize == Pow2(wBits) && 512 <= wSize <= 32768
      && window.Length == 2 * wSize && prev.Length == wSize && head.Length == Pow2(k.bits) && head != prev
    }

    /** The window and the chains are those of the input. */
    ghost predicate Valid()
      reads this, window, head, prev
    {
      && Shape() && Windowed(window[..], hist, base)
      && Chained(k, hist, base, ins, head[..], prev[..], wBits, top)
    }

    /** MAX_DIST */
    function MaxDist(): nat
      requires wSize >= 512
    {
      wSize - MIN_LOOKAHEAD
    }
  }
}
