/** Laws of the decoding machine: what holds in every state of a run, and that
    more input never changes a step. */
module MachineLaws {
  import opened Bits
  import opened Canonical
  import opened DecodeTable
  import opened Inftrees
  import opened FixedCodes
  import opened CodeLengths
  import A32 = Adler32
  import opened MatchCodes
  import opened BitWriter
  import opened Machine

  // ---- Entries ----

  lemma LenEntryKinds(s: nat)
    requires s < 288
    ensures s < 256 ==> EntryOp(LENS, s) == 0 && EntryVal(LENS, s) == s
    ensures s == 256 ==> EntryOp(LENS, s) == 96
    ensures 257 <= s < 286 ==> 16 <= EntryOp(LENS, s) <= 21 && EntryVal(LENS, s) >= 3
    ensures 257 <= s < 286 ==> EntryOp(LENS, s) == 16 + ExtraL(s - 257)
    ensures 257 <= s < 286 ==> EntryVal(LENS, s) + Pow2(ExtraL(s - 257)) <= 259
    ensures 286 <= s ==> EntryOp(LENS, s) / 32 % 2 == 0 && EntryOp(LENS, s) / 64 % 2 == 1
  {
    hide LBASE, LEXT, BaseLength, Pow2;
    if 257 <= s < 286 {
      LengthEntry(s - 257);
      if s < 285 { LengthUpTo(s - 257); } else { SmallPowers(); }
    } else if s >= 286 {
      LastEntries();
    }
  }

  lemma LastEntries()
    ensures LEXT[29] == 72 && LEXT[30] == 78
    ensures DEXT[30] == 64 && DEXT[31] == 64
  {
  }

  lemma DistEntryKinds(s: nat)
    requires s < 32
    ensures s < 30 ==> EntryOp(DISTS, s) == 16 + ExtraD(s) <= 29 && EntryVal(DISTS, s) >= 1
    ensures s < 30 ==> EntryOp(DISTS, s) / 64 % 2 == 0 && EntryOp(DISTS, s) % 16 == ExtraD(s)
    ensures s < 30 ==> EntryVal(DISTS, s) + Pow2(ExtraD(s)) <= 32769
    ensures 30 <= s ==> EntryOp(DISTS, s) / 64 % 2 == 1
  {
    hide DBASE, DEXT, BaseDist, Pow2;
    if s < 30 {
      DistEntry(s);
      DistUpTo(s);
    } else {
      LastEntries();
    }
  }

  // ---- Every state of a run is sound ----

  lemma LenSound(s: State, b: seq<bool>)
    requires Sound(s) && s.mode == LEN && LenStep(s, b).Some?
    ensures Sound(LenStep(s, b).value)
  {
    hide Accepted, EntryOp, EntryVal, SymbolAt, Complete, Grows, Pow2, ExtraL;
    var r := SymbolAt(s.lcode, b, |s.lcode|);
    if r.Some? {
      SymbolBelow(s.lcode, b);
      LenEntryKinds(r.value);
    }
  }

  lemma SymbolBelow(lens: seq<nat>, b: seq<bool>)
    requires SymbolAt(lens, b, |lens|).Some?
    ensures SymbolAt(lens, b, |lens|).value < |lens|
  {
  }

  lemma DistSound(s: State, b: seq<bool>)
    requires Sound(s) && s.mode == DIST && DistStep(s, b).Some?
    ensures Sound(DistStep(s, b).value)
  {
    hide Accepted, EntryOp, EntryVal, SymbolAt, Complete, Grows, ExtraD, Pow2;
    var r := SymbolAt(s.dcode, b, |s.dcode|);
    if r.Some? {
      SymbolBelow(s.dcode, b);
      DistEntryKinds(r.value);
    }
  }

  lemma TypeSound(s: State, b: seq<bool>)
    requires s.mode == TYPE && TypeStep(s, b).Some?
    ensures Sound(TypeStep(s, b).value)
  {
    hide Accepted, FixedLens, FixedDistLens, Grows;
    FixedAccepted();
  }

  lemma TableSound(s: State, b: seq<bool>)
    requires s.mode == TABLE && TableStep(s, b).Some?
    ensures Sound(TableStep(s, b).value)
  {
    hide Accepted, Grows;
    assert Pow2(5) == 32 && Pow2(4) == 16;
    hide Pow2;
  }

  lemma CodeLensSound(s: State, b: seq<bool>)
    requires Sound(s) && s.mode == CODELENS && CodeLensStep(s, b).Some?
    ensures Sound(CodeLensStep(s, b).value)
  {
    hide Accepted, Decode, Val, Apply, Grows, ExtraBl;
  }

  lemma LenLensSound(s: State, b: seq<bool>)
    requires Sound(s) && s.mode == LENLENS && LenLensStep(s, b).Some?
    ensures Sound(LenLensStep(s, b).value)
  {
    hide Accepted, Ordered, Val, Grows;
  }

  lemma StoredSound(s: State, b: seq<bool>)
    requires Sound(s) && s.mode == STORED && StoredStep(s, b).Some?
    ensures Sound(StoredStep(s, b).value)
  {
    hide Accepted, Grows, Padding, Val;
    PaddingZero(s.p);
    if |b| >= 16 { ValSmall(b); }
  }

  lemma PaddingZero(p: nat)
    ensures Padding(p) == 0 ==> p % 8 == 0
  {
  }

  lemma ValSmall(b: seq<bool>)
    requires |b| >= 16
    ensures Val(b, 0, 16) < 65536
  {
    Pow2Values();
    hide Pow2;
  }

  lemma DistExtSound(s: State, b: seq<bool>)
    requires Sound(s) && s.mode == DISTEXT && DistExtStep(s, b).Some?
    ensures Sound(DistExtStep(s, b).value)
  {
    hide Accepted, Grows, Pow2;
    assert Val(b, 0, s.extra) < Pow2(s.extra);
  }

  lemma HeadSound(s: State, b: seq<bool>)
    requires Sound(s) && s.mode == HEAD && HeadStep(s, b).Some?
    ensures Sound(HeadStep(s, b).value)
  {
    hide Accepted, Val, Grows, Pow2;
  }

  lemma CopySound(s: State, b: seq<bool>)
    requires Sound(s) && s.mode == COPY && Step(s, b).Some?
    ensures Sound(Step(s, b).value)
  {
    hide Accepted, Val, Grows, Pow2, HeadStep, CheckStep, LenExtStep, DistExtStep, LenStep, DistStep, TypeStep,
      CodeLensStep, LenLensStep, StoredStep, TableStep, MatchStep;
  }

  lemma MatchSound(s: State, b: seq<bool>)
    requires Sound(s) && s.mode == MATCH && Step(s, b).Some?
    ensures Sound(Step(s, b).value)
  {
    hide Accepted, Val, Grows, Pow2, HeadStep, CheckStep, LenExtStep, DistExtStep, LenStep, DistStep, TypeStep,
      CodeLensStep, LenLensStep, StoredStep, TableStep, CopyStep;
  }

  lemma LitSound(s: State, b: seq<bool>)
    requires Sound(s) && s.mode == LIT && Step(s, b).Some?
    ensures Sound(Step(s, b).value)
  {
    hide Accepted, Val, Grows, Pow2, HeadStep, CheckStep, LenExtStep, DistExtStep, LenStep, DistStep, TypeStep,
      CodeLensStep, LenLensStep, StoredStep, TableStep, CopyStep, MatchStep;
  }

  lemma OtherSound(s: State, b: seq<bool>)
    requires Sound(s) && (s.mode == DICTID || s.mode == LENEXT || s.mode == CHECK) && Step(s, b).Some?
    ensures Sound(Step(s, b).value)
  {
    hide Accepted, Val, Swap, A32.Adler, LenStep, DistStep, TypeStep, CodeLensStep, LenLensStep, StoredStep,
      TableStep, Grows, Pow2, DistExtStep, HeadStep, CopyStep, MatchStep;
  }

  lemma StepSound(s: State, b: seq<bool>)
    requires Sound(s) && Step(s, b).Some?
    ensures Sound(Step(s, b).value)
  {
    hide Sound, HeadStep, CopyStep, LenExtStep, DistExtStep, MatchStep, CheckStep, LenStep, DistStep, TypeStep,
      CodeLensStep, LenLensStep, StoredStep, TableStep, Grows;
    match s.mode
    case LEN => LenSound(s, b);
    case DIST => DistSound(s, b);
    case TYPE => TypeSound(s, b);
    case CODELENS => CodeLensSound(s, b);
    case LENLENS => LenLensSound(s, b);
    case STORED => StoredSound(s, b);
    case TABLE => TableSound(s, b);
    case DISTEXT => DistExtSound(s, b);
    case HEAD => HeadSound(s, b);
    case COPY => CopySound(s, b);
    case MATCH => MatchSound(s, b);
    case LIT => LitSound(s, b);
    case _ => OtherSound(s, b);
  }

  lemma StartSound(wrap: bool)
    ensures Sound(Start(wrap))
  {
  }

  // ---- More input never changes a step ----

  lemma ValMore(b: seq<bool>, c: seq<bool>, i: nat, n: nat)
    requires i + n <= |b|
    ensures Val(b + c, i, n) == Val(b, i, n)
  {
    assert (b + c)[i..i + n] == b[i..i + n];
  }

  lemma AcceptedFits(ty: CodeType, lens: seq<nat>)
    requires Accepted(ty, lens)
    ensures Longest(lens, MAXBITS) > 0 ==> Fits(lens)
    ensures !Complete(lens) ==> forall s :: 0 <= s < |lens| ==> lens[s] <= 1
  {
    forall s | 0 <= s < |lens| ensures lens[s] <= Longest(lens, MAXBITS) {
      if lens[s] > 0 { LongestBounds(lens, s); }
    }
    hide Longest, Left;
  }

  lemma LeadsMore(lens: seq<nat>, s: nat, b: seq<bool>, c: seq<bool>)
    requires Leads(lens, s, b)
    ensures Leads(lens, s, b + c)
  {
  }

  /** The first bit alone decides an incomplete code. */
  lemma OneBit(lens: seq<nat>, s: nat, b: seq<bool>, c: seq<bool>)
    requires Leads(lens, s, b + c) && lens[s] <= 1 && b != []
    ensures Leads(lens, s, b)
  {
    assert Codeword(lens, s) == (b + c)[..1];
    assert (b + c)[..1] == b[..1];
  }

  lemma SymbolMore(ty: CodeType, lens: seq<nat>, b: seq<bool>, c: seq<bool>)
    requires Accepted(ty, lens) && SymbolAt(lens, b, |lens|).Some?
    ensures SymbolAt(lens, b + c, |lens|) == SymbolAt(lens, b, |lens|)
  {
    hide Longest, Left, SymbolAt;
    SymbolIs(lens, b);
    var s := SymbolAt(lens, b, |lens|).value;
    AcceptedFits(ty, lens);
    LongestBounds(lens, s);
    LeadsMore(lens, s, b, c);
    SymbolIs(lens, b + c);
    var t := SymbolAt(lens, b + c, |lens|).value;
    PrefixFree(lens, s, t, b + c);
  }

  lemma SymbolIs(lens: seq<nat>, b: seq<bool>)
    ensures var r := SymbolAt(lens, b, |lens|);
            (r.Some? ==> r.value < |lens| && Leads(lens, r.value, b))
            && (r.None? ==> forall s :: 0 <= s < |lens| ==> !Leads(lens, s, b))
  {
  }

  /** A code word is recognised as soon as it is there, and not mistaken later. */
  lemma DecodeMore(ty: CodeType, lens: seq<nat>, b: seq<bool>, c: seq<bool>)
    requires Accepted(ty, lens) && Decode(ty, lens, b).Some?
    ensures Decode(ty, lens, b + c) == Decode(ty, lens, b)
  {
    hide SymbolAt, Longest, Left, EntryOp, EntryVal;
    if SymbolAt(lens, b, |lens|).Some? {
      SymbolMore(ty, lens, b, c);
    } else {
      AcceptedFits(ty, lens);
      SymbolIs(lens, b);
      SymbolIs(lens, b + c);
      var r := SymbolAt(lens, b + c, |lens|);
      if r.Some? { OneBit(lens, r.value, b, c); }
    }
  }

  lemma LeadsLess(lens: seq<nat>, s: nat, b: seq<bool>, c: seq<bool>)
    requires Leads(lens, s, b + c) && lens[s] <= |b|
    ensures Leads(lens, s, b)
  {
    assert (b + c)[..lens[s]] == b[..lens[s]];
  }

  /** The bits of a symbol are all that is needed to decode it. */
  lemma DecodeLess(ty: CodeType, lens: seq<nat>, b: seq<bool>, c: seq<bool>)
    requires Accepted(ty, lens) && Decode(ty, lens, b + c).Some? && Decode(ty, lens, b + c).value.bits <= |b|
    ensures Decode(ty, lens, b) == Decode(ty, lens, b + c)
  {
    hide SymbolAt, Longest, Left, EntryOp, EntryVal;
    SymbolIs(lens, b);
    SymbolIs(lens, b + c);
    var r := SymbolAt(lens, b + c, |lens|);
    if r.Some? {
      LeadsLess(lens, r.value, b, c);
      SymbolMore(ty, lens, b, c);
    } else {
      var l := SymbolAt(lens, b, |lens|);
      if l.Some? { LeadsMore(lens, l.value, b, c); }
    }
  }

  lemma LenMore(s: State, b: seq<bool>, c: seq<bool>)
    requires Sound(s) && s.mode == LEN && LenStep(s, b).Some?
    ensures LenStep(s, b + c) == LenStep(s, b)
  {
    hide Accepted, Decode, Grows;
    DecodeMore(LENS, s.lcode, b, c);
  }

  lemma DistMore(s: State, b: seq<bool>, c: seq<bool>)
    requires Sound(s) && s.mode == DIST && DistStep(s, b).Some?
    ensures DistStep(s, b + c) == DistStep(s, b)
  {
    hide Accepted, Decode, Grows;
    DecodeMore(DISTS, s.dcode, b, c);
  }

  lemma CodeLensMore(s: State, b: seq<bool>, c: seq<bool>)
    requires Sound(s) && s.mode == CODELENS && CodeLensStep(s, b).Some?
    ensures CodeLensStep(s, b + c) == CodeLensStep(s, b)
  {
    hide Accepted, Decode, Grows, Val, ItemStep, ExtraBl;
    if |s.lens| < s.nlen + s.ndist {
      DecodeMore(CODES, s.lcode, b, c);
      var e := Decode(CODES, s.lcode, b).value;
      ValMore(b, c, e.bits, ExtraBl(e.val));
    }
  }

  lemma HeadMore(s: State, b: seq<bool>, c: seq<bool>)
    requires HeadStep(s, b).Some?
    ensures HeadStep(s, b + c) == HeadStep(s, b)
  {
    hide Val, Grows;
    if s.wrap {
      ValMore(b, c, 0, 8);
      ValMore(b, c, 8, 8);
      ValMore(b, c, 0, 4);
      ValMore(b, c, 4, 4);
    }
  }

  lemma StoredMore(s: State, b: seq<bool>, c: seq<bool>)
    requires StoredStep(s, b).Some?
    ensures StoredStep(s, b + c) == StoredStep(s, b)
  {
    hide Val, Padding, Grows;
    if Padding(s.p) == 0 {
      ValMore(b, c, 0, 16);
      ValMore(b, c, 16, 16);
    }
  }

  lemma TableMore(s: State, b: seq<bool>, c: seq<bool>)
    requires TableStep(s, b).Some?
    ensures TableStep(s, b + c) == TableStep(s, b)
  {
    hide Val, Grows;
    ValMore(b, c, 0, 5);
    ValMore(b, c, 5, 5);
    ValMore(b, c, 10, 4);
  }

  lemma CheckMore(s: State, b: seq<bool>, c: seq<bool>)
    requires CheckStep(s, b).Some?
    ensures CheckStep(s, b + c) == CheckStep(s, b)
  {
    hide Val, Grows, A32.Adler;
    if s.wrap {
      ValMore(b, c, 0, 8);
      ValMore(b, c, 8, 8);
      ValMore(b, c, 16, 8);
      ValMore(b, c, 24, 8);
    }
  }

  lemma OtherMore(s: State, b: seq<bool>, c: seq<bool>)
    requires s.mode == TYPE || s.mode == COPY || s.mode == LENLENS || s.mode == LENEXT || s.mode == DISTEXT
    requires Step(s, b).Some?
    ensures Step(s, b + c) == Step(s, b)
  {
    hide Accepted, Val, Padding, FixedLens, FixedDistLens, Ordered, HeadStep, MatchStep, CheckStep, LenStep, DistStep,
      CodeLensStep, StoredStep, TableStep, Grows;
    if s.mode == COPY && s.length > 0 { ValMore(b, c, 0, 8); }
    if s.mode == LENLENS && |s.lens| < s.ncode { ValMore(b, c, 0, 3); }
    if s.mode == LENEXT || s.mode == DISTEXT { ValMore(b, c, 0, s.extra); }
  }

  /** A step that can be made is not changed by what follows in the input. */
  lemma StepMore(s: State, b: seq<bool>, c: seq<bool>)
    requires Sound(s) && Step(s, b).Some?
    ensures Step(s, b + c) == Step(s, b)
  {
    hide Sound, HeadStep, CopyStep, LenExtStep, DistExtStep, MatchStep, CheckStep, LenStep, DistStep, TypeStep,
      CodeLensStep, LenLensStep, StoredStep, TableStep, Grows;
    match s.mode
    case HEAD => HeadMore(s, b, c);
    case LEN => LenMore(s, b, c);
    case DIST => DistMore(s, b, c);
    case CODELENS => CodeLensMore(s, b, c);
    case STORED => StoredMore(s, b, c);
    case TABLE => TableMore(s, b, c);
    case CHECK => CheckMore(s, b, c);
    case TYPE => OtherMore(s, b, c);
    case COPY => OtherMore(s, b, c);
    case LENLENS => OtherMore(s, b, c);
    case LENEXT => OtherMore(s, b, c);
    case DISTEXT => OtherMore(s, b, c);
    case _ =>
  }

  // ---- Runs ----

  lemma StepInMore(s: State, t: seq<bool>, u: seq<bool>)
    requires Sound(s) && StepIn(s, t).Some?
    ensures StepIn(s, t + u) == StepIn(s, t) && Sound(StepIn(s, t).value) && StepIn(s, t).value.p <= |t|
  {
    hide Sound, Step;
    assert (t + u)[s.p..] == t[s.p..] + u;
    StepMore(s, t[s.p..], u);
    StepSound(s, t[s.p..]);
    StepGrows(s, t[s.p..]);
  }

  lemma StepGrows(s: State, b: seq<bool>)
    requires Step(s, b).Some?
    ensures Grows(s, Step(s, b).value, |b|)
  {
  }

  /** Runs are not changed by more input either. */
  lemma {:induction false} RunMore(s: State, t: seq<bool>, u: seq<bool>, n: nat)
    requires Sound(s) && Steps(s, t, n).Some?
    ensures Steps(s, t + u, n) == Steps(s, t, n) && Sound(Steps(s, t, n).value)
    decreases n
  {
    hide Sound, StepIn;
    if n > 0 {
      StepInMore(s, t, u);
      RunMore(StepIn(s, t).value, t, u, n - 1);
    }
  }

  lemma {:induction false} RunAdd(s: State, t: seq<bool>, m: nat, n: nat)
    requires Steps(s, t, m).Some?
    ensures Steps(s, t, m + n) == Steps(Steps(s, t, m).value, t, n)
    decreases m
  {
    hide StepIn;
    if m > 0 { RunAdd(StepIn(s, t).value, t, m - 1, n); }
  }

  /** Two runs that can go no further have come to the same end. */
  lemma {:induction false} RunEnds(s: State, t: seq<bool>, m: nat, n: nat)
    requires Steps(s, t, m).Some? && Steps(s, t, n).Some?
    requires StepIn(Steps(s, t, m).value, t).None? && StepIn(Steps(s, t, n).value, t).None?
    ensures m == n
    decreases m
  {
    hide StepIn;
    if m > 0 && n > 0 { RunEnds(StepIn(s, t).value, t, m - 1, n - 1); }
  }
}
