/** The bidirectional option on the built-in tables: harmless with the one of ko_3bul390, and
    on the Anmatae layout, the one it was made for, harmless for all pairs but two. */
module Anmatae {
  import opened Wrappers
  import opened Jamo
  import opened HangulChars
  import opened Fold
  import opened Automaton
  import opened TwoBulParser
  import opened Tables
  import opened Bidirectional
  import opened EitherOrder

  /** The compound letters of the standard tables. */
  predicate IsCompound(j: JamoEnum) {
    match j
    case Cho(c) => c == 1 || c == 4 || c == 8 || c == 10 || c == 13
    case Jung(v) => 9 <= v <= 11 || 14 <= v <= 16 || v == 19
    case Jong(f) => f == 2 || f == 3 || f == 5 || f == 6 || 9 <= f <= 15 || f == 18 || f == 20
    case Special(_) => false
  }

  /** Entries lead from letters that are not second-hand to compounds. */
  ghost predicate Layered(t: Table) {
    forall k <- t :: IsCompound(t[k]) && !IsCompound(k.1)
  }

  lemma StdResult(k: (JamoEnum, JamoEnum))
    requires k in STD
    ensures IsCompound(STD[k])
  {
  }

  lemma StdResults()
    ensures forall k <- STD :: IsCompound(STD[k])
  {
    hide IsCompound;
    forall k | k in STD ensures IsCompound(STD[k]) {
      StdResult(k);
    }
  }

  lemma StdSeconds()
    ensures forall k <- STD :: !IsCompound(k.1)
  {
    hide IsCompound;
    forall k | k in STD ensures !IsCompound(k.1) {
      StdSecond(k);
      SimpleSecond(k.1);
    }
  }

  /** The second letters of the standard table. */
  predicate IsStdSecond(j: JamoEnum) {
    j in {Jung(0), Jung(1), Jung(4), Jung(5), Jung(20), Jong(1), Jong(16), Jong(17), Jong(19), Jong(22), Jong(25),
      Jong(26), Jong(27)}
  }

  lemma StdSecond(k: (JamoEnum, JamoEnum))
    requires k in STD
    ensures IsStdSecond(k.1)
  {
  }

  lemma SimpleSecond(j: JamoEnum)
    requires IsStdSecond(j)
    ensures !IsCompound(j)
  {
  }

  lemma StdLayered()
    ensures Layered(STD)
  {
    hide *;
    StdResults();
    StdSeconds();
    LayeredIf(STD);
  }

  lemma LayeredIf(t: Table)
    requires forall k <- t :: IsCompound(t[k])
    requires forall k <- t :: !IsCompound(k.1)
    ensures Layered(t)
  {
  }

  lemma DoubledLayered()
    ensures Layered(DOUBLED)
  {
  }

  lemma LayeredUnion(a: Table, b: Table)
    requires Layered(a) && Layered(b)
    ensures Layered(a + b)
  {
  }

  lemma Three390IsSafe()
    ensures ResultsStay(THREE390)
  {
    hide *;
    StdLayered();
    DoubledLayered();
    LayeredUnion(DOUBLED, STD);
    LayeredStays(DOUBLED + STD);
    assert THREE390 == DOUBLED + STD by { Three390Parts(); }
  }

  lemma Three390Parts()
    ensures THREE390 == DOUBLED + STD
  {
  }

  /** Results that are no second letters never combine in reverse. */
  lemma LayeredStays(t: Table)
    requires Layered(t)
    ensures ResultsStay(t)
  {
    hide IsCompound;
    forall a, b | SameKind(a, b) && Combine(t, a, b).Some? ensures Unturned(t, Combine(t, a, b).value) {
      assert (a, b) in t && IsCompound(t[(a, b)]);
    }
  }

  /** The entries behind the failure: a+i gives ae, o+ae gives wae, but a+wae gives nothing
      and ae+o is no entry; and the same with eo, i and u. */
  predicate Entries(t: Table) {
    EntriesOfA(t) && EntriesOfO(t) && EntriesOfEo(t)
  }

  predicate EntriesOfA(t: Table) {
    && Combine(t, Jung(0), Jung(20)) == Some(Jung(1))
    && Combine(t, Jung(0), Jung(10)) == None
    && (Jung(1), Jung(8)) !in t
    && (Jung(20), Jung(0)) !in t
  }

  predicate EntriesOfO(t: Table) {
    && Combine(t, Jung(8), Jung(1)) == Some(Jung(10))
    && Combine(t, Jung(8), Jung(0)) == Some(Jung(9))
    && Combine(t, Jung(9), Jung(20)) == Some(Jung(10))
  }

  predicate EntriesOfEo(t: Table) {
    && Combine(t, Jung(13), Jung(5)) == Some(Jung(15))
    && (Jung(5), Jung(13)) !in t
    && Combine(t, Jung(4), Jung(20)) == Some(Jung(5))
  }

  lemma JungEntriesOfA()
    ensures EntriesOfA(ANMATAE_JUNG)
  {
  }

  lemma JungEntriesOfO()
    ensures EntriesOfO(ANMATAE_JUNG)
  {
  }

  lemma JungEntriesOfEo()
    ensures EntriesOfEo(ANMATAE_JUNG)
  {
  }

  lemma JungEntries()
    ensures Entries(ANMATAE_JUNG)
  {
    hide EntriesOfA, EntriesOfO, EntriesOfEo;
    JungEntriesOfA();
    JungEntriesOfO();
    JungEntriesOfEo();
  }

  lemma ChoEntries()
    ensures forall k <- ANMATAE_CHO :: k.0.Cho?
  {
  }

  lemma JongEntries()
    ensures forall k <- ANMATAE_JONG :: k.0.Jong?
  {
  }

  lemma EntriesInUnion(a: Table, b: Table, c: Table)
    requires Entries(b) && (forall k <- a :: k.0.Cho?) && (forall k <- c :: k.0.Jong?)
    ensures Entries(a + b + c)
  {
  }

  lemma AnmataeParts()
    ensures ANMATAE == ANMATAE_CHO + ANMATAE_JUNG + ANMATAE_JONG
  {
  }

  lemma AnmataeEntries()
    ensures Entries(ANMATAE)
  {
    hide *;
    JungEntries();
    ChoEntries();
    JongEntries();
    AnmataeParts();
    EntriesInUnion(ANMATAE_CHO, ANMATAE_JUNG, ANMATAE_JONG);
  }

  // ---------- the whole table ----------

  /** The second letters of the table. */
  predicate IsSecond(j: JamoEnum) {
    match j
    case Cho(c) => c == 0 || c == 2 || c == 3 || c == 11 || c == 12 || c == 18
    case Jung(v) => v == 0 || v == 1 || v == 4 || v == 5 || v == 20
    case Jong(f) => f == 4 || f == 7 || f == 8 || f == 16 || f == 17 || f == 19 || f == 21 || f == 22 || 25 <= f <= 27
    case Special(_) => false
  }

  /** What holds of every entry `k` with result `r`: four results are second letters, two of
      them vowels and two of them finals, which lead on to finals that combine with nothing. */
  predicate EntryHolds(k: (JamoEnum, JamoEnum), r: JamoEnum) {
    && SameKind(k.0, k.1) && SameKind(r, k.0) && r != k.1 && IsSecond(k.1)
    && (IsSecond(r) ==> r == Jung(1) || r == Jung(5) || r == Jong(25) || r == Jong(26))
    && (r == Jung(1) ==> k == (Jung(0), Jung(20))) && (r == Jung(5) ==> k == (Jung(4), Jung(20)))
    && (k.1 == Jong(25) ==> r == Jong(13)) && (k.1 == Jong(26) ==> r == Jong(14))
    && k.0 != Jong(13) && k.0 != Jong(14)
  }

  ghost predicate AllHold(t: Table) {
    forall k <- t :: EntryHolds(k, t[k])
  }

  lemma ChoEntryHolds(k: (JamoEnum, JamoEnum))
    requires k in ANMATAE_CHO
    ensures EntryHolds(k, ANMATAE_CHO[k])
  {
  }

  lemma ChoHold()
    ensures AllHold(ANMATAE_CHO)
  {
    hide EntryHolds;
    forall k | k in ANMATAE_CHO ensures EntryHolds(k, ANMATAE_CHO[k]) {
      ChoEntryHolds(k);
    }
  }

  lemma JungEntryHolds(k: (JamoEnum, JamoEnum))
    requires k in ANMATAE_JUNG
    ensures EntryHolds(k, ANMATAE_JUNG[k])
  {
  }

  lemma JungHold()
    ensures AllHold(ANMATAE_JUNG)
  {
    hide EntryHolds;
    forall k | k in ANMATAE_JUNG ensures EntryHolds(k, ANMATAE_JUNG[k]) {
      JungEntryHolds(k);
    }
  }

  lemma JongEntryHolds(k: (JamoEnum, JamoEnum))
    requires k in ANMATAE_JONG
    ensures EntryHolds(k, ANMATAE_JONG[k])
  {
  }

  lemma JongHold()
    ensures AllHold(ANMATAE_JONG)
  {
    hide EntryHolds;
    forall k | k in ANMATAE_JONG ensures EntryHolds(k, ANMATAE_JONG[k]) {
      JongEntryHolds(k);
    }
  }

  lemma HoldUnion(a: Table, b: Table)
    requires AllHold(a) && AllHold(b)
    ensures AllHold(a + b)
  {
    hide EntryHolds;
  }

  lemma AnmataeHolds()
    ensures AllHold(ANMATAE)
  {
    hide *;
    ChoHold();
    JungHold();
    JongHold();
    AnmataeParts();
    HoldUnion(ANMATAE_CHO, ANMATAE_JUNG);
    HoldUnion(ANMATAE_CHO + ANMATAE_JUNG, ANMATAE_JONG);
  }

  lemma AnmataeNewLetter()
    ensures NewLetter(ANMATAE)
  {
    hide *;
    AnmataeHolds();
    HoldNewLetter(ANMATAE);
  }

  lemma HoldNewLetter(t: Table)
    requires AllHold(t)
    ensures NewLetter(t)
  {
    forall a, b ensures Combine(t, a, b) != Some(b) {
      if Combine(t, a, b).Some? {
        assert EntryHolds((a, b), t[(a, b)]);
      }
    }
  }

  /** What combines in reverse must be a second letter. */
  lemma TurnedIsSecond(t: Table, e: JamoEnum, x: JamoEnum)
    requires AllHold(t) && Turned(t, e, x).Some?
    ensures IsSecond(e) && EntryHolds((x, e), Turned(t, e, x).value)
  {
    assert EntryHolds((x, e), t[(x, e)]);
  }

  lemma HeldEntry(t: Table, a: JamoEnum, b: JamoEnum)
    requires AllHold(t) && Combine(t, a, b).Some?
    ensures EntryHolds((a, b), Combine(t, a, b).value)
  {
    assert EntryHolds((a, b), t[(a, b)]);
  }

  /** The two finals that are second letters lead on, in one step, to a final that is inert. */
  lemma {:induction false} FinalChains(t: Table, c: JamoEnum, xs: seq<JamoEnum>)
    requires AllHold(t) && xs != [] && TurnAll(t, c, xs).Some? && (c == Jong(25) || c == Jong(26))
    ensures var r := TurnAll(t, c, xs).value; r == Jong(13) || r == Jong(14)
  {
    hide EntryHolds, Combine, Turned;
    var e := TurnAll(t, c, Init(xs)).value;
    TurnedIsSecond(t, e, Last(xs));
    if |xs| > 1 {
      FinalChains(t, c, Init(xs));
    } else {
      assert e == c;
      ChainResult(c, Last(xs), TurnAll(t, c, xs).value);
    }
  }

  lemma ChainResult(e: JamoEnum, x: JamoEnum, r: JamoEnum)
    requires EntryHolds((x, e), r) && (e == Jong(25) || e == Jong(26))
    ensures r == Jong(13) || r == Jong(14)
  {
  }

  lemma Inert(t: Table, a: JamoEnum, r: JamoEnum)
    requires AllHold(t) && (r == Jong(13) || r == Jong(14))
    ensures !Exposes(t, a, r)
  {
    if Combine(t, a, r).Some? {
      HeldEntry(t, a, r);
    }
    forall y ensures Combine(t, r, y).None? {
      if Combine(t, r, y).Some? {
        HeldEntry(t, r, y);
      }
    }
  }

  /** Every pair but two may be typed in either order. */
  lemma BlindUnlessTwo(t: Table, a: JamoEnum, b: JamoEnum)
    requires AllHold(t) && OneWay(t, a, b)
    requires (a, b) != (Jung(0), Jung(20)) && (a, b) != (Jung(4), Jung(20))
    ensures Blind(t, a, b)
  {
    hide EntryHolds, Combine, Turned, Exposes;
    var c := Combine(t, a, b).value;
    HeldEntry(t, a, b);
    TwoVowels(a, b, c);
    if a.Jong? {
      forall xs | xs != [] && TurnAll(t, c, xs).Some? ensures !Exposes(t, a, TurnAll(t, c, xs).value) {
        if IsSecond(c) {
          FinalChains(t, c, xs);
        } else {
          NotSecondStays(t, c);
          UnturnedChain(t, c, xs);
        }
        Inert(t, a, TurnAll(t, c, xs).value);
      }
    } else {
      NotSecondStays(t, c);
    }
  }

  lemma NotSecondStays(t: Table, c: JamoEnum)
    requires AllHold(t) && !IsSecond(c)
    ensures Unturned(t, c)
  {
    hide Turned, EntryHolds, IsSecond;
    forall x ensures Turned(t, c, x).None? {
      if Turned(t, c, x).Some? {
        TurnedIsSecond(t, c, x);
      }
    }
  }

  lemma TwoVowels(a: JamoEnum, b: JamoEnum, c: JamoEnum)
    requires EntryHolds((a, b), c) && (a, b) != (Jung(0), Jung(20)) && (a, b) != (Jung(4), Jung(20))
    ensures IsSecond(c) ==> a.Jong? && (c == Jong(25) || c == Jong(26))
  {
  }

  /** On the Anmatae layout, with the option on, exactly two pairs show their typing order. */
  lemma AnmataeExactly(a: JamoEnum, b: JamoEnum)
    requires OneWay(ANMATAE, a, b)
    ensures OrderBlind(ANMATAE, a, b) <==> (a, b) != (Jung(0), Jung(20)) && (a, b) != (Jung(4), Jung(20))
  {
    hide *;
    AnmataeHolds();
    AnmataeNewLetter();
    AnmataeEntries();
    OrderBlindExactly(ANMATAE, a, b);
    if (a, b) != (Jung(0), Jung(20)) && (a, b) != (Jung(4), Jung(20)) {
      BlindUnlessTwo(ANMATAE, a, b);
    } else {
      NotBlindHere(ANMATAE, a, b);
    }
  }

  /** The two that may not: a and i, eo and i. */
  lemma NotBlindHere(t: Table, a: JamoEnum, b: JamoEnum)
    requires Entries(t) && OneWay(t, a, b) && ((a, b) == (Jung(0), Jung(20)) || (a, b) == (Jung(4), Jung(20)))
    requires AllHold(t)
    ensures !Blind(t, a, b)
  {
    assert Turned(t, Jung(1), Jung(8)).Some?;
    assert Turned(t, Jung(5), Jung(13)).Some?;
  }

  /** The cache cannot be trusted in every run there: ae and e are results that combine in
      reverse. */
  lemma AnmataeReusesResults()
    ensures !ResultsStay(ANMATAE)
  {
    hide *;
    AnmataeEntries();
    ResultReused(ANMATAE);
  }

  lemma ResultReused(t: Table)
    requires Entries(t)
    ensures !ResultsStay(t)
  {
    assert Turned(t, Jung(1), Jung(8)).Some?;
  }

  // ---------- the failing pair, key by key ----------

  const G := Key(Cho(0))
  const A := Key(Jung(0))
  const I := Key(Jung(20))
  const O := Key(Jung(8))
  const WAE := Key(Jung(10))
  const FINAL_G := Key(Jong(1))
  const AE := Key(Jung(1))

  /** What g, a and wae fold to region by region: the vowels are stuck. */
  lemma StuckRegions(t: Table)
    requires Entries(t)
    ensures var q := [G, A, WAE];
            && FoldRegion(t, Initials, q) == Combined(Cho(0)) && FoldRegion(t, Medials, q) == Stuck
              && FoldRegion(t, Finals, q) == Vacant
            && FoldRegion(t, Initials, q + [FINAL_G]) == Combined(Cho(0))
            && FoldRegion(t, Medials, q + [FINAL_G]) == Stuck
              && FoldRegion(t, Finals, q + [FINAL_G]) == Combined(Jong(1))
  {
    hide Folded, FoldRegion, Combine;
    PairFolds(t, 0, 0);
    FoldedSingle(t, G);
    HeadSnoc([G], A);
    assert [G] + [A] == [G, A] && [G, A] + [WAE] == [G, A, WAE];
    RegionMeans(t, [G, A], Initials);
    RegionMeans(t, [G, A], Medials);
    RegionMeans(t, [G, A], Finals);
    RegionSnoc(t, Initials, [G, A], WAE);
    RegionSnoc(t, Medials, [G, A], WAE);
    RegionSnoc(t, Finals, [G, A], WAE);
    RegionSnoc(t, Initials, [G, A, WAE], FINAL_G);
    RegionSnoc(t, Medials, [G, A, WAE], FINAL_G);
    RegionSnoc(t, Finals, [G, A, WAE], FINAL_G);
  }

  lemma StuckRecompose(t: Table)
    requires Entries(t)
    ensures var q := [G, A, WAE]; var h := HangulChar(Some(0), Some(10), None);
            && !Coherent(t, State(q, h))
            && Recompose(t, State(q + [FINAL_G], h)) == Attempt(false, h.(jong := Some(1)))
            && Recompose(t, State(q, h.(jong := Some(1)))) == Attempt(false, h)
  {
    hide FoldRegion, Combine;
    StuckRegions(t);
  }

  lemma GaiFolds(t: Table)
    requires Entries(t)
    ensures Folded(t, [G, A, I]) == Some(HangulChar(Some(0), Some(1), None))
  {
    hide Folded, Combine;
    PairFolds(t, 0, 0);
    FoldedSingle(t, G);
    HeadSnoc([G], A);
    FoldedSnoc(t, [G, A], I);
    assert [G] + [A] == [G, A] && [G, A] + [I] == [G, A, I];
  }

  /** Typing g, a, i, o with the option on shows gwae, but the queue behind it no longer
      folds: the next final starts a character of its own. */
  lemma SplitsItsOwnVowel(t: Table, st: State)
    requires Entries(t) && Coherent(t, st) && st.queue == [G, A, I]
    ensures var x := Add3(t, true, st, O);
            var y := Add3(t, true, x.st, FINAL_G);
            && x.out == None && x.st.cur == HangulChar(Some(0), Some(10), None) && !Coherent(t, x.st)
            && y.out == Some(SyllableCode(0, 10, 0) as char) && y.st.queue == [FINAL_G]
  {
    hide Recompose, Folded, Combine, Coherent;
    GaiFolds(t);
    CoherentMeans(t, st);
    StuckRecompose(t);
    var q := [G, A, WAE];
    assert Reversed(t, st, O.jamo) == Some(Jung(10));
    assert Init(st.queue) + [WAE] == q;
    var x := State(q, HangulChar(Some(0), Some(10), None));
    assert Add3(t, true, st, O) == Outcome(x, None);
    assert (q + [FINAL_G])[2] == WAE && (q + [FINAL_G])[3] == FINAL_G;
    assert Reversed(t, x, FINAL_G.jamo).None?;
  }

  lemma CoherentMeans(t: Table, st: State)
    requires Coherent(t, st)
    ensures Folded(t, st.queue) == Some(st.cur)
  {
  }

  /** In the other order the same letters take the final. */
  lemma OtherOrderTurns(t: Table, i: State)
    requires Entries(t) && Folded(t, [G, I]) == Some(i.cur) && i.queue == [G, I]
             && i.cur == HangulChar(Some(0), Some(20), None)
    ensures var a := Add3(t, true, i, A); var o := Add3(t, true, a.st, O);
            a.out == None && o == Outcome(State([G, WAE], HangulChar(Some(0), Some(10), None)), None)
  {
    hide Folded, AddWith, Combine;
    assert Reversed(t, i, A.jamo) == Some(Jung(1));
    var a := State([G, AE], HangulChar(Some(0), Some(1), None));
    assert Init(i.queue) + [AE] == [G, AE];
    assert Add3(t, true, i, A) == Outcome(a, None);
    assert Reversed(t, a, O.jamo) == Some(Jung(10));
    assert Init(a.queue) + [WAE] == [G, WAE];
  }

  lemma WaeTakesFinal(t: Table, o: State)
    requires o == State([G, WAE], HangulChar(Some(0), Some(10), None)) && Coherent(t, o)
    ensures var f := Add3(t, true, o, FINAL_G);
            f.out == None && f.st.cur == HangulChar(Some(0), Some(10), Some(1))
  {
    hide Folded, AddWith, Combine, Coherent;
    CoherentMeans(t, o);
    assert Reversed(t, o, FINAL_G.jamo).None?;
    AddWithCoherent(ThreeBul, t, o, FINAL_G);
    CoherentMeans(t, AddWith(ThreeBul, t, o, FINAL_G).st);
    FoldedSnoc(t, [G, WAE], FINAL_G);
  }

  lemma OtherOrderTakesFinal(t: Table, st: State)
    requires Entries(t) && Coherent(t, st) && st.queue == [G]
    ensures var i := Add3(t, true, st, I); var a := Add3(t, true, i.st, A);
            var o := Add3(t, true, a.st, O); var f := Add3(t, true, o.st, FINAL_G);
            && i.out == None && a.out == None && o.out == None && f.out == None
            && f.st.cur == HangulChar(Some(0), Some(10), Some(1))
  {
    hide Folded, AddWith, Combine, Coherent, Entries;
    PairFolds(t, 0, 20);
    PairFolds(t, 0, 10);
    FoldedSingle(t, G);
    CoherentMeans(t, st);
    assert [G] + [I] == [G, I];
    AddWithCoherent(ThreeBul, t, st, I);
    var i := Add3(t, true, st, I).st;
    CoherentMeans(t, i);
    OtherOrderTurns(t, i);
    var o := State([G, WAE], HangulChar(Some(0), Some(10), None));
    MeansCoherent(t, o);
    WaeTakesFinal(t, o);
  }

  lemma MeansCoherent(t: Table, st: State)
    requires Folded(t, st.queue) == Some(st.cur)
    ensures Coherent(t, st)
  {
  }

  /** g, a and i typed from a fresh composer. */
  lemma TypedGai(t: Table)
    requires Entries(t)
    ensures var g := Add3(t, true, FRESH, G); var a := Add3(t, true, g.st, A); var i := Add3(t, true, a.st, I);
            && g.out == None && a.out == None && i.out == None
            && Coherent(t, g.st) && g.st.queue == [G] && Coherent(t, i.st) && i.st.queue == [G, A, I]
  {
    hide Folded, AddWith, Combine, Coherent;
    FoldedEmpty(t);
    AddToEmptyQueue(ThreeBul, t, EMPTY, G);
    var g := Add3(t, true, FRESH, G).st;
    assert [G] + [A] == [G, A] && [G, A] + [I] == [G, A, I];
    CoherentMeans(t, g);
    PairFolds(t, 0, 0);
    AddWithCoherent(ThreeBul, t, g, A);
    var a := Add3(t, true, g, A).st;
    CoherentMeans(t, a);
    InReach(t);
    assert Reversed(t, a, I.jamo).None?;
    GaiFolds(t);
    AddWithCoherent(ThreeBul, t, a, I);
  }

  lemma InReach(t: Table)
    requires Entries(t)
    ensures (Jung(0), Jung(20)) in t
  {
  }

  /** From a fresh composer of the Anmatae layout: g, a, i, o and a final g give a syllable
      without the final, which starts anew; g, i, a, o and the same final give the syllable
      with it. */
  lemma AnmataeOrderMatters()
    ensures var x := Feed(Three(ANMATAE, true), FRESH, [G, A, I, O, FINAL_G]);
            var y := Feed(Three(ANMATAE, true), FRESH, [G, I, A, O, FINAL_G]);
            && x.text == [SyllableCode(0, 10, 0) as char] && x.st.queue == [FINAL_G]
            && y.text == "" && y.st.cur == HangulChar(Some(0), Some(10), Some(1))
  {
    hide Add3, Coherent, Entries, Feed, SyllableCode;
    AnmataeEntries();
    var t := ANMATAE;
    TypedGai(t);
    var g := Add3(t, true, FRESH, G).st;
    SplitsItsOwnVowel(t, Add3(t, true, Add3(t, true, g, A).st, I).st);
    OtherOrderTakesFinal(t, g);
    FeedFive(t, [G, A, I, O, FINAL_G]);
    FeedFive(t, [G, I, A, O, FINAL_G]);
  }

  lemma FeedFive(t: Table, w: seq<Stroke>)
    requires |w| == 5
    ensures var cfg := Three(t, true);
            var a := Add3(t, true, FRESH, w[0]); var b := Add3(t, true, a.st, w[1]); var c := Add3(t, true, b.st, w[2]);
            var d := Add3(t, true, c.st, w[3]); var e := Add3(t, true, d.st, w[4]);
            Feed(cfg, FRESH, w) == Run(e.st, Emit(a.out)
              + (Emit(b.out) + (Emit(c.out) + (Emit(d.out) + (Emit(e.out) + "")))))
  {
    hide Add3;
    var cfg := Three(t, true);
    var a := Add3(t, true, FRESH, w[0]).st;
    var b := Add3(t, true, a, w[1]).st;
    var c := Add3(t, true, b, w[2]).st;
    var d := Add3(t, true, c, w[3]).st;
    var e := Add3(t, true, d, w[4]).st;
    assert w[1..][1..] == w[2..] && w[2..][1..] == w[3..] && w[3..][1..] == w[4..] && w[4..][1..] == [];
    assert Feed(cfg, e, []) == Run(e, "");
    assert Feed(cfg, d, w[4..]).st == e;
    assert Feed(cfg, c, w[3..]).st == e;
    assert Feed(cfg, b, w[2..]).st == e;
  }
}
