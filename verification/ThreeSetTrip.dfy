/** Korean text to keystrokes and back on the three-set layout ko_3bul390. */
module ThreeSetTrip {
  import opened Wrappers
  import opened Jamo
  import opened HangulChars
  import opened Fold
  import opened Automaton
  import opened TwoBulParser
  import opened ThreeBulParser
  import opened Tables
  import opened TypeFix
  import opened RoundTrip

  /** Every initial, vowel and final that the converter does not take apart has a key. */
  predicate FullThreeSet(km: Keyboard) {
    && (forall c: int | 0 <= c <= 18 :: InitialParts(c) == [c] ==> Cho(c) in km.Values)
    && (forall v: int | 0 <= v <= 20 :: VowelParts(v) == [v] ==> Jung(v) in km.Values)
    && (forall f: int | 1 <= f <= 27 :: FinalParts(f) == [f] ==> Jong(f) in km.Values)
  }

  /** The converter of the keyboard: one key for every letter, and one for every character
      that a key types instead of a letter. */
  predicate ConvertsBack(cv: Converter, km: Keyboard) {
    && cv.threeSet && Reverses(cv.rev, km)
    && (forall c <- cv.other :: cv.other[c] in km && km[cv.other[c]] == Special(c))
    && (forall ch <- km :: km[ch].Special? ==> km[ch].ch in cv.other)
  }

  // ---------- the letters of one syllable are one block ----------

  function Strokes(js: seq<JamoEnum>): (ss: seq<Stroke>)
    ensures |ss| == |js| && forall i | 0 <= i < |js| :: ss[i] == Stroke(js[i], DEFAULT_META)
  {
    seq(|js|, i requires 0 <= i < |js| => Stroke(js[i], DEFAULT_META))
  }

  /** One letter, or two that combine to it. */
  predicate Makes(t: Table, ps: seq<JamoEnum>, r: JamoEnum) {
    ps == [r] || (|ps| == 2 && SameKind(ps[0], r) && SameKind(ps[1], r) && Combine(t, ps[0], ps[1]) == Some(r))
  }

  /** The parts of a letter fill its region. */
  lemma PartsFill(t: Table, q: seq<Stroke>, h: HangulChar, ps: seq<JamoEnum>, r: JamoEnum)
    requires Folded(t, q) == Some(h) && Head(q) && !r.Special? && InRegion(h, r).None? && Makes(t, ps, r)
    ensures Folded(t, q + Strokes(ps)) == Some(SetRegion(h, r)) && Head(q + Strokes(ps))
  {
    hide Folded, Head, Combine, Phonemes;
    var a := Stroke(ps[0], DEFAULT_META);
    FoldedSnoc(t, q, a);
    if |ps| == 1 {
      assert Strokes(ps) == [a];
    } else {
      var b := Stroke(ps[1], DEFAULT_META);
      FoldedSnoc(t, q + [a], b);
      assert q + Strokes(ps) == q + [a] + [b];
    }
  }

  lemma InitialPair(c: Initial)
    ensures var ps := InitialParts(c);
            || ps == [c]
            || (|ps| == 2 && Combine(DOUBLED, Cho(ps[0]), Cho(ps[1])) == Some(Cho(c)))
  {
  }

  lemma DoubledKept(a: Initial, b: Initial)
    ensures Combine(DOUBLED, Cho(a), Cho(b)).Some?
            ==> Combine(THREE390, Cho(a), Cho(b)) == Combine(DOUBLED, Cho(a), Cho(b))
  {
    assert (Cho(a), Cho(b)) !in STD;
  }

  lemma InitialMakes(c: Initial)
    requires c >= 0
    ensures Makes(THREE390, InitialKeys(InitialParts(c)), Cho(c))
  {
    hide Combine;
    var ps := InitialParts(c);
    assert InitialKeys(ps)[0] == Cho(ps[0]);
    if |ps| == 1 {
      assert InitialKeys(ps) == [Cho(c)];
    } else {
      InitialPair(c);
      DoubledKept(ps[0], ps[1]);
    }
  }

  /** What the standard table combines, this table combines the same way. */
  lemma BaseKept(a: JamoEnum, b: JamoEnum)
    ensures Combine(STD, a, b).Some? ==> Combine(THREE390, a, b) == Combine(STD, a, b)
  {
  }

  lemma VowelMakes(v: Medial)
    requires v >= 0
    ensures Makes(THREE390, VowelKeys(VowelParts(v)), Jung(v))
  {
    hide Combine;
    var ps := VowelParts(v);
    assert VowelKeys(ps)[0] == Jung(ps[0]);
    if |ps| == 1 {
      assert VowelKeys(ps) == [Jung(v)];
    } else {
      VowelPair(v);
      BaseKept(Jung(ps[0]), Jung(ps[1]));
    }
  }

  lemma VowelPair(v: Medial)
    ensures var ps := VowelParts(v); ps == [v] || (|ps| == 2 && Combine(STD, Jung(ps[0]), Jung(ps[1])) == Some(Jung(v)))
  {
  }

  lemma FinalMakes(f: Final)
    requires f > 0
    ensures Makes(THREE390, FinalJamos(FinalParts(f)), Jong(f))
  {
    hide Combine;
    var ps := FinalParts(f);
    FinalPartsJoin(f);
    if |ps| == 1 {
      assert FinalJamos(ps) == [Jong(f)];
    } else {
      BaseKept(Jong(ps[0]), Jong(ps[1]));
    }
  }

  /** The three parts of a syllable's letters. */
  datatype Parts = Parts(initials: seq<JamoEnum>, vowels: seq<JamoEnum>, finals: seq<JamoEnum>)

  function PartsOf(ch: char): Parts
    requires IsSyllable(ch)
  {
    var h := FromSyllable(ch).value;
    Parts(InitialKeys(InitialParts(h.cho.value)), VowelKeys(VowelParts(h.jung.value)),
          if h.jong.value == 0 then [] else FinalJamos(FinalParts(h.jong.value)))
  }

  predicate AllOf(k: Kind, js: seq<JamoEnum>) {
    forall i | 0 <= i < |js| :: IsKind(k, js[i]) && Proper(js[i])
  }

  lemma PartsFacts(ch: char)
    requires IsSyllable(ch)
    ensures var p := PartsOf(ch);
            && AllOf(Initials, p.initials) && AllOf(Medials, p.vowels) && AllOf(Finals, p.finals)
            && p.initials != [] && p.vowels != []
            && SyllableLetters(true, ch) == p.initials + p.vowels + p.finals
  {
  }

  /** What the syllable is when it has been typed: no final rather than the empty one. */
  function Typed(ch: char): HangulChar
    requires IsSyllable(ch)
  {
    var h := FromSyllable(ch).value;
    if h.jong.value == 0 then h.(jong := None) else h
  }

  lemma TypedRenders(ch: char)
    requires IsSyllable(ch)
    ensures Render(Typed(ch)) == Some(ch)
  {
    SyllableRoundTrip(ch);
  }

  lemma PartsFold(ch: char)
    requires IsSyllable(ch)
    ensures var p := PartsOf(ch);
            Folded(THREE390, Strokes(p.initials) + Strokes(p.vowels) + Strokes(p.finals)) == Some(Typed(ch))
  {
    hide Folded, Head, Makes, InitialParts, VowelParts, FinalParts;
    var h, p := FromSyllable(ch).value, PartsOf(ch);
    FoldedEmpty(THREE390);
    EmptyHead();
    InitialMakes(h.cho.value);
    VowelMakes(h.jung.value);
    var q1 := Strokes(p.initials);
    assert [] + q1 == q1;
    PartsFill(THREE390, [], EMPTY, p.initials, Cho(h.cho.value));
    var h1 := SetRegion(EMPTY, Cho(h.cho.value));
    PartsFill(THREE390, q1, h1, p.vowels, Jung(h.jung.value));
    var q2, h2 := q1 + Strokes(p.vowels), SetRegion(h1, Jung(h.jung.value));
    if h.jong.value == 0 {
      assert q2 + Strokes(p.finals) == q2;
    } else {
      FinalMakes(h.jong.value);
      PartsFill(THREE390, q2, h2, p.finals, Jong(h.jong.value));
    }
  }

  lemma StrokesConcat(a: seq<JamoEnum>, b: seq<JamoEnum>)
    ensures Strokes(a + b) == Strokes(a) + Strokes(b)
  {
  }

  lemma OrderedParts(a: seq<JamoEnum>, b: seq<JamoEnum>, c: seq<JamoEnum>)
    requires AllOf(Initials, a) && AllOf(Medials, b) && AllOf(Finals, c)
    ensures Ordered(Strokes(a + b + c))
  {
    var js := a + b + c;
    forall i | 0 <= i < |js| ensures js[i] == if i < |a| then a[i] else if i < |a| + |b| then b[i - |a|]
      else c[i - |a| - |b|] {
    }
  }

  lemma MedialPresent(q: seq<Stroke>, i: nat)
    requires i < |q| && IsKind(Medials, q[i].jamo)
    ensures Has(Medials, q)
  {
  }

  /** The letters of a syllable are one block that means the syllable; it starts with an
      initial and does not end in one. */
  lemma SyllableBlock(ch: char)
    requires IsSyllable(ch)
    ensures var js := SyllableLetters(true, ch); var q := Strokes(js);
            && q != [] && IsBlock(THREE390, q) && Render(Meaning(THREE390, q)) == Some(ch)
            && q[0].jamo.Cho? && !Last(q).jamo.Cho? && (forall i | 0 <= i < |js| :: Proper(js[i]))
  {
    hide Folded, Has, Ordered, PartsOf, SyllableLetters, Typed, IsSyllable;
    var p := PartsOf(ch);
    PartsFacts(ch);
    PartsFold(ch);
    TypedRenders(ch);
    StrokesConcat(p.initials + p.vowels, p.finals);
    StrokesConcat(p.initials, p.vowels);
    OrderedParts(p.initials, p.vowels, p.finals);
    var js := SyllableLetters(true, ch);
    assert js[|p.initials|] == p.vowels[0];
    MedialPresent(Strokes(js), |p.initials|);
    assert Last(js) == if p.finals == [] then Last(p.vowels) else Last(p.finals);
    EachProper(p.initials, p.vowels, p.finals);
  }

  lemma EachProper(a: seq<JamoEnum>, b: seq<JamoEnum>, c: seq<JamoEnum>)
    requires AllOf(Initials, a) && AllOf(Medials, b) && AllOf(Finals, c)
    ensures forall i | 0 <= i < |a + b + c| :: Proper((a + b + c)[i])
  {
  }

  // ---------- the letters of a text ----------

  function TextLetters(text: string): seq<JamoEnum>
    requires forall ch <- text :: IsSyllable(ch)
  {
    if text == "" then []
    else
      assert text[0] in text && forall ch <- text[1..] :: ch in text;
      SyllableLetters(true, text[0]) + TextLetters(text[1..])
  }

  lemma BreaksBlock(t: Table, q: seq<Stroke>, s: Stroke)
    requires q != [] && IsBlock(t, q) && !Last(q).jamo.Cho? && s.jamo.Cho?
    ensures !IsBlock(t, q + [s])
  {
    hide Folded, Has;
    OrderedSnoc(q, s);
  }

  lemma StartsWithInitial(text: string)
    requires text != "" && forall ch <- text :: IsSyllable(ch)
    ensures TextLetters(text) != [] && TextLetters(text)[0].Cho?
  {
    hide SyllableLetters, IsSyllable, IsBlock, Meaning;
    assert text[0] in text;
    SyllableBlock(text[0]);
  }

  lemma TextLettersCons(text: string)
    requires text != "" && forall ch <- text :: IsSyllable(ch)
    ensures text[0] in text && forall ch <- text[1..] :: ch in text
    ensures TextLetters(text) == SyllableLetters(true, text[0]) + TextLetters(text[1..])
  {
    hide SyllableLetters, IsSyllable;
  }

  /** One block for every syllable. */
  function SyllableBlocks(text: string): (gs: seq<seq<Stroke>>)
    requires forall ch <- text :: IsSyllable(ch)
    ensures |gs| == |text| && forall i | 0 <= i < |text| :: gs[i] == Strokes(SyllableLetters(true, text[i]))
  {
    seq(|text|, i requires 0 <= i < |text| => assert text[i] in text; Strokes(SyllableLetters(true, text[i])))
  }

  lemma BlocksCons(text: string)
    requires text != "" && (forall ch <- text :: IsSyllable(ch)) && forall ch <- text[1..] :: ch in text
    ensures SyllableBlocks(text) == [Strokes(SyllableLetters(true, text[0]))] + SyllableBlocks(text[1..])
  {
    hide IsSyllable, SyllableLetters;
  }

  /** Greedy segmentation finds the syllables again. */
  lemma {:induction false} TextSegments(text: string)
    requires forall ch <- text :: IsSyllable(ch)
    ensures Segment(THREE390, Strokes(TextLetters(text))) == SyllableBlocks(text)
    ensures ClosedText(THREE390, SyllableBlocks(text)) == text
    ensures forall i | 0 <= i < |TextLetters(text)| :: Proper(TextLetters(text)[i])
  {
    hide IsBlock, Segment, IsSyllable, SyllableLetters, Meaning, Render, TextLetters, ClosedText, Proper;
    if text == "" {
      NoSegments();
    } else {
      TextLettersCons(text);
      BlocksCons(text);
      var js, rest := SyllableLetters(true, text[0]), TextLetters(text[1..]);
      SyllableBlock(text[0]);
      TextSegments(text[1..]);
      StrokesConcat(js, rest);
      FirstSegment(Strokes(js), SyllableBlocks(text[1..]));
      if text[1..] == "" {
        NoSegments();
        assert js + rest == js;
        SegmentWhole(THREE390, Strokes(js));
      } else {
        StartsWithInitial(text[1..]);
        SegmentNext(Strokes(js), Strokes(rest));
      }
      assert text == [text[0]] + text[1..];
    }
  }

  lemma SegmentNext(q: seq<Stroke>, w: seq<Stroke>)
    requires q != [] && IsBlock(THREE390, q) && !Last(q).jamo.Cho? && w != [] && w[0].jamo.Cho?
    ensures Segment(THREE390, q + w) == [q] + Segment(THREE390, w)
  {
    hide IsBlock, Segment;
    BreaksBlock(THREE390, q, w[0]);
    assert w == [w[0]] + w[1..];
    SegmentBreaks(THREE390, q, w[0], w[1..]);
  }

  lemma FirstSegment(q: seq<Stroke>, gs: seq<seq<Stroke>>)
    ensures ClosedText(THREE390, [q] + gs) == Emit(Render(Meaning(THREE390, q))) + ClosedText(THREE390, gs)
    ensures [q] + [] == [q]
  {
    hide Render, Meaning;
    assert ([q] + gs)[1..] == gs;
  }

  lemma NoSegments()
    ensures Strokes([]) == [] && Segment(THREE390, []) == [] && ClosedText(THREE390, []) == ""
    ensures TextLetters("") == []
  {
  }

  // ---------- the keys of a text ----------

  lemma LettersHaveKeys(cv: Converter, km: Keyboard, ch: char)
    requires FullThreeSet(km) && ConvertsBack(cv, km) && IsSyllable(ch)
    ensures forall j <- SyllableLetters(true, ch) :: j in cv.rev
  {
    hide SyllableLetters, IsSyllable, FullThreeSet;
    PartsFacts(ch);
    PartsSimple(ch);
    forall j <- SyllableLetters(true, ch) ensures j in cv.rev {
      SimpleHasKey(km, j);
      var key :| key in km && km[key] == j;
    }
  }

  /** A letter that the converter does not take apart any further. */
  predicate Simple(j: JamoEnum) {
    match j
    case Cho(c) => c >= 0 && InitialParts(c) == [c]
    case Jung(v) => v >= 0 && VowelParts(v) == [v]
    case Jong(f) => f > 0 && FinalParts(f) == [f]
    case Special(_) => false
  }

  lemma SimpleHasKey(km: Keyboard, j: JamoEnum)
    requires FullThreeSet(km) && Simple(j)
    ensures j in km.Values && !j.Special?
  {
    hide InitialParts, VowelParts, FinalParts;
  }

  lemma PartsSimple(ch: char)
    requires IsSyllable(ch)
    ensures forall j <- SyllableLetters(true, ch) :: Simple(j)
  {
    hide InitialKeys, VowelKeys;
    var h := FromSyllable(ch).value;
    SimpleInitials(h.cho.value);
    SimpleVowels(h.jung.value);
    if h.jong.value > 0 {
      SimpleFinals(h.jong.value);
    }
  }

  lemma SimpleInitials(c: Initial)
    requires c >= 0
    ensures forall j <- InitialKeys(InitialParts(c)) :: Simple(j)
  {
    hide InitialKeys;
    InitialKeysAre(InitialParts(c));
  }

  lemma InitialKeysAre(cs: seq<Initial>)
    ensures forall j <- InitialKeys(cs) :: j.Cho? && j.cho in cs
  {
  }

  lemma VowelKeysAre(vs: seq<Medial>)
    ensures forall j <- VowelKeys(vs) :: j.Jung? && j.jung in vs
  {
  }

  lemma SimpleVowels(v: Medial)
    requires v >= 0
    ensures forall j <- VowelKeys(VowelParts(v)) :: Simple(j)
  {
    hide VowelKeys;
    VowelKeysAre(VowelParts(v));
  }

  lemma SimpleFinals(f: Final)
    requires f > 0
    ensures forall j <- FinalJamos(FinalParts(f)) :: Simple(j)
  {
  }

  lemma {:induction false} TextKeys(cv: Converter, km: Keyboard, text: string)
    requires FullThreeSet(km) && ConvertsBack(cv, km) && forall ch <- text :: IsSyllable(ch)
    ensures RoundTrip.Types(km, KorToEng(cv, text), TextLetters(text))
  {
    hide SyllableLetters, IsSyllable, FullThreeSet, Reverses, RoundTrip.Types;
    if text == "" {
      NothingTyped(km);
    } else {
      assert text[0] in text && forall ch <- text[1..] :: ch in text;
      TextKeys(cv, km, text[1..]);
      LettersHaveKeys(cv, km, text[0]);
      SyllableTyped(cv, km, text[0]);
      TypesConcat(km, CharKeys(cv, text[0]), SyllableLetters(true, text[0]), KorToEng(cv, text[1..]),
        TextLetters(text[1..]));
    }
  }

  lemma SyllableTyped(cv: Converter, km: Keyboard, ch: char)
    requires cv.threeSet && Reverses(cv.rev, km) && IsSyllable(ch) && forall j <- SyllableLetters(true, ch) ::
             j in cv.rev
    ensures RoundTrip.Types(km, CharKeys(cv, ch), SyllableLetters(true, ch))
  {
    hide SyllableLetters, IsSyllable;
    KeysForTyped(cv.rev, km, SyllableLetters(true, ch));
  }

  lemma ProperEntry(k: (JamoEnum, JamoEnum))
    ensures k in STD ==> Proper(STD[k])
    ensures k in DOUBLED ==> Proper(DOUBLED[k])
  {
  }

  lemma Three390Proper()
    ensures ProperTable(THREE390)
  {
    hide Proper;
    forall k | k in THREE390 ensures Proper(THREE390[k]) {
      ProperEntry(k);
    }
  }

  /** Any text of precomposed syllables survives the trip to three-set keystrokes and back. */
  lemma ThreeSetSyllables(cv: Converter, km: Keyboard, text: string)
    requires FullThreeSet(km) && ConvertsBack(cv, km) && forall ch <- text :: IsSyllable(ch)
    ensures Converted(Three(THREE390, false), km, KorToEng(cv, text)) == text
  {
    hide Converted, KorToEng, TextOf, ClosedText, Segment, IsSyllable, TextLetters, FullThreeSet, ConvertsBack;
    TextKeys(cv, km, text);
    TextSegments(text);
    Three390Proper();
    var ss := Strokes(TextLetters(text));
    ThreeBulText(THREE390, ss);
    KeysInMap(km, KorToEng(cv, text), TextLetters(text));
    ConvertedIsTextOf(Three(THREE390, false), km, KorToEng(cv, text), ss);
  }

  lemma KeysInMap(km: Keyboard, s: string, js: seq<JamoEnum>)
    requires RoundTrip.Types(km, s, js)
    ensures |s| == |js| && (forall ch <- s :: ch in km) && forall i | 0 <= i < |s| ::
            Strokes(js)[i] == Stroke(km[s[i]], DEFAULT_META)
  {
  }

  /** A text survives the trip to three-set keystrokes and back if and only if each of its
      characters is a precomposed syllable, or is neither Hangul nor a key of the layout nor
      typed by a key: punctuation and digits that the layout types itself are lost. */
  lemma ThreeSetTripExactly(cv: Converter, km: Keyboard, text: string)
    requires NoHangulKeys(km) && FullThreeSet(km) && ConvertsBack(cv, km)
    ensures Converted(Three(THREE390, false), km, KorToEng(cv, text)) == text
       <==> forall ch <- text :: IsSyllable(ch) || (!IsHangul(ch) && ch !in km && ch !in cv.other)
  {
    hide Converted, KorToEng, IsHangul, IsSyllable, FullThreeSet, NoHangulKeys;
    forall s: string | forall ch <- s :: IsSyllable(ch)
      ensures Converted(Three(THREE390, false), km, KorToEng(cv, s)) == s
    {
      ThreeSetSyllables(cv, km, s);
    }
    TextReturnsExactly(Three(THREE390, false), cv, km, text);
    assert forall ch :: Stable(cv, km, ch) <==> IsSyllable(ch) || (!IsHangul(ch) && ch !in km && ch !in cv.other);
  }
}
