/** Keystrokes to Korean and back on the three-set layout ko_3bul390: which keystrokes return as
    they were. */
module ThreeSetKeys {
  import opened Jamo
  import opened HangulChars
  import opened Fold
  import opened Automaton
  import opened ThreeBulParser
  import opened Tables
  import opened TypeFix
  import opened RoundTrip
  import opened KeystrokeTrip
  import opened ThreeSetTrip

  /** What the keys type, letters or not. */
  function TypedBy(km: Keyboard, run: string): (js: seq<JamoEnum>)
    requires forall ch <- run :: ch in km
    ensures RoundTrip.Types(km, run, js)
  {
    seq(|run|, i requires 0 <= i < |run| => assert run[i] in run; km[run[i]])
  }

  /** A block that is a whole syllable, typed with the letters the converter takes it apart into. */
  predicate PlainBlock(g: seq<Stroke>) {
    match Render(Meaning(THREE390, g))
    case None => false
    case Some(ch) => IsSyllable(ch) && g == Strokes(SyllableLetters(true, ch))
  }

  /** Keys without a separator return when they all type letters, every longest block is a whole
      syllable typed plainly, and every key is the chosen one for its letter. */
  predicate BlocksReturn(cv: Converter, km: Keyboard, run: string)
    requires forall ch <- run :: ch in km
  {
    var js := TypedBy(km, run);
    && (forall i | 0 <= i < |js| :: Proper(js[i]))
    && (forall g <- Segment(THREE390, Strokes(js)) :: PlainBlock(g))
    && (forall ch <- run :: Chosen(cv.rev, km, ch))
  }

  /** All the runs between separators return, and every separator stands for itself. */
  predicate ThreeSetReturns(cv: Converter, km: Keyboard, keys: string)
    decreases |keys|
  {
    var n := RunLength(km, keys);
    && BlocksReturn(cv, km, keys[..n])
    && (n < |keys| ==> !IsHangul(keys[n]) && keys[n] !in cv.other && ThreeSetReturns(cv, km, keys[n + 1..]))
  }

  /** The syllables that plain blocks write. */
  lemma {:induction false} PlainText(gs: seq<seq<Stroke>>) returns (text: string)
    requires forall g <- gs :: PlainBlock(g)
    ensures (forall ch <- text :: IsSyllable(ch)) && gs == SyllableBlocks(text)
  {
    hide IsSyllable, SyllableLetters, PlainBlock;
    if gs == [] {
      text := "";
    } else {
      assert gs[0] in gs && forall g <- gs[1..] :: g in gs;
      var rest := PlainText(gs[1..]);
      var ch := BlockCharacter(gs[0]);
      text := [ch] + rest;
      forall i | 0 <= i < |gs| ensures gs[i] == Strokes(SyllableLetters(true, text[i])) {
        if i > 0 {
          assert gs[i] == gs[1..][i - 1] && text[i] == rest[i - 1];
        }
      }
    }
  }

  lemma BlockCharacter(g: seq<Stroke>) returns (ch: char)
    requires PlainBlock(g)
    ensures IsSyllable(ch) && g == Strokes(SyllableLetters(true, ch))
  {
    ch := Render(Meaning(THREE390, g)).value;
  }

  lemma SyllableIsPlain(ch: char)
    requires IsSyllable(ch)
    ensures PlainBlock(Strokes(SyllableLetters(true, ch)))
  {
    hide IsSyllable, SyllableLetters, Meaning, Render, IsBlock;
    SyllableBlock(ch);
  }

  lemma {:induction false} BlocksFlatten(text: string)
    requires forall ch <- text :: IsSyllable(ch)
    ensures Flatten(SyllableBlocks(text)) == Strokes(TextLetters(text))
  {
    hide IsSyllable, SyllableLetters, SyllableBlocks, TextLetters;
    if text == "" {
      NothingFlat();
    } else {
      TextLettersCons(text);
      BlocksCons(text);
      BlocksFlatten(text[1..]);
      StrokesConcat(SyllableLetters(true, text[0]), TextLetters(text[1..]));
      assert ([Strokes(SyllableLetters(true, text[0]))] + SyllableBlocks(text[1..]))[1..] == SyllableBlocks(text[1..]);
    }
  }

  lemma NothingFlat()
    ensures SyllableBlocks("") == [] && Flatten([]) == [] && Strokes(TextLetters("")) == []
  {
  }

  /** Keys that type the letters of syllables convert to those syllables. */
  lemma RunOfBlocks(cv: Converter, km: Keyboard, run: string, text: string)
    requires FullThreeSet(km) && ConvertsBack(cv, km)
    requires (forall ch <- run :: ch in km) && (forall ch <- text :: IsSyllable(ch))
    requires TypedBy(km, run) == TextLetters(text)
    ensures Converted(Three(THREE390, false), km, run) == text
    ensures Segment(THREE390, Strokes(TypedBy(km, run))) == SyllableBlocks(text)
    ensures forall i | 0 <= i < |run| :: Proper(TypedBy(km, run)[i])
    ensures RoundTrip.Types(km, KorToEng(cv, text), TypedBy(km, run))
  {
    hide Converted, KorToEng, TextOf, ClosedText, Segment, IsSyllable, TextLetters, FullThreeSet, ConvertsBack, Proper,
      SyllableBlocks;
    var ss := Strokes(TypedBy(km, run));
    TextSegments(text);
    Three390Proper();
    ThreeBulText(THREE390, ss);
    ConvertedIsTextOf(Three(THREE390, false), km, run, ss);
    TextKeys(cv, km, text);
  }

  lemma StrokesUnique(a: seq<JamoEnum>, b: seq<JamoEnum>)
    requires Strokes(a) == Strokes(b)
    ensures a == b
  {
    forall i | 0 <= i < |a| ensures |a| == |b| && a[i] == b[i] {
      assert Strokes(a)[i].jamo == Strokes(b)[i].jamo;
    }
  }

  /** One run, exactly. */
  lemma BlocksExactly(cv: Converter, km: Keyboard, run: string)
    requires NoHangulKeys(km) && FullThreeSet(km) && ConvertsBack(cv, km) && forall ch <- run :: ch in km
    ensures Trip(Three(THREE390, false), cv, km, run) == run <==> BlocksReturn(cv, km, run)
  {
    if BlocksReturn(cv, km, run) {
      PlainReturns(cv, km, run);
    } else if Trip(Three(THREE390, false), cv, km, run) == run {
      ReturnsPlain(cv, km, run);
    }
  }

  lemma ProperAreLetters(js: seq<JamoEnum>)
    requires forall i | 0 <= i < |js| :: Proper(js[i])
    ensures Letters3(Strokes(js))
  {
  }

  lemma PlainReturns(cv: Converter, km: Keyboard, run: string)
    requires FullThreeSet(km) && ConvertsBack(cv, km) && (forall ch <- run :: ch in km) && BlocksReturn(cv, km, run)
    ensures Trip(Three(THREE390, false), cv, km, run) == run
  {
    hide Converted, KorToEng, Segment, IsSyllable, TextLetters, FullThreeSet, Reverses, Proper, SyllableBlocks,
      PlainBlock, Chosen, IsHangul, IsBlock, Flatten;
    var js := TypedBy(km, run);
    ProperAreLetters(js);
    SegmentCovers(THREE390, Strokes(js));
    var text := PlainText(Segment(THREE390, Strokes(js)));
    BlocksFlatten(text);
    StrokesUnique(js, TextLetters(text));
    RunOfBlocks(cv, km, run, text);
    SyllablesAreHangul(text);
    AllChosen(cv, km, text);
    SameKeys(cv.rev, km, run, KorToEng(cv, text), js);
  }

  lemma ReturnsPlain(cv: Converter, km: Keyboard, run: string)
    requires NoHangulKeys(km) && FullThreeSet(km) && ConvertsBack(cv, km) && forall ch <- run :: ch in km
    requires Trip(Three(THREE390, false), cv, km, run) == run
    ensures BlocksReturn(cv, km, run)
  {
    hide Converted, KorToEng, Segment, IsSyllable, TextLetters, FullThreeSet, Reverses, Proper, PlainBlock, Chosen,
      IsHangul, IsBlock, Strip, NoHangulKeys, SyllableLetters;
    var korean := Converted(Three(THREE390, false), km, run);
    NoKeyInOutput(Three(THREE390, false), km, run);
    AllHangul(km, run, korean);
    StripFacts(cv, km, korean);
    var text := Strip(korean);
    OnlySyllables(km, korean);
    TextKeys(cv, km, text);
    TypesUnique(km, run, TypedBy(km, run), TextLetters(text));
    RunOfBlocks(cv, km, run, text);
    forall g <- SyllableBlocks(text) ensures PlainBlock(g) {
      var i :| 0 <= i < |text| && g == SyllableBlocks(text)[i];
      assert text[i] in text;
      SyllableIsPlain(text[i]);
    }
    AllChosen(cv, km, text);
  }

  lemma ConverterFits(cv: Converter, km: Keyboard)
    requires ConvertsBack(cv, km)
    ensures WritesKeys(cv, km) && Reverses(cv.rev, km)
  {
  }

  /** Keystrokes of ko_3bul390 survive the trip to Korean and back if and only if, between the
      characters that are no keys, every longest block they type is a whole syllable in the
      converter's letters and keys, no key types anything but a letter, and no separator is
      Hangul or typed by a key. */
  lemma {:induction false} ThreeSetKeysExactly(cv: Converter, km: Keyboard, keys: string)
    requires NoHangulKeys(km) && FullThreeSet(km) && ConvertsBack(cv, km)
    ensures KorToEng(cv, Converted(Three(THREE390, false), km, keys)) == keys <==> ThreeSetReturns(cv, km, keys)
    decreases |keys|
  {
    hide Converted, IsHangul, KorToEng, FullThreeSet, BlocksReturn, NoHangulKeys, ConvertsBack, Reverses, WritesKeys;
    ConverterFits(cv, km);
    var n := RunLength(km, keys);
    BlocksExactly(cv, km, keys[..n]);
    if n == |keys| {
      assert keys[..n] == keys;
    } else {
      ThreeSetKeysExactly(cv, km, keys[n + 1..]);
      TripSplits(Three(THREE390, false), cv, km, keys, n);
    }
  }
}
