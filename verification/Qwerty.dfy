/** The standard two-set layout on a QWERTY keyboard (src/keystroke/keymap): the keyboard for
    which the round trip of text through keystrokes is meant. */
module Qwerty {
  import opened Wrappers
  import opened Jamo
  import opened HangulChars
  import opened Automaton
  import opened Tables
  import opened TypeFix
  import opened RoundTrip
  import opened TwoBulParser
  import opened AutoTypeFix
  import opened TwoBulText

  predicate IsLower(ch: char) { 'a' <= ch <= 'z' }
  predicate IsLatin(ch: char) { IsLower(ch) || 'A' <= ch <= 'Z' }

  function Lower(ch: char): char
    requires IsLatin(ch)
    ensures IsLower(Lower(ch))
  {
    if IsLower(ch) then ch else (ch as int - 'A' as int + 'a' as int) as char
  }

  /** The letter a key types without shift. */
  function Unshifted(ch: char): (j: JamoEnum)
    requires IsLower(ch)
    ensures Proper(j) && !j.Jong?
  {
    match ch
    case 'q' => Cho(7) case 'w' => Cho(12) case 'e' => Cho(3) case 'r' => Cho(0) case 't' => Cho(9)
    case 'y' => Jung(12) case 'u' => Jung(6) case 'i' => Jung(2) case 'o' => Jung(1) case 'p' => Jung(5)
    case 'a' => Cho(6) case 's' => Cho(2) case 'd' => Cho(11) case 'f' => Cho(5) case 'g' => Cho(18)
    case 'h' => Jung(8) case 'j' => Jung(4) case 'k' => Jung(0) case 'l' => Jung(20)
    case 'z' => Cho(15) case 'x' => Cho(16) case 'c' => Cho(14) case 'v' => Cho(17)
    case 'b' => Jung(17) case 'n' => Jung(13) case 'm' => Jung(18)
  }

  /** Seven keys type another letter with shift. */
  function Typed(ch: char): (j: JamoEnum)
    requires IsLatin(ch)
    ensures Proper(j) && !j.Jong?
  {
    match ch
    case 'Q' => Cho(8) case 'W' => Cho(13) case 'E' => Cho(4) case 'R' => Cho(1) case 'T' => Cho(10)
    case 'O' => Jung(3) case 'P' => Jung(7)
    case _ => Unshifted(Lower(ch))
  }

  const QWERTY: Keyboard := map ch: char | IsLatin(ch) :: Typed(ch)

  /** The key that types `j`; lower case where there is a choice. */
  function KeyOf(j: JamoEnum): (ch: char)
    ensures IsLatin(ch)
  {
    match j
    case Cho(0) => 'r' case Cho(1) => 'R' case Cho(2) => 's' case Cho(3) => 'e' case Cho(4) => 'E'
    case Cho(5) => 'f' case Cho(6) => 'a' case Cho(7) => 'q' case Cho(8) => 'Q' case Cho(9) => 't'
    case Cho(10) => 'T' case Cho(11) => 'd' case Cho(12) => 'w' case Cho(13) => 'W' case Cho(14) => 'c'
    case Cho(15) => 'z' case Cho(16) => 'x' case Cho(17) => 'v' case Cho(18) => 'g'
    case Jung(0) => 'k' case Jung(1) => 'o' case Jung(2) => 'i' case Jung(3) => 'O' case Jung(4) => 'j'
    case Jung(5) => 'p' case Jung(6) => 'u' case Jung(7) => 'P' case Jung(8) => 'h' case Jung(12) => 'y'
    case Jung(13) => 'n' case Jung(17) => 'b' case Jung(18) => 'm' case Jung(20) => 'l'
    case _ => 'k'
  }

  const REVERSE: map<JamoEnum, char> := map j | j in QWERTY.Values :: KeyOf(j)

  lemma InitialKey(c: Initial)
    requires c >= 0
    ensures Typed(KeyOf(Cho(c))) == Cho(c)
  {
  }

  lemma VowelKey(v: Medial)
    requires v >= 0 && VowelParts(v) == [v]
    ensures Typed(KeyOf(Jung(v))) == Jung(v)
  {
  }

  lemma TypedVowel(ch: char)
    requires IsLatin(ch)
    ensures Typed(ch).Jung? ==> VowelParts(Typed(ch).jung) == [Typed(ch).jung]
  {
  }

  lemma KeyTypes(ch: char)
    requires IsLatin(ch)
    ensures Typed(KeyOf(Typed(ch))) == Typed(ch)
  {
    hide Typed, KeyOf, VowelParts;
    var j := Typed(ch);
    if j.Cho? {
      InitialKey(j.cho);
    } else {
      TypedVowel(ch);
      VowelKey(j.jung);
    }
  }

  lemma LowerIsUnshifted(ch: char)
    requires IsLower(ch)
    ensures Typed(ch) == Unshifted(ch)
  {
  }

  lemma FirstHalf(ch: char)
    requires 'a' <= ch <= 'm'
    ensures KeyOf(Unshifted(ch)) == ch
  {
  }

  lemma SecondHalf(ch: char)
    requires 'n' <= ch <= 'z'
    ensures KeyOf(Unshifted(ch)) == ch
  {
  }

  /** The key chosen for a letter is lower case when some lower-case key types it. */
  lemma LowerCaseWins(ch: char)
    requires IsLower(ch)
    ensures KeyOf(Typed(ch)) == ch
  {
    hide Typed, Unshifted, KeyOf;
    LowerIsUnshifted(ch);
    if ch <= 'm' {
      FirstHalf(ch);
    } else {
      SecondHalf(ch);
    }
  }

  lemma QwertyFits()
    ensures TwoSetKeyboard(QWERTY) && FullKeyboard(QWERTY) && Reverses(REVERSE, QWERTY)
  {
    hide KeyOf, Typed, VowelParts;
    forall c: int | 0 <= c <= 18 ensures Cho(c) in QWERTY.Values {
      InitialKey(c);
      assert QWERTY[KeyOf(Cho(c))] == Cho(c);
    }
    forall v: int | 0 <= v <= 20 && VowelParts(v) == [v] ensures Jung(v) in QWERTY.Values {
      VowelKey(v);
      assert QWERTY[KeyOf(Jung(v))] == Jung(v);
    }
    forall j | j in REVERSE ensures REVERSE[j] in QWERTY && QWERTY[REVERSE[j]] == j {
      var ch :| ch in QWERTY && QWERTY[ch] == j;
      KeyTypes(ch);
    }
    forall ch | ch in QWERTY ensures QWERTY[ch] in REVERSE {
      assert QWERTY[ch] in QWERTY.Values;
    }
  }

  /** On the standard keyboard a text survives the trip to keystrokes and back if and only if
      it has no Latin letter and no Hangul other than precomposed syllables. */
  lemma StandardRoundTrip(text: string)
    ensures Converted(Two(STD), QWERTY, KorToEng(TwoSet(REVERSE), text)) == text
       <==> forall ch <- text :: Kept(ch)
  {
    hide Converted, KorToEng, IsHangul, IsSyllable, Typed, KeyOf, TwoSetKeyboard, FullKeyboard, Reverses, Kept;
    QwertyFits();
    RoundTripExactly(REVERSE, QWERTY, text);
    forall ch | ch in text ensures Kept(ch) <==> IsSyllable(ch) || (!IsHangul(ch) && ch !in QWERTY) {
      KeptIs(ch);
    }
  }

  /** Syllables, and whatever is neither a conjoining nor a standalone letter nor Latin. */
  predicate Kept(ch: char) {
    || '\U{AC00}' <= ch <= '\U{D7A3}'
    || !('\U{1100}' <= ch <= '\U{11FF}' || '\U{3130}' <= ch <= '\U{318F}' || 'A' <= ch <= 'Z' || 'a' <= ch <= 'z')
  }

  lemma KeptIs(ch: char)
    ensures Kept(ch) <==> IsSyllable(ch) || (!IsHangul(ch) && !IsLatin(ch))
  {
  }

  /** A double final typed with one shifted key: one group, but not the converter's letters. */
  const ISS := Group(Some(11), [20], [10])

  lemma IssWritten()
    ensures Complete(STD, ISS) && Written(STD, ISS) == [SyllableCode(11, 20, 20) as char]
    ensures Letters(ISS) == [Cho(11), Jung(20), Cho(10)]
  {
    assert Init([20]) == [] && Init([10]) == [] && FoldFinals(STD, []) == None && FoldVowels(STD, []) == None;
    assert VowelKeys([20]) == [Jung(20)] && InitialKeys([10]) == [Cho(10)];
  }

  lemma KeyOfLetter(j: JamoEnum)
    requires Proper(j) && (j.Cho? || (j.Jung? && VowelParts(j.jung) == [j.jung]))
    ensures KeyFor(REVERSE, j) == [KeyOf(j)]
  {
    hide KeyOf, Typed, VowelParts;
    if j.Cho? {
      InitialKey(j.cho);
    } else {
      VowelKey(j.jung);
    }
    assert QWERTY[KeyOf(j)] == j;
  }

  lemma FourKeys(a: JamoEnum, b: JamoEnum, c: JamoEnum, d: JamoEnum)
    ensures KeysFor(REVERSE, [a, b, c, d])
            == KeyFor(REVERSE, a) + KeyFor(REVERSE, b) + KeyFor(REVERSE, c) + KeyFor(REVERSE, d)
  {
    hide KeyFor;
    assert [a, b, c, d][1..] == [b, c, d] && [b, c, d][1..] == [c, d] && [c, d][1..] == [d] && [d][1..] == [];
    assert KeysFor(REVERSE, [d]) == KeyFor(REVERSE, d) + KeysFor(REVERSE, []);
    assert KeysFor(REVERSE, [c, d]) == KeyFor(REVERSE, c) + KeysFor(REVERSE, [d]);
    assert KeysFor(REVERSE, [b, c, d]) == KeyFor(REVERSE, b) + KeysFor(REVERSE, [c, d]);
  }

  lemma IssLetters(ch: char)
    requires ch == SyllableCode(11, 20, 20) as char
    ensures IsSyllable(ch) && Letters(Canonical(ch)) == [Cho(11), Jung(20), Cho(9), Cho(9)]
  {
    LettersRoundTrip(11, 20, 20);
    assert Canonical(ch) == Group(Some(11), [20], FinalKeys(20));
    assert FinalKeys(20) == [9, 9];
    assert VowelKeys([20]) == [Jung(20)] && InitialKeys([9, 9]) == [Cho(9), Cho(9)];
  }

  lemma IssKeys(ch: char)
    requires ch == SyllableCode(11, 20, 20) as char
    ensures KorToEng(TwoSet(REVERSE), [ch]) == "dltt"
  {
    hide SyllableCode, Typed, IsSyllable, Canonical, Letters, KeysFor, KeyFor;
    IssLetters(ch);
    FourKeys(Cho(11), Jung(20), Cho(9), Cho(9));
    KeyOfLetter(Cho(11));
    KeyOfLetter(Jung(20));
    KeyOfLetter(Cho(9));
    assert [ch][1..] == "" && KorToEng(TwoSet(REVERSE), "") == "";
  }

  lemma IssTyped(w: seq<TwoSetKey>)
    requires w == [Cho(11), Jung(20), Cho(10)]
    ensures |w| == |"dlT"| && (forall ch <- "dlT" :: ch in QWERTY) && forall i | 0 <= i < |w| ::
            w[i] == QWERTY["dlT"[i]]
    ensures LettersAll([ISS]) == w && WrittenAll(STD, [ISS]) == Written(STD, ISS)
  {
    hide Written, Letters;
    IssWritten();
    assert [ISS][1..] == [];
  }

  /** Keystrokes that do not survive: the double final comes back as two keys. */
  lemma ShiftedFinalIsUndone()
    ensures KorToEng(TwoSet(REVERSE), Converted(Two(STD), QWERTY, "dlT")) == "dltt"
  {
    hide Converted, KorToEng, Text2, Complete, Parse, Groups, Typed, IsLatin, Letters, LettersAll, Written,
      WrittenAll, NoInitialPairs, ProperTable, Progressing;
    var w: seq<TwoSetKey> := [Cho(11), Jung(20), Cho(10)];
    StdFits();
    IssWritten();
    IssTyped(w);
    SyllablesSurviveTyping(STD, [ISS], w);
    ConvertedIsText(STD, QWERTY, "dlT", w);
    IssKeys(SyllableCode(11, 20, 20) as char);
  }

  /** The entries are the keystrokes `keys`, one character each. */
  predicate Records(layout: EnglishLayout, es: seq<KeystrokeEntry>, keys: string) {
    |es| == |keys| && forall i | 0 <= i < |es| :: layout(es[i].keycode, es[i].shift) == Some(keys[i])
  }

  lemma RecordsBuffer(layout: EnglishLayout, es: seq<KeystrokeEntry>, keys: string, w: seq<TwoSetKey>)
    requires Records(layout, es, keys) && Types(QWERTY, keys, w)
    ensures Buffers(QWERTY, layout, es, w)
  {
    hide Typed, IsLatin;
  }

  lemma {:induction false} AllCounted(text: string)
    requires forall ch <- text :: IsSyllable(ch)
    ensures CountSyllables(text) == |text|
  {
    hide IsSyllable;
    if text != "" {
      assert Last(text) in text && forall ch <- Init(text) :: ch in text;
      AllCounted(Init(text));
    }
  }

  /** Whoever types two or more Korean syllables in English mode on the standard keyboard: the
      correction sees exactly those syllables, commits all but the last and replays keys that
      rebuild the last. */
  lemma StandardCorrection(layout: EnglishLayout, es: seq<KeystrokeEntry>, text: string, start: nat)
    requires |text| >= 2 && (forall ch <- text :: IsSyllable(ch))
    requires Records(layout, es, KorToEng(TwoSet(REVERSE), text))
    requires IsSplit(Two(STD), QWERTY, layout, es, TargetPrefix(Converted(Two(STD), QWERTY, Ascii(layout, es))), start)
    ensures Converted(Two(STD), QWERTY, Ascii(layout, es)) == text
    ensures CountSyllables(text) == |text| && AllButLastSyllables(text)
    ensures start <= |es| && Converted(Two(STD), QWERTY, Ascii(layout, es[start..])) == [Last(text)]
    ensures Init(text) + Converted(Two(STD), QWERTY, Ascii(layout, es[start..])) == text
  {
    hide *;
    QwertyFits();
    AllCounted(text);
    SyllableKeys(REVERSE, QWERTY, text);
    BlocksComplete(text);
    LettersTyped(STD, Blocks(text));
    var w: seq<TwoSetKey> := LettersAll(Blocks(text));
    RecordsBuffer(layout, es, KorToEng(TwoSet(REVERSE), text), w);
    BufferLength(QWERTY, layout, es, w);
    SyllablesSplit(QWERTY, layout, es, text, w, start);
    SnocText(text);
  }

  lemma {:induction false} AsciiRecorded(layout: EnglishLayout, es: seq<KeystrokeEntry>, keys: string)
    requires Records(layout, es, keys)
    ensures Ascii(layout, es) == keys
  {
    if es == [] {
      assert keys == "";
    } else {
      AsciiRecorded(layout, Init(es), Init(keys));
      assert Init(keys) + [Last(keys)] == keys;
    }
  }

  lemma NothingReplayed(layout: EnglishLayout, es: seq<KeystrokeEntry>)
    ensures Converted(Two(STD), QWERTY, Ascii(layout, es[|es|..])) == ""
  {
    hide Converted;
    AsciiNothing(layout);
    NothingConverted(Two(STD), QWERTY);
    assert es[|es|..] == [];
  }

  /** What the gates of the check see in the keys of syllables. */
  lemma StandardGates(layout: EnglishLayout, es: seq<KeystrokeEntry>, text: string)
    requires |text| >= 2 && (forall ch <- text :: IsSyllable(ch))
    requires Records(layout, es, KorToEng(TwoSet(REVERSE), text))
    ensures var keys := KorToEng(TwoSet(REVERSE), text);
            && Ascii(layout, es) == keys && Converted(Two(STD), QWERTY, keys) == text && |es| >= 2 && keys != ""
    ensures |Places(text)| == |text| && forall i | 0 <= i < |text| - 1 :: i in Places(text)
  {
    hide Converted, Ascii, KorToEng, IsSyllable, CountSyllables, AllButLastSyllables, PrefixMatches, Places, Typed;
    var keys := KorToEng(TwoSet(REVERSE), text);
    AsciiRecorded(layout, es, keys);
    AsciiNothing(layout);
    NothingConverted(Two(STD), QWERTY);
    StandardConverts(text);
    assert es != [];
    var target := TargetPrefix(Converted(Two(STD), QWERTY, Ascii(layout, es)));
    var start := SplitExists(Two(STD), QWERTY, layout, es, target, |es|);
    StandardCorrection(layout, es, text, start);
    NothingReplayed(layout, es);
    CountIs(text);
    AllButLastPlaces(text);
  }

  lemma StandardConverts(text: string)
    requires forall ch <- text :: IsSyllable(ch)
    ensures Converted(Two(STD), QWERTY, KorToEng(TwoSet(REVERSE), text)) == text
  {
    hide Converted, KorToEng, IsSyllable, Typed, Kept;
    StandardRoundTrip(text);
    forall ch | ch in text ensures Kept(ch) {
      KeptIs(ch);
    }
  }

  /** The keys from the split on write the last syllable. */
  lemma ReplayWrites(layout: EnglishLayout, es: seq<KeystrokeEntry>, text: string, start: nat)
    requires |text| >= 2 && (forall ch <- text :: IsSyllable(ch))
    requires Records(layout, es, KorToEng(TwoSet(REVERSE), text))
    requires Converted(Two(STD), QWERTY, Ascii(layout, es)) == text
    requires IsSplit(Two(STD), QWERTY, layout, es, TargetPrefix(text), start)
    ensures start < |es| && Converted(Two(STD), QWERTY, Ascii(layout, es[start..])) == [Last(text)]
  {
    hide Converted, Ascii, KorToEng, IsSyllable, IsSplit, Records, TargetPrefix;
    StandardCorrection(layout, es, text, start);
    NothingReplayed(layout, es);
  }

  /** The whole check on two or more syllables typed in English mode: they are corrected if and
      only if that is switched on, they are enough, and the keys are neither suppressed nor an
      English word. Then the corrected text is theirs, all but the last are committed, and
      the keys replayed write the last. */
  method CheckSyllables(buffer: KeystrokeBuffer, layout: EnglishLayout, settings: Settings,
                        suppressed: string -> bool, englishWord: string -> bool, ghost text: string)
    returns (r: Verdict)
    requires |text| >= 2 && (forall ch <- text :: IsSyllable(ch))
    requires Records(layout, buffer.entries, KorToEng(TwoSet(REVERSE), text))
    ensures var keys := KorToEng(TwoSet(REVERSE), text);
            && (r.Correct? <==>
                settings.forward && |text| >= settings.threshold && !suppressed(keys) && !englishWord(keys))
            && (!r.Correct? ==> r == Nothing)
            && (r.Correct? ==>
                  && r.correction.original == keys && r.correction.deleteChars == |keys|
                  && r.correction.corrected == text && r.correction.commitText == Init(text)
                  && Converted(Two(STD), QWERTY, Ascii(layout, r.correction.replay)) == [Last(text)])
  {
    hide Converted, Ascii, KorToEng, IsSyllable, PrefixMatches, Typed, Records, TargetPrefix, Places;
    StandardGates(layout, buffer.entries, text);
    r := CheckForward(buffer, Two(STD), QWERTY, layout, settings, suppressed, englishWord);
    if r.Correct? {
      ghost var start: nat :|
        && IsSplit(Two(STD), QWERTY, layout, buffer.entries, TargetPrefix(text), start)
        && r.correction.replay == buffer.entries[start..]
        && r.correction.commitText == if start < |buffer.entries| then Init(text) else text;
      ReplayWrites(layout, buffer.entries, text, start);
    }
  }

  lemma SnocText(text: string)
    requires text != ""
    ensures Init(text) + [Last(text)] == text
  {
  }
}
