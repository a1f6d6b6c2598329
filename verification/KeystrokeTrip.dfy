/** Keystrokes to Korean and back on the two-set layout: which keystrokes return as they were. */
module KeystrokeTrip {
  import opened Jamo
  import opened HangulChars
  import opened Automaton
  import opened TwoBulParser
  import opened TwoBulText
  import opened Tables
  import opened TypeFix
  import opened RoundTrip

  /** The letters that the keys type. */
  function LettersTypedBy(km: Keyboard, run: string): (w: seq<TwoSetKey>)
    requires TwoSetKeyboard(km) && forall ch <- run :: ch in km
    ensures Types(km, run, w)
  {
    seq(|run|, i requires 0 <= i < |run| => assert run[i] in run; km[run[i]])
  }

  /** A whole syllable, typed with the letters the converter takes it apart into. */
  predicate Plainly(g: Group) {
    Complete(STD, g) && forall ch <- Written(STD, g) :: IsSyllable(ch) && g == Canonical(ch)
  }

  /** The key is the one the converter uses for its letter. */
  predicate Chosen(rev: map<JamoEnum, char>, km: Keyboard, ch: char) {
    ch in km && km[ch] in rev && rev[km[ch]] == ch
  }

  /** Keys without a separator return when no consonant jams, every group is a whole syllable
      typed plainly, and every key is the chosen one for its letter. */
  predicate RunReturns(rev: map<JamoEnum, char>, km: Keyboard, run: string)
    requires TwoSetKeyboard(km) && forall ch <- run :: ch in km
  {
    var w := LettersTypedBy(km, run);
    Parse(STD, NOTHING, w).clean && (forall g <- Groups(STD, w) :: Plainly(g))
      && (forall ch <- run :: Chosen(rev, km, ch))
  }

  /** How many keys come before the first separator. */
  function RunLength(km: Keyboard, keys: string): (n: nat)
    ensures n <= |keys| && (forall ch <- keys[..n] :: ch in km) && (n < |keys| ==> keys[n] !in km)
  {
    if keys == "" || keys[0] !in km then 0
    else
      var n := 1 + RunLength(km, keys[1..]);
      assert keys[..n] == [keys[0]] + keys[1..][..n - 1];
      n
  }

  /** All the runs between separators return, and no separator is Hangul. */
  predicate Returns(rev: map<JamoEnum, char>, km: Keyboard, keys: string)
    requires TwoSetKeyboard(km)
    decreases |keys|
  {
    var n := RunLength(km, keys);
    && RunReturns(rev, km, keys[..n])
    && (n < |keys| ==> !IsHangul(keys[n]) && Returns(rev, km, keys[n + 1..]))
  }

  // ---------- one run ----------

  lemma {:induction false} ChosenKeys(rev: map<JamoEnum, char>, km: Keyboard, js: seq<JamoEnum>)
    requires Reverses(rev, km)
    ensures forall ch <- KeysFor(rev, js) :: Chosen(rev, km, ch)
  {
    if js != [] {
      ChosenKeys(rev, km, js[1..]);
    }
  }

  /** Hangul is written with chosen keys. */
  lemma {:induction false} AllChosen(cv: Converter, km: Keyboard, text: string)
    requires Reverses(cv.rev, km) && forall ch <- text :: IsHangul(ch)
    ensures forall ch <- KorToEng(cv, text) :: Chosen(cv.rev, km, ch)
  {
    hide SyllableLetters, IsHangul, IsSyllable, Chosen, Reverses, KeysFor;
    if text != "" {
      assert text[0] in text && forall ch <- text[1..] :: ch in text;
      AllChosen(cv, km, text[1..]);
      if IsSyllable(text[0]) {
        ChosenKeys(cv.rev, km, SyllableLetters(cv.threeSet, text[0]));
      }
    }
  }

  /** The chosen keys of given letters are determined. */
  lemma SameKeys(rev: map<JamoEnum, char>, km: Keyboard, a: string, b: string, js: seq<JamoEnum>)
    requires Types(km, a, js) && Types(km, b, js)
    requires (forall ch <- a :: Chosen(rev, km, ch)) && (forall ch <- b :: Chosen(rev, km, ch))
    ensures a == b
  {
    forall i | 0 <= i < |a| ensures a[i] == b[i] {
      assert a[i] in a && b[i] in b;
    }
  }

  lemma TypesUnique(km: Keyboard, s: string, a: seq<JamoEnum>, b: seq<JamoEnum>)
    requires Types(km, s, a) && Types(km, s, b)
    ensures a == b
  {
  }

  /** The syllables that plainly typed groups write. */
  lemma {:induction false} PlainBlocks(gs: seq<Group>) returns (text: string)
    requires forall g <- gs :: Plainly(g)
    ensures (forall ch <- text :: IsSyllable(ch)) && gs == Blocks(text)
  {
    hide IsSyllable, Canonical, Plainly;
    if gs == [] {
      text := "";
    } else {
      assert gs[0] in gs && forall g <- gs[1..] :: g in gs;
      var rest := PlainBlocks(gs[1..]);
      var ch := PlainCharacter(gs[0]);
      text := [ch] + rest;
      forall i | 0 <= i < |gs| ensures gs[i] == Canonical(text[i]) {
        if i > 0 {
          assert gs[i] == gs[1..][i - 1] && text[i] == rest[i - 1];
        }
      }
    }
  }

  lemma PlainCharacter(g: Group) returns (ch: char)
    requires Plainly(g)
    ensures IsSyllable(ch) && g == Canonical(ch)
  {
    hide IsSyllable, Canonical;
    StdFits();
    OneCharacter(STD, g);
    ch := Written(STD, g)[0];
    assert ch in Written(STD, g);
  }

  lemma CanonicalIsPlain(ch: char)
    requires IsSyllable(ch)
    ensures Plainly(Canonical(ch))
  {
    hide IsSyllable, Canonical, Complete;
    CanonicalComplete(ch);
  }

  /** Keys that type the canonical letters of syllables convert to those syllables. */
  lemma RunOfSyllables(rev: map<JamoEnum, char>, km: Keyboard, run: string, text: string)
    requires TwoSetKeyboard(km) && FullKeyboard(km) && Reverses(rev, km)
    requires (forall ch <- run :: ch in km) && (forall ch <- text :: IsSyllable(ch))
    requires LettersTypedBy(km, run) == LettersAll(Blocks(text))
    ensures Converted(Two(STD), km, run) == text
    ensures var w := LettersTypedBy(km, run); Groups(STD, w) == Blocks(text) && Parse(STD, NOTHING, w).clean
    ensures Types(km, KorToEng(TwoSet(rev), text), LettersTypedBy(km, run))
  {
    hide Converted, Text2, Parse, Complete, IsSyllable, KorToEng, Reverses, FullKeyboard, LettersAll, WrittenAll,
      NoInitialPairs, ProperTable;
    var w := LettersTypedBy(km, run);
    StdFits();
    BlocksComplete(text);
    SyllablesSurviveTyping(STD, Blocks(text), w);
    ConvertedIsText(STD, km, run, w);
    SyllableKeys(rev, km, text);
  }

  /** One run, exactly. */
  lemma RunExactly(rev: map<JamoEnum, char>, km: Keyboard, run: string)
    requires TwoSetKeyboard(km) && FullKeyboard(km) && Reverses(rev, km) && forall ch <- run :: ch in km
    ensures KorToEng(TwoSet(rev), Converted(Two(STD), km, run)) == run <==> RunReturns(rev, km, run)
  {
    hide Converted, Parse, Plainly, IsHangul, IsSyllable, KorToEng, Reverses, FullKeyboard, LettersAll, Strip,
      Chosen, Letters, Grouping, Canonical;
    var w, korean := LettersTypedBy(km, run), Converted(Two(STD), km, run);
    if RunReturns(rev, km, run) {
      NothingFormed();
      ParseSegments(STD, NOTHING, w);
      assert Letters(NOTHING) + w == w by { NothingTypes(); }
      var text := PlainBlocks(Groups(STD, w));
      RunOfSyllables(rev, km, run, text);
      SyllablesAreHangul(text);
      AllChosen(TwoSet(rev), km, text);
      SameKeys(rev, km, run, KorToEng(TwoSet(rev), text), w);
    } else if KorToEng(TwoSet(rev), korean) == run {
      NoKeyInOutput(Two(STD), km, run);
      AllHangul(km, run, korean);
      StripFacts(TwoSet(rev), km, korean);
      var text := Strip(korean);
      OnlySyllables(km, korean);
      SyllableKeys(rev, km, text);
      TypesUnique(km, run, w, LettersAll(Blocks(text)));
      RunOfSyllables(rev, km, run, text);
      forall g <- Groups(STD, w) ensures Plainly(g) {
        var i :| 0 <= i < |text| && g == Blocks(text)[i];
        assert text[i] in text;
        CanonicalIsPlain(text[i]);
      }
      AllChosen(TwoSet(rev), km, text);
      assert false;
    }
  }

  lemma NothingFormed()
    ensures WellFormed(STD, NOTHING)
  {
  }

  lemma NothingTypes()
    ensures Letters(NOTHING) == []
  {
  }

  lemma AllHangul(km: Keyboard, run: string, korean: string)
    requires forall ch <- run :: ch in km
    requires forall ch <- korean :: ch !in km && (IsHangul(ch) || ch in run)
    ensures forall ch <- korean :: IsHangul(ch)
  {
    hide IsHangul;
  }

  lemma SyllablesAreHangul(text: string)
    requires forall ch <- text :: IsSyllable(ch)
    ensures forall ch <- text :: IsHangul(ch)
  {
    hide IsSyllable;
  }

  lemma {:induction false} OnlySyllables(km: Keyboard, text: string)
    requires forall ch <- text :: IsHangul(ch)
    ensures forall ch <- Strip(text) :: IsSyllable(ch) && IsHangul(ch)
  {
    hide IsSyllable;
    if text != "" {
      assert text[0] in text && forall ch <- text[1..] :: ch in text;
      OnlySyllables(km, text[1..]);
    }
  }

  // ---------- all the runs ----------

  /** Keystrokes to Korean and back. */
  function Trip(cfg: Config, cv: Converter, km: Keyboard, keys: string): string {
    KorToEng(cv, Converted(cfg, km, keys))
  }

  /** Two splits at the first character that is no key are the same split. */
  lemma SameSplit(km: Keyboard, a: string, b: string, u: char, x: string, y: string)
    requires (forall ch <- a :: ch in km) && (forall ch <- x :: ch in km) && u !in km
    requires a + [u] + b == x + [u] + y
    ensures a == x && b == y
  {
    var s := a + [u] + b;
    KeysBefore(km, a, u, b);
    KeysBefore(km, x, u, y);
    assert s == x + [u] + y && s[|a|] !in km && s[|x|] !in km;
    assert |a| == |x|;
    assert a == s[..|a|] && x == s[..|a|] && b == s[|a| + 1..] && y == s[|a| + 1..];
  }

  lemma KeysBefore(km: Keyboard, a: string, u: char, b: string)
    requires (forall ch <- a :: ch in km) && u !in km
    ensures forall i | 0 <= i <= |a| :: (a + [u] + b)[i] in km <==> i < |a|
  {
    forall i | 0 <= i < |a| ensures (a + [u] + b)[i] in km {
      assert (a + [u] + b)[i] == a[i] && a[i] in a;
    }
  }

  /** A run of keys converts to keys again. */
  lemma RunWritesKeys(cfg: Config, cv: Converter, km: Keyboard, run: string)
    requires NoHangulKeys(km) && Reverses(cv.rev, km) && forall ch <- run :: ch in km
    ensures forall ch <- Trip(cfg, cv, km, run) :: ch in km
  {
    hide Converted, IsHangul, KorToEng, Reverses, NoHangulKeys;
    NoKeyInOutput(cfg, km, run);
    AllHangul(km, run, Converted(cfg, km, run));
    AllChosen(cv, km, Converted(cfg, km, run));
  }

  /** Cutting at a separator that stands for itself cuts the whole trip. */
  lemma TripCuts(cfg: Config, cv: Converter, km: Keyboard, run: string, u: char, rest: string)
    requires u !in km && !IsHangul(u) && u !in cv.other
    ensures Trip(cfg, cv, km, run + [u] + rest) == Trip(cfg, cv, km, run) + [u] + Trip(cfg, cv, km, rest)
  {
    hide Converted, IsHangul, KorToEng;
    SeparatorsCut(cfg, km, run, u, rest);
    var a, b := Converted(cfg, km, run), Converted(cfg, km, rest);
    KorToEngConcat(cv, a + [u], b);
    KorToEngConcat(cv, a, [u]);
    OwnKey(cv, u);
  }

  /** On any layout: keys with a separator survive if and only if the run before it and the
      keys after it do, and the separator stands for itself. */
  lemma TripSplits(cfg: Config, cv: Converter, km: Keyboard, keys: string, n: nat)
    requires NoHangulKeys(km) && WritesKeys(cv, km) && Reverses(cv.rev, km) && n == RunLength(km, keys) < |keys|
    ensures Trip(cfg, cv, km, keys) == keys <==>
            && !IsHangul(keys[n]) && keys[n] !in cv.other
            && Trip(cfg, cv, km, keys[..n]) == keys[..n] && Trip(cfg, cv, km, keys[n + 1..]) == keys[n + 1..]
  {
    hide Converted, IsHangul, KorToEng, Reverses, WritesKeys, NoHangulKeys, Trip;
    var run, u, rest := keys[..n], keys[n], keys[n + 1..];
    assert keys == run + [u] + rest && u in keys;
    if IsHangul(u) || u in cv.other {
      SeparatorLost(cfg, cv, km, keys, u);
    } else {
      TripCuts(cfg, cv, km, run, u, rest);
      RunWritesKeys(cfg, cv, km, run);
      var a, b := Trip(cfg, cv, km, run), Trip(cfg, cv, km, rest);
      if a + [u] + b == keys {
        SameSplit(km, a, b, u, run, rest);
      }
    }
  }

  lemma SeparatorLost(cfg: Config, cv: Converter, km: Keyboard, keys: string, u: char)
    requires WritesKeys(cv, km) && u !in km && (IsHangul(u) || u in cv.other)
    ensures u !in Trip(cfg, cv, km, keys)
  {
    hide Converted, IsHangul, KorToEng, WritesKeys;
    KeysOrText(cv, km, Converted(cfg, km, keys));
  }

  lemma TwoSetFits(rev: map<JamoEnum, char>, km: Keyboard)
    requires TwoSetKeyboard(km) && Reverses(rev, km)
    ensures NoHangulKeys(km) && WritesKeys(TwoSet(rev), km)
  {
  }

  /** Keystrokes survive the trip to Korean and back if and only if, between the characters
      that are no keys, they type whole syllables: no consonant jams, every syllable is typed
      with the letters the converter takes it apart into, every letter with the key the
      converter uses for it; and no separator is Hangul. */
  lemma {:induction false} KeystrokesRoundTripExactly(rev: map<JamoEnum, char>, km: Keyboard, keys: string)
    requires TwoSetKeyboard(km) && FullKeyboard(km) && Reverses(rev, km)
    ensures KorToEng(TwoSet(rev), Converted(Two(STD), km, keys)) == keys <==> Returns(rev, km, keys)
    decreases |keys|
  {
    hide Converted, IsHangul, KorToEng, FullKeyboard, RunReturns, Reverses, WritesKeys, TwoSetKeyboard, NoHangulKeys;
    TwoSetFits(rev, km);
    var n := RunLength(km, keys);
    RunExactly(rev, km, keys[..n]);
    if n == |keys| {
      assert keys[..n] == keys;
    } else {
      KeystrokesRoundTripExactly(rev, km, keys[n + 1..]);
      TripSplits(Two(STD), TwoSet(rev), km, keys, n);
    }
  }
}
