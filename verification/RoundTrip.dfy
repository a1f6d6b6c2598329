/** Korean text to keystrokes and back on the two-set layout. */
module RoundTrip {
  import opened Wrappers
  import opened Jamo
  import opened HangulChars
  import opened Fold
  import opened Automaton
  import opened InputContext
  import opened TwoBulParser
  import opened TwoBulText
  import opened Tables
  import opened TypeFix

  // ---------- reading the keys of whole syllables ----------

  /** What may follow a complete group: nothing, or the start of a syllable. */
  predicate Boundary(rest: seq<TwoSetKey>) {
    rest == [] || (|rest| > 1 && rest[0].Cho? && rest[1].Jung?)
  }

  /** The vowel keys of a group extend it one by one. */
  lemma {:induction false} ReadVowels(t: Table, g: Group, i: nat, w: seq<TwoSetKey>, rest: seq<TwoSetKey>)
    requires WellFormed(t, g) && g.finals == [] && i <= |g.vowels|
    requires w == VowelKeys(g.vowels[i..]) + rest
    ensures Parse(t, g.(vowels := g.vowels[..i]), w) == Parse(t, g, rest)
    decreases |g.vowels| - i
  {
    hide Parse, FoldVowels, Next, Breaks, Jams;
    if i == |g.vowels| {
      assert g.vowels[..i] == g.vowels && w == rest;
      assert g.(vowels := g.vowels) == g;
    } else {
      var p := g.(vowels := g.vowels[..i]);
      assert g.vowels[i] in g.vowels;
      assert w[0] == Jung(g.vowels[i]);
      assert g.vowels[..i] + [g.vowels[i]] == g.vowels[..i + 1];
      VowelsPrefix(t, g.vowels, i + 1);
      VowelStep(t, p, w);
      Kept(t, p, w);
      assert w[1..] == VowelKeys(g.vowels[i + 1..]) + rest;
      ReadVowels(t, g, i + 1, w[1..], rest);
    }
  }

  /** The final keys of a group extend it one by one, as no vowel follows any of them. */
  lemma {:induction false} ReadFinals(t: Table, g: Group, i: nat, w: seq<TwoSetKey>, rest: seq<TwoSetKey>)
    requires WellFormed(t, g) && g.finals != [] && i <= |g.finals| && Boundary(rest)
    requires w == InitialKeys(g.finals[i..]) + rest
    ensures Parse(t, g.(finals := g.finals[..i]), w) == Parse(t, g, rest)
    decreases |g.finals| - i
  {
    hide Parse, FoldFinals, FoldVowels, Next, Breaks;
    if i == |g.finals| {
      assert g.finals[..i] == g.finals && w == rest;
      assert g.(finals := g.finals) == g;
    } else {
      var p := g.(finals := g.finals[..i]);
      assert w[0] == Cho(g.finals[i]);
      assert g.finals[..i] + [g.finals[i]] == g.finals[..i + 1];
      FinalsPrefix(t, g.finals, i + 1);
      assert w[1..] == InitialKeys(g.finals[i + 1..]) + rest;
      assert |w| > 1 ==> w[1] == w[1..][0] && w[1].Cho?;
      ConsonantStep(t, p, w);
      Kept(t, p, w);
      ReadFinals(t, g, i + 1, w[1..], rest);
    }
  }

  /** All the keys of a group after its first bring the reading to the group. */
  lemma ReadGroup(t: Table, g: Group, w: seq<TwoSetKey>, rest: seq<TwoSetKey>)
    requires WellFormed(t, g) && Boundary(rest)
    requires w == VowelKeys(g.vowels) + InitialKeys(g.finals) + rest
    ensures Parse(t, Group(g.initial, [], []), w) == Parse(t, g, rest)
  {
    hide Parse, FoldVowels, FoldFinals, Boundary;
    var h := Group(g.initial, g.vowels, []);
    var w' := w[|g.vowels|..];
    assert w' == InitialKeys(g.finals) + rest;
    assert g.vowels[0..] == g.vowels && h.vowels[..0] == [];
    assert w == VowelKeys(h.vowels[0..]) + w';
    ReadVowels(t, h, 0, w, w');
    if g.finals != [] {
      assert g.finals[..0] == [] && g.finals[0..] == g.finals;
      ReadFinals(t, g, 0, w', rest);
    } else {
      assert w' == rest && h == g;
    }
  }

  predicate Complete(t: Table, g: Group) {
    WellFormed(t, g) && g.initial.Some? && g.vowels != []
  }

  lemma LettersStart(g: Group, rest: seq<JamoEnum>, w: seq<JamoEnum>)
    requires g.initial.Some? && g.vowels != [] && w == Letters(g) + rest
    ensures |w| > 1 && w[0] == Cho(g.initial.value) && w[1].Jung?
    ensures w[1..] == VowelKeys(g.vowels) + InitialKeys(g.finals) + rest
  {
  }

  /** The keys of complete syllables, end to end, read as exactly those syllables: although
      every initial could also have been the final of the syllable before it. */
  lemma {:induction false} ReadSyllables(t: Table, g: Group, bs: seq<Group>, w: seq<TwoSetKey>)
    requires WellFormed(t, g) && (forall b <- bs :: Complete(t, b)) && w == LettersAll(bs)
    ensures Parse(t, g, w) == Reading((if g == NOTHING then [] else [g]) + bs, true)
    decreases |bs|
  {
    hide Complete, Parse, Letters;
    if bs == [] {
      ParseNothing(t, g);
    } else {
      var b, tail := bs[0], bs[1..];
      assert b in bs && forall x <- tail :: x in bs;
      var rest := RestOf(t, b, tail, w);
      CompleteParts(t, b);
      LettersStart(b, rest, w);
      OpensSyllable(t, g, b, w);
      ReadGroup(t, b, w[1..], rest);
      ReadSyllables(t, b, tail, rest);
      assert [b] + tail == bs;
    }
  }

  lemma CompleteParts(t: Table, g: Group)
    requires Complete(t, g)
    ensures WellFormed(t, g) && g.initial.Some? && g.vowels != [] && g != NOTHING
  {
  }

  lemma RestOf(t: Table, b: Group, tail: seq<Group>, w: seq<TwoSetKey>) returns (rest: seq<TwoSetKey>)
    requires Complete(t, b) && (forall x <- tail :: Complete(t, x)) && w == Letters(b) + LettersAll(tail)
    ensures rest == LettersAll(tail) && Boundary(rest)
  {
    hide WellFormed;
    rest := w[|Letters(b)|..];
    if tail != [] {
      assert tail[0] in tail;
      LettersStart(tail[0], LettersAll(tail[1..]), LettersAll(tail));
    }
  }

  /** A consonant before a vowel always opens a syllable, and never jams. */
  lemma OpensSyllable(t: Table, g: Group, b: Group, w: seq<TwoSetKey>)
    requires |w| > 1 && w[0].Cho? && w[1].Jung? && b.initial == Some(w[0].cho)
    ensures var rest := Parse(t, Group(b.initial, [], []), w[1..]);
            Parse(t, g, w) == Reading((if g == NOTHING then [] else [g]) + rest.groups, rest.clean)
  {
    hide FinalFits;
  }

  lemma {:induction false} LettersTyped(t: Table, bs: seq<Group>)
    requires forall b <- bs :: Complete(t, b)
    ensures forall k <- LettersAll(bs) :: Proper(k) && !k.Jong?
  {
    hide Complete;
    if bs != [] {
      assert bs[0] in bs && forall x <- bs[1..] :: x in bs;
      GroupTyped(t, bs[0]);
      LettersTyped(t, bs[1..]);
    }
  }

  lemma GroupTyped(t: Table, b: Group)
    requires Complete(t, b)
    ensures forall k <- Letters(b) :: Proper(k) && !k.Jong?
  {
    hide FoldVowels, Combine;
    forall i | 0 <= i < |b.finals| ensures b.finals[i] >= 0 {
      FinalsPrefix(t, b.finals, i + 1);
    }
    forall i | 0 <= i < |b.vowels| ensures b.vowels[i] >= 0 {
      assert b.vowels[i] in b.vowels;
    }
  }

  /** Typing the keys of any complete syllables and committing yields exactly them. */
  lemma SyllablesSurviveTyping(t: Table, bs: seq<Group>, w: seq<TwoSetKey>)
    requires NoInitialPairs(t) && ProperTable(t)
    requires (forall b <- bs :: Complete(t, b)) && w == LettersAll(bs)
    ensures Groups(t, w) == bs && Parse(t, NOTHING, w).clean
    ensures Text2(t, w) == WrittenAll(t, bs)
  {
    hide Parse, Feed, Complete;
    FreshAt(t);
    ReadSyllables(t, NOTHING, bs, w);
    assert [] + bs == bs;
    ReadText(t, w);
  }

  // ---------- character level ----------

  /** Precomposed syllables, conjoining letters and compatibility letters. */
  predicate IsHangul(ch: char) {
    IsSyllable(ch) || 0x1100 <= ch as int <= 0x11FF || 0x3130 <= ch as int <= 0x318F
  }

  /** No key is itself a Hangul character. */
  predicate NoHangulKeys(km: Keyboard) {
    forall ch <- km :: !IsHangul(ch)
  }

  /** A two-set keyboard map: initials and vowels. */
  predicate TwoSetKeyboard(km: Keyboard) {
    NoHangulKeys(km) && forall ch <- km :: Proper(km[ch]) && !km[ch].Jong?
  }

  /** Every initial and every simple vowel has a key. */
  predicate FullKeyboard(km: Keyboard) {
    && (forall c: int | 0 <= c <= 18 :: Cho(c) in km.Values)
    && (forall v: int | 0 <= v <= 20 :: VowelParts(v) == [v] ==> Jung(v) in km.Values)
  }

  /** `rev` picks one key for every letter that has keys. */
  predicate Reverses(rev: map<JamoEnum, char>, km: Keyboard) {
    && (forall j <- rev :: rev[j] in km && km[rev[j]] == j)
    && (forall ch <- km :: !km[ch].Special? ==> km[ch] in rev)
  }

  function KeyFor(rev: map<JamoEnum, char>, j: JamoEnum): string {
    if j in rev then [rev[j]] else ""
  }

  function KeysFor(rev: map<JamoEnum, char>, js: seq<JamoEnum>): string {
    if js == [] then "" else KeyFor(rev, js[0]) + KeysFor(rev, js[1..])
  }

  /** How text becomes keystrokes: for a two-set or a three-set layout, with one key chosen
      for every letter and for every other character that a key of the layout types. */
  datatype Converter = Converter(threeSet: bool, rev: map<JamoEnum, char>, other: map<char, char>)

  /** Two-set layouts have keys for letters only. */
  function TwoSet(rev: map<JamoEnum, char>): Converter { Converter(false, rev, map[]) }

  /** The letters a syllable is taken apart into. A three-set layout has keys for finals, and
      doubled initials are taken apart as well. */
  function SyllableLetters(threeSet: bool, ch: char): seq<JamoEnum>
    requires IsSyllable(ch)
  {
    if !threeSet then Letters(Canonical(ch))
    else
      var h := FromSyllable(ch).value;
      InitialKeys(InitialParts(h.cho.value)) + VowelKeys(VowelParts(h.jung.value))
      + (if h.jong.value == 0 then [] else FinalJamos(FinalParts(h.jong.value)))
  }

  function FinalJamos(fs: seq<Final>): seq<JamoEnum> {
    seq(|fs|, i requires 0 <= i < |fs| => Jong(fs[i]))
  }

  /** The keystrokes of one character: a syllable is taken apart, other Hangul has no
      keystrokes at all, anything else stands for itself unless a key types it. */
  function CharKeys(cv: Converter, ch: char): string {
    if IsSyllable(ch) then KeysFor(cv.rev, SyllableLetters(cv.threeSet, ch))
    else if IsHangul(ch) then ""
    else if ch in cv.other then [cv.other[ch]]
    else [ch]
  }

  function KorToEng(cv: Converter, text: string): string {
    if text == "" then "" else CharKeys(cv, text[0]) + KorToEng(cv, text[1..])
  }

  lemma {:induction false} KorToEngConcat(cv: Converter, a: string, b: string)
    ensures KorToEng(cv, a + b) == KorToEng(cv, a) + KorToEng(cv, b)
  {
    hide CharKeys;
    if a == "" {
      assert a + b == b;
    } else {
      assert (a + b)[1..] == a[1..] + b;
      KorToEngConcat(cv, a[1..], b);
    }
  }

  /** The converter's loop over the characters. */
  method KoreanToKeystrokes(cv: Converter, text: string) returns (keys: string)
    ensures keys == KorToEng(cv, text)
  {
    hide KorToEng, CharKeys, SyllableLetters;
    keys := "";
    KeysOfNothing(cv);
    for i := 0 to |text|
      invariant keys == KorToEng(cv, text[..i])
    {
      assert text[..i + 1] == text[..i] + [text[i]];
      KorToEngConcat(cv, text[..i], [text[i]]);
      KeysOfOne(cv, text[i]);
      if IsSyllable(text[i]) {
        var syllable := AppendSyllableKeystrokes(cv, text[i]);
        keys := keys + syllable;
      } else if !IsHangul(text[i]) {
        keys := keys + [if text[i] in cv.other then cv.other[text[i]] else text[i]];
      }
    }
    assert text[..|text|] == text;
  }

  lemma KeysOfNothing(cv: Converter)
    ensures KorToEng(cv, "") == ""
  {
  }

  lemma KeysOfOne(cv: Converter, ch: char)
    ensures KorToEng(cv, [ch]) == CharKeys(cv, ch)
    ensures CharKeys(cv, ch) == if IsSyllable(ch) then KeysFor(cv.rev, SyllableLetters(cv.threeSet, ch))
                                else if IsHangul(ch) then ""
                                else [if ch in cv.other then cv.other[ch] else ch]
  {
    hide SyllableLetters;
    assert [ch][1..] == "";
  }

  /** Letter by letter; a letter without a key is skipped. */
  method AppendSyllableKeystrokes(cv: Converter, ch: char) returns (keys: string)
    requires IsSyllable(ch)
    ensures keys == KeysFor(cv.rev, SyllableLetters(cv.threeSet, ch))
  {
    hide SyllableLetters, KeyFor;
    var js := SyllableLetters(cv.threeSet, ch);
    keys := "";
    for i := 0 to |js|
      invariant keys == KeysFor(cv.rev, js[..i])
    {
      keys := keys + KeyFor(cv.rev, js[i]);
      assert js[..i + 1] == js[..i] + [js[i]];
      KeysForSnoc(cv.rev, js[..i], js[i]);
    }
    assert js[..|js|] == js;
  }

  lemma {:induction false} KeysForSnoc(rev: map<JamoEnum, char>, js: seq<JamoEnum>, j: JamoEnum)
    ensures KeysFor(rev, js + [j]) == KeysFor(rev, js) + KeyFor(rev, j)
  {
    hide KeyFor;
    if js == [] {
      assert [j][1..] == [] && js + [j] == [j] && KeysFor(rev, [j][1..]) == "";
    } else {
      assert (js + [j])[1..] == js[1..] + [j];
      KeysForSnoc(rev, js[1..], j);
    }
  }

  /** Keys and nothing but keys: conversion is feeding the composer and committing. */
  lemma {:induction false} MappedIsFeed(cfg: Config, km: Keyboard, text: string, ss: seq<Stroke>)
    requires (forall ch <- text :: ch in km) && |ss| == |text|
    requires forall i | 0 <= i < |ss| :: ss[i] == Stroke(km[text[i]], DEFAULT_META)
    ensures var x := TypeAll(cfg, km, NEW, text); var r := Feed(cfg, FRESH, ss);
            x.st == r.st && x.committed == r.text && !x.accumulateWord
    decreases |text|
  {
    hide Add, Display, Feed;
    if text == "" {
      assert Feed(cfg, FRESH, ss) == Run(FRESH, "") by { FeedNothing(cfg, FRESH); }
    } else {
      assert Last(text) in text && forall ch <- Init(text) :: ch in text;
      MappedIsFeed(cfg, km, Init(text), Init(ss));
      assert ss == Init(ss) + [Last(ss)];
      FeedAppend(cfg, FRESH, Init(ss), [Last(ss)]);
      FeedOne(cfg, Feed(cfg, FRESH, Init(ss)).st, Last(ss));
    }
  }

  lemma FeedNothing(cfg: Config, st: State)
    ensures Feed(cfg, st, []) == Run(st, "")
  {
  }

  lemma FeedOne(cfg: Config, st: State, s: Stroke)
    ensures var r := Add(cfg, st, s); Feed(cfg, st, [s]) == Run(r.st, Emit(r.out))
  {
  }

  lemma ConvertedIsTextOf(cfg: Config, km: Keyboard, text: string, ss: seq<Stroke>)
    requires (forall ch <- text :: ch in km) && |ss| == |text|
    requires forall i | 0 <= i < |ss| :: ss[i] == Stroke(km[text[i]], DEFAULT_META)
    ensures Converted(cfg, km, text) == TextOf(cfg, FRESH, ss)
  {
    hide Feed, TypeAll, Force;
    MappedIsFeed(cfg, km, text, ss);
  }

  /** Conversion of keys only is the text the composer shows. */
  lemma ConvertedIsText(t: Table, km: Keyboard, text: string, w: seq<TwoSetKey>)
    requires (forall ch <- text :: ch in km) && |w| == |text|
    requires forall i | 0 <= i < |w| :: w[i] == km[text[i]]
    ensures Converted(Two(t), km, text) == Text2(t, w)
  {
    hide Converted, TextOf;
    ConvertedIsTextOf(Two(t), km, text, Keys(w));
  }

  lemma {:induction false} KeysForTyped(rev: map<JamoEnum, char>, km: Keyboard, js: seq<JamoEnum>)
    requires Reverses(rev, km) && forall j <- js :: j in rev
    ensures var s := KeysFor(rev, js);
            |s| == |js| && forall i | 0 <= i < |js| :: s[i] in km && km[s[i]] == js[i]
  {
    if js != [] {
      assert js[0] in js && forall j <- js[1..] :: j in js;
      KeysForTyped(rev, km, js[1..]);
      forall i | 0 <= i < |js| ensures KeysFor(rev, js)[i] in km && km[KeysFor(rev, js)[i]] == js[i] {
        if i > 0 {
          assert js[i] == js[1..][i - 1];
        }
      }
    }
  }

  lemma CanonicalKeysExist(rev: map<JamoEnum, char>, km: Keyboard, ch: char)
    requires Reverses(rev, km) && FullKeyboard(km) && IsSyllable(ch)
    ensures forall j <- Letters(Canonical(ch)) :: j in rev
  {
    hide Canonical, VowelParts, IsSyllable, Complete;
    var g := Canonical(ch);
    CanonicalComplete(ch);
    GroupTyped(STD, g);
    CanonicalVowels(ch);
    forall j <- Letters(g) ensures j in rev {
      if j.Cho? {
        assert Cho(j.cho) in km.Values;
      } else {
        assert exists i :: 0 <= i < |g.vowels| && j == Jung(g.vowels[i]);
        assert j.jung in g.vowels;
        assert Jung(j.jung) in km.Values;
      }
      var key :| key in km && km[key] == j;
    }
  }

  lemma CanonicalVowels(ch: char)
    requires IsSyllable(ch)
    ensures forall v <- Canonical(ch).vowels :: VowelParts(v) == [v]
  {
  }

  function Blocks(text: string): (bs: seq<Group>)
    requires forall ch <- text :: IsSyllable(ch)
    ensures |bs| == |text|
    ensures forall i | 0 <= i < |text| :: bs[i] == Canonical(text[i])
  {
    seq(|text|, i requires 0 <= i < |text| => Canonical(text[i]))
  }

  /** The characters `s` are keys that type `js`. */
  predicate Types(km: Keyboard, s: string, js: seq<JamoEnum>) {
    |s| == |js| && forall i | 0 <= i < |s| :: s[i] in km && km[s[i]] == js[i]
  }

  /** The canonical keys of a text of syllables mean the text. */
  lemma {:induction false} BlocksComplete(text: string)
    requires forall ch <- text :: IsSyllable(ch)
    ensures forall b <- Blocks(text) :: Complete(STD, b)
    ensures WrittenAll(STD, Blocks(text)) == text
  {
    hide Canonical, Written, Complete, IsSyllable, Blocks;
    if text == "" {
      NoBlocks();
    } else {
      assert text[0] in text && forall ch <- text[1..] :: ch in text;
      var b, bs := Canonical(text[0]), Blocks(text[1..]);
      FirstBlock(text);
      assert ([b] + bs)[1..] == bs;
      BlocksComplete(text[1..]);
      CanonicalComplete(text[0]);
      assert text == [text[0]] + text[1..];
    }
  }

  lemma FirstBlock(text: string)
    requires text != "" && (forall ch <- text :: IsSyllable(ch)) && forall ch <- text[1..] :: ch in text
    ensures Blocks(text) == [Canonical(text[0])] + Blocks(text[1..])
  {
    hide Canonical, IsSyllable;
  }

  lemma NoBlocks()
    ensures Blocks("") == [] && WrittenAll(STD, []) == ""
  {
  }

  lemma {:induction false} SyllableKeys(rev: map<JamoEnum, char>, km: Keyboard, text: string)
    requires Reverses(rev, km) && FullKeyboard(km) && forall ch <- text :: IsSyllable(ch)
    ensures Types(km, KorToEng(TwoSet(rev), text), LettersAll(Blocks(text)))
  {
    hide Canonical, Letters, Reverses, FullKeyboard, Types, CharKeys, IsSyllable;
    if text == "" {
      NothingTyped(km);
    } else {
      assert text[0] in text && forall ch <- text[1..] :: ch in text;
      var b, bs := Canonical(text[0]), Blocks(text[1..]);
      assert Blocks(text) == [b] + bs && ([b] + bs)[1..] == bs;
      SyllableKeys(rev, km, text[1..]);
      CanonicalTyped(rev, km, text[0]);
      TypesConcat(km, CharKeys(TwoSet(rev), text[0]), Letters(b), KorToEng(TwoSet(rev), text[1..]), LettersAll(bs));
    }
  }

  lemma NothingTyped(km: Keyboard)
    ensures Types(km, "", []) && LettersAll(Blocks("")) == []
  {
  }

  lemma CanonicalComplete(ch: char)
    requires IsSyllable(ch)
    ensures Complete(STD, Canonical(ch)) && Written(STD, Canonical(ch)) == [ch]
  {
    hide Canonical;
    CanonicalMeans(ch);
  }

  lemma CanonicalTyped(rev: map<JamoEnum, char>, km: Keyboard, ch: char)
    requires Reverses(rev, km) && FullKeyboard(km) && IsSyllable(ch)
    ensures Types(km, CharKeys(TwoSet(rev), ch), Letters(Canonical(ch)))
  {
    hide Canonical, Letters, Reverses, FullKeyboard;
    CanonicalKeysExist(rev, km, ch);
    KeysForTyped(rev, km, Letters(Canonical(ch)));
  }

  lemma TypesConcat(km: Keyboard, a: string, ja: seq<JamoEnum>, b: string, jb: seq<JamoEnum>)
    requires Types(km, a, ja) && Types(km, b, jb)
    ensures Types(km, a + b, ja + jb)
  {
  }

  /** Any text of precomposed syllables survives the trip to keystrokes and back. */
  lemma SyllablesRoundTrip(rev: map<JamoEnum, char>, km: Keyboard, text: string)
    requires Reverses(rev, km) && FullKeyboard(km) && forall ch <- text :: IsSyllable(ch)
    ensures Converted(Two(STD), km, KorToEng(TwoSet(rev), text)) == text
  {
    hide Complete, Reverses, FullKeyboard, Text2;
    var bs := Blocks(text);
    SyllableKeys(rev, km, text);
    BlocksComplete(text);
    LettersTyped(STD, bs);
    var w: seq<TwoSetKey> := LettersAll(bs);
    StdFits();
    SyllablesSurviveTyping(STD, bs, w);
    ConvertedIsText(STD, km, KorToEng(TwoSet(rev), text), w);
  }

  // ---------- any text, on any layout whose syllables survive ----------

  /** All texts of precomposed syllables survive the trip to keystrokes and back. */
  ghost predicate SyllablesReturn(cfg: Config, cv: Converter, km: Keyboard) {
    forall text: string | (forall ch <- text :: IsSyllable(ch)) :: Converted(cfg, km, KorToEng(cv, text)) == text
  }

  /** Characters the round trip keeps: syllables, and whatever is neither Hangul nor a key nor
      what some key of the layout types instead of a letter. */
  predicate Stable(cv: Converter, km: Keyboard, ch: char) {
    IsSyllable(ch) || (!IsHangul(ch) && ch !in km && ch !in cv.other)
  }

  lemma {:induction false} StableTextReturns(cfg: Config, cv: Converter, km: Keyboard, text: string)
    requires SyllablesReturn(cfg, cv, km) && forall ch <- text :: Stable(cv, km, ch)
    ensures Converted(cfg, km, KorToEng(cv, text)) == text
    decreases |text|
  {
    hide Converted, KorToEng, IsHangul, IsSyllable;
    if i :| 0 <= i < |text| && !IsSyllable(text[i]) && forall j | 0 <= j < i :: IsSyllable(text[j]) {
      var a, u, b := text[..i], text[i], text[i + 1..];
      assert text == a + [u] + b && u in text;
      assert forall ch <- b :: ch in text;
      KorToEngConcat(cv, a + [u], b);
      KorToEngConcat(cv, a, [u]);
      OwnKey(cv, u);
      SeparatorsCut(cfg, km, KorToEng(cv, a), u, KorToEng(cv, b));
      StableTextReturns(cfg, cv, km, b);
    } else {
      AllSyllables(text, |text|);
    }
  }

  lemma OwnKey(cv: Converter, u: char)
    requires !IsHangul(u) && u !in cv.other
    ensures KorToEng(cv, [u]) == [u]
  {
    KeysOfOne(cv, u);
  }

  lemma {:induction false} AllSyllables(text: string, n: nat)
    requires n <= |text|
    requires !exists i :: 0 <= i < |text| && !IsSyllable(text[i]) && forall j | 0 <= j < i :: IsSyllable(text[j])
    ensures forall j | 0 <= j < n :: IsSyllable(text[j])
  {
    if n > 0 {
      AllSyllables(text, n - 1);
    }
  }

  // ---------- and only those ----------

  lemma ClosedIsHangul(h: HangulChar)
    ensures Render(h).Some? ==> IsHangul(Render(h).value)
    ensures GetSyllable(h).Some? ==> IsHangul(GetSyllable(h).value)
  {
    CompatRange(if h.cho.Some? then h.cho.value else 0,
                if h.jung.Some? then h.jung.value else 0,
                if h.jong.Some? then h.jong.value else 0);
  }

  lemma OutputIsHangul(cfg: Config, st: State, s: Stroke)
    ensures Add(cfg, st, s).out.Some? ==> IsHangul(Add(cfg, st, s).out.value)
    ensures Force(cfg.table, st).out.Some? ==> IsHangul(Force(cfg.table, st).out.value)
  {
    hide Render, GetSyllable, Recompose, TryCompose, ToCho, ToJong, IsHangul, Reversed, SetRegion;
    forall h {
      ClosedIsHangul(h);
    }
  }

  /** What conversion writes: Hangul, and the characters of the input that are no keys. */
  predicate Output(km: Keyboard, text: string, ch: char) {
    IsHangul(ch) || (ch in text && ch !in km)
  }

  lemma {:induction false} OutputOf(cfg: Config, km: Keyboard, text: string)
    ensures var x := TypeAll(cfg, km, NEW, text);
            && !x.accumulateWord && (forall ch <- x.committed :: Output(km, text, ch))
            && (forall ch <- Commit(cfg, x).committed :: Output(km, text, ch))
  {
    hide Add, Force, Display, IsHangul;
    if text != "" {
      OutputOf(cfg, km, Init(text));
      assert Last(text) in text && forall ch <- Init(text) :: ch in text;
      var x := TypeAll(cfg, km, NEW, Init(text));
      var s := Stroke(if Last(text) in km then km[Last(text)] else Special(' '), DEFAULT_META);
      OutputIsHangul(cfg, x.st, s);
      OutputIsHangul(cfg, Force(cfg.table, x.st).st, s);
    }
    OutputIsHangul(cfg, TypeAll(cfg, km, NEW, text).st, Stroke(Special(' '), DEFAULT_META));
  }

  /** No typed key shows up in the converted text: it is Hangul and the characters that are
      no keys. */
  lemma NoKeyInOutput(cfg: Config, km: Keyboard, text: string)
    requires NoHangulKeys(km)
    ensures forall ch <- Converted(cfg, km, text) :: ch !in km && (IsHangul(ch) || ch in text)
  {
    hide IsHangul, Commit, TypeAll;
    OutputOf(cfg, km, text);
  }

  /** The converter writes keys and characters of the text that nothing types. */
  predicate WritesKeys(cv: Converter, km: Keyboard) {
    (forall j <- cv.rev :: cv.rev[j] in km) && (forall ch <- cv.other :: cv.other[ch] in km)
  }

  lemma {:induction false} KeysOrText(cv: Converter, km: Keyboard, text: string)
    requires WritesKeys(cv, km)
    ensures forall ch <- KorToEng(cv, text) :: ch in km || (ch in text && !IsHangul(ch) && ch !in cv.other)
  {
    hide SyllableLetters, IsHangul, IsSyllable, KeysFor;
    if text != "" {
      KeysOrText(cv, km, text[1..]);
      assert text[0] in text && forall ch <- text[1..] :: ch in text;
      if IsSyllable(text[0]) {
        KeysForKeys(cv, km, SyllableLetters(cv.threeSet, text[0]));
      }
    }
  }

  lemma {:induction false} KeysForKeys(cv: Converter, km: Keyboard, js: seq<JamoEnum>)
    requires WritesKeys(cv, km)
    ensures forall ch <- KeysFor(cv.rev, js) :: ch in km
  {
    if js != [] {
      KeysForKeys(cv, km, js[1..]);
    }
  }

  /** The text without the Hangul letters that have no keystrokes. */
  function Strip(text: string): string {
    if text == "" then ""
    else (if IsHangul(text[0]) && !IsSyllable(text[0]) then "" else [text[0]]) + Strip(text[1..])
  }

  lemma DroppedKeys(cv: Converter, ch: char)
    requires IsHangul(ch) && !IsSyllable(ch)
    ensures CharKeys(cv, ch) == ""
  {
  }

  lemma StripNothing()
    ensures Strip("") == ""
  {
  }

  lemma StripCons(text: string)
    requires text != ""
    ensures Strip(text) == (if IsHangul(text[0]) && !IsSyllable(text[0]) then [] else [text[0]]) + Strip(text[1..])
  {
  }

  lemma {:induction false} StripFacts(cv: Converter, km: Keyboard, text: string)
    requires forall ch <- text :: IsHangul(ch) || (ch !in km && ch !in cv.other)
    ensures KorToEng(cv, Strip(text)) == KorToEng(cv, text)
    ensures forall ch <- Strip(text) :: Stable(cv, km, ch)
    ensures |Strip(text)| <= |text|
    ensures Strip(text) == text ==> forall ch <- text :: Stable(cv, km, ch)
  {
    hide CharKeys, IsHangul, IsSyllable, Strip;
    if text == "" {
      StripNothing();
    } else {
      assert text[0] in text && forall ch <- text[1..] :: ch in text;
      StripFacts(cv, km, text[1..]);
      StripCons(text);
      assert text == [text[0]] + text[1..];
      if IsHangul(text[0]) && !IsSyllable(text[0]) {
        DroppedKeys(cv, text[0]);
        assert Strip(text) == Strip(text[1..]);
      } else {
        assert Strip(text)[0] == text[0] && Strip(text)[1..] == Strip(text[1..]);
      }
    }
  }

  /** When syllables survive: a text survives the trip to keystrokes and back if and only if
      each of its characters is stable. */
  lemma TextReturnsExactly(cfg: Config, cv: Converter, km: Keyboard, text: string)
    requires SyllablesReturn(cfg, cv, km) && NoHangulKeys(km) && WritesKeys(cv, km)
    ensures Converted(cfg, km, KorToEng(cv, text)) == text <==> forall ch <- text :: Stable(cv, km, ch)
  {
    hide Converted, KorToEng, Strip, IsHangul, IsSyllable, SyllablesReturn, WritesKeys, NoHangulKeys;
    if forall ch <- text :: Stable(cv, km, ch) {
      StableTextReturns(cfg, cv, km, text);
    } else if forall ch <- text :: IsHangul(ch) || (ch !in km && ch !in cv.other) {
      StripFacts(cv, km, text);
      StableTextReturns(cfg, cv, km, Strip(text));
    } else {
      NoKeyInOutput(cfg, km, KorToEng(cv, text));
      KeysOrText(cv, km, text);
    }
  }

  // ---------- the two-set layout ----------

  lemma TwoSetReturns(rev: map<JamoEnum, char>, km: Keyboard)
    requires FullKeyboard(km) && Reverses(rev, km)
    ensures SyllablesReturn(Two(STD), TwoSet(rev), km) && WritesKeys(TwoSet(rev), km)
  {
    hide Converted, KorToEng, IsSyllable, FullKeyboard;
    forall text: string | forall ch <- text :: IsSyllable(ch)
      ensures Converted(Two(STD), km, KorToEng(TwoSet(rev), text)) == text
    {
      SyllablesRoundTrip(rev, km, text);
    }
  }

  /** A text survives the trip to keystrokes and back if and only if each of its characters
      is a precomposed syllable, or is neither Hangul nor a key of the Korean layout. */
  lemma RoundTripExactly(rev: map<JamoEnum, char>, km: Keyboard, text: string)
    requires TwoSetKeyboard(km) && FullKeyboard(km) && Reverses(rev, km)
    ensures Converted(Two(STD), km, KorToEng(TwoSet(rev), text)) == text
       <==> forall ch <- text :: IsSyllable(ch) || (!IsHangul(ch) && ch !in km)
  {
    hide Converted, KorToEng, IsHangul, IsSyllable, SyllablesReturn, WritesKeys, FullKeyboard, Reverses, NoHangulKeys;
    TwoSetReturns(rev, km);
    TextReturnsExactly(Two(STD), TwoSet(rev), km, text);
    assert forall ch :: Stable(TwoSet(rev), km, ch) <==> IsSyllable(ch) || (!IsHangul(ch) && ch !in km);
  }
}
