/** Which keys write which syllable, key by key: the standard two-set keyboard and ko_3bul390
    (src/keystroke/keymap, src/keystroke/korean_to_keystrokes.rs). */
module Spelling {
  import opened Wrappers
  import opened Jamo
  import opened HangulChars
  import opened Automaton
  import opened TwoBulParser
  import opened Tables
  import opened TypeFix
  import opened RoundTrip
  import Qwerty
  import Three = ThreeSetQwerty

  // ---------- keys, one after another ----------

  lemma {:induction false} KeysForConcat(rev: map<JamoEnum, char>, a: seq<JamoEnum>, b: seq<JamoEnum>)
    ensures KeysFor(rev, a + b) == KeysFor(rev, a) + KeysFor(rev, b)
  {
    hide KeyFor;
    if a == [] {
      assert a + b == b;
    } else {
      assert (a + b)[1..] == a[1..] + b;
      KeysForConcat(rev, a[1..], b);
    }
  }

  /** The letters `js` are written with the keys `keys`, one each. */
  predicate Writes(rev: map<JamoEnum, char>, js: seq<JamoEnum>, keys: string) {
    |keys| == |js| && forall i | 0 <= i < |js| :: js[i] in rev && rev[js[i]] == keys[i]
  }

  lemma {:induction false} WrittenWith(rev: map<JamoEnum, char>, js: seq<JamoEnum>, keys: string)
    requires Writes(rev, js, keys)
    ensures KeysFor(rev, js) == keys
  {
    if js != [] {
      assert keys == [keys[0]] + keys[1..];
      WrittenWith(rev, js[1..], keys[1..]);
    }
  }

  // ---------- the standard two-set keyboard ----------

  const INITIALS: string := "rRseEfaqQtTdwWczxvg"

  const VOWELS: seq<string> := [
    "k", "o", "i", "O", "j", "p", "u", "P", "h", "hk", "ho", "hl", "y", "n", "nj", "np", "nl", "b", "m", "ml", "l"
  ]

  const FINALS: seq<string> := [
    "", "r", "rr", "rt", "s", "sw", "sg", "e", "f", "fr", "fa", "fq", "ft", "fx", "fv", "fg", "a", "q", "qt", "t",
    "tt", "d", "w", "c", "z", "x", "v", "g"
  ]

  lemma InitialKey(c: Initial)
    requires c >= 0
    ensures Qwerty.KeyOf(Cho(c)) == INITIALS[c]
  {
  }

  lemma VowelKeysAre(v: Medial)
    requires v >= 0
    ensures |VowelParts(v)| == |VOWELS[v]| && forall i | 0 <= i < |VOWELS[v]| ::
            VowelParts(v)[i] >= 0 && Qwerty.KeyOf(Jung(VowelParts(v)[i])) == VOWELS[v][i]
  {
  }

  lemma VowelPartsPlain(v: Medial)
    requires v >= 0
    ensures forall p <- VowelParts(v) :: p >= 0 && VowelParts(p) == [p]
  {
  }

  lemma FinalPartsAre(f: Final)
    requires f > 0
    ensures |FinalParts(f)| == |FINALS[f]| && forall i | 0 <= i < |FINALS[f]| ::
            ToCho(FinalParts(f)[i]).Some? && INITIALS[ToCho(FinalParts(f)[i]).value] == FINALS[f][i]
  {
  }

  lemma InReverse(j: JamoEnum)
    requires Proper(j) && (j.Cho? || (j.Jung? && VowelParts(j.jung) == [j.jung]))
    ensures j in Qwerty.REVERSE && Qwerty.REVERSE[j] == Qwerty.KeyOf(j)
  {
    hide Qwerty.KeyOf, VowelParts;
    Qwerty.KeyOfLetter(j);
  }

  lemma VowelSpelling(v: Medial)
    requires v >= 0
    ensures KeysFor(Qwerty.REVERSE, VowelKeys(VowelParts(v))) == VOWELS[v]
  {
    hide Qwerty.KeyOf, VowelParts;
    VowelKeysAre(v);
    VowelPartsPlain(v);
    var js := VowelKeys(VowelParts(v));
    forall i | 0 <= i < |js| ensures js[i] in Qwerty.REVERSE && Qwerty.REVERSE[js[i]] == VOWELS[v][i] {
      assert VowelParts(v)[i] in VowelParts(v);
      InReverse(js[i]);
    }
    WrittenWith(Qwerty.REVERSE, js, VOWELS[v]);
  }

  lemma FinalSpelling(f: Final)
    requires f > 0
    ensures KeysFor(Qwerty.REVERSE, InitialKeys(FinalKeys(f))) == FINALS[f]
  {
    hide Qwerty.KeyOf, FinalParts, ToCho;
    FinalPartsAre(f);
    var js := InitialKeys(FinalKeys(f));
    forall i | 0 <= i < |js| ensures js[i] in Qwerty.REVERSE && Qwerty.REVERSE[js[i]] == FINALS[f][i] {
      InitialKey(js[i].cho);
      InReverse(js[i]);
    }
    WrittenWith(Qwerty.REVERSE, js, FINALS[f]);
  }

  lemma TakenApart(c: Initial, v: Medial, f: Final, ch: char)
    requires c >= 0 && v >= 0 && ch == SyllableCode(c, v, f) as char
    ensures IsSyllable(ch)
    ensures Letters(Canonical(ch)) == [Cho(c)] + VowelKeys(VowelParts(v))
                                    + (if f == 0 then [] else InitialKeys(FinalKeys(f)))
  {
    hide VowelParts, FinalKeys;
    LettersRoundTrip(c, v, f);
    assert InitialKeys([]) == [];
  }

  /** How every syllable is spelled on the standard keyboard. */
  lemma StandardSpelling(c: Initial, v: Medial, f: Final)
    requires c >= 0 && v >= 0
    ensures KorToEng(TwoSet(Qwerty.REVERSE), [SyllableCode(c, v, f) as char])
            == [INITIALS[c]] + VOWELS[v] + FINALS[f]
  {
    hide Qwerty.KeyOf, VowelParts, FinalKeys, KeysFor, SyllableCode, Canonical, Letters,
      IsSyllable, IsHangul, InitialKeys, VowelKeys;
    var ch := SyllableCode(c, v, f) as char;
    var rev := Qwerty.REVERSE;
    TakenApart(c, v, f, ch);
    KeysOfOne(TwoSet(rev), ch);
    var vowel, final := VowelKeys(VowelParts(v)), if f == 0 then [] else InitialKeys(FinalKeys(f));
    KeysForConcat(rev, [Cho(c)] + vowel, final);
    KeysForConcat(rev, [Cho(c)], vowel);
    InReverse(Cho(c));
    InitialKey(c);
    WrittenWith(rev, [Cho(c)], [INITIALS[c]]);
    VowelSpelling(v);
    if f == 0 {
      NoKeys(rev);
      NoFinalKeys();
    } else {
      FinalSpelling(f);
    }
  }

  lemma NoKeys(rev: map<JamoEnum, char>)
    ensures KeysFor(rev, []) == ""
  {
  }

  lemma NoFinalKeys()
    ensures FINALS[0] == ""
  {
  }

  /** Shift changes the letter of seven keys only. */
  lemma ShiftedKeys(ch: char)
    requires 'A' <= ch <= 'Z'
    ensures Qwerty.Typed(ch) != Qwerty.Typed(Qwerty.Lower(ch)) <==> ch in "QWERTOP"
  {
  }

  lemma Spelled(ch: char, c: Initial, v: Medial, f: Final, keys: string)
    requires c >= 0 && v >= 0 && ch as int == 0xAC00 + (c * 21 + v) * 28 + f
    requires keys == [INITIALS[c]] + VOWELS[v] + FINALS[f]
    ensures IsSyllable(ch) && KorToEng(TwoSet(Qwerty.REVERSE), [ch]) == keys
  {
    hide KorToEng, Qwerty.KeyOf, INITIALS, VOWELS, FINALS;
    StandardSpelling(c, v, f);
  }

  /** Two texts of keystrokes, one after the other. */
  lemma Joined(a: string, b: string, ka: string, kb: string, text: string, keys: string)
    requires KorToEng(TwoSet(Qwerty.REVERSE), a) == ka && KorToEng(TwoSet(Qwerty.REVERSE), b) == kb
    requires text == a + b && keys == ka + kb
    ensures KorToEng(TwoSet(Qwerty.REVERSE), text) == keys
  {
    hide KorToEng, Qwerty.REVERSE;
    KorToEngConcat(TwoSet(Qwerty.REVERSE), a, b);
  }

  lemma Digit(ch: char)
    requires '0' <= ch <= '9'
    ensures KorToEng(TwoSet(Qwerty.REVERSE), [ch]) == [ch] && !IsHangul(ch)
  {
    KeysOfOne(TwoSet(Qwerty.REVERSE), ch);
  }

  const HANGUL: string := "\U{D55C}\U{AE00}"
  const GREETING: string := "\U{C548}\U{B155}\U{D558}\U{C138}\U{C694}"

  lemma HangulKeys()
    ensures KorToEng(TwoSet(Qwerty.REVERSE), HANGUL) == "gksrmf" && forall ch <- HANGUL :: IsSyllable(ch)
  {
    hide KorToEng, Qwerty.REVERSE;
    Spelled('\U{D55C}', 18, 0, 4, "gks");
    Spelled('\U{AE00}', 0, 18, 8, "rmf");
    Joined("\U{D55C}", "\U{AE00}", "gks", "rmf", HANGUL, "gksrmf");
  }

  lemma GreetingStart()
    ensures KorToEng(TwoSet(Qwerty.REVERSE), "\U{C548}\U{B155}\U{D558}") == "dkssudgk"
    ensures forall ch <- "\U{C548}\U{B155}\U{D558}" :: IsSyllable(ch)
  {
    hide KorToEng, Qwerty.REVERSE;
    Spelled('\U{C548}', 11, 0, 4, "dks");
    Spelled('\U{B155}', 2, 6, 21, "sud");
    Spelled('\U{D558}', 18, 0, 0, "gk");
    Joined("\U{C548}", "\U{B155}", "dks", "sud", "\U{C548}\U{B155}", "dkssud");
    Joined("\U{C548}\U{B155}", "\U{D558}", "dkssud", "gk", "\U{C548}\U{B155}\U{D558}", "dkssudgk");
  }

  lemma GreetingEnd()
    ensures KorToEng(TwoSet(Qwerty.REVERSE), "\U{C138}\U{C694}") == "tpdy"
    ensures forall ch <- "\U{C138}\U{C694}" :: IsSyllable(ch)
  {
    hide KorToEng, Qwerty.REVERSE;
    Spelled('\U{C138}', 9, 5, 0, "tp");
    Spelled('\U{C694}', 11, 12, 0, "dy");
    Joined("\U{C138}", "\U{C694}", "tp", "dy", "\U{C138}\U{C694}", "tpdy");
  }

  lemma GreetingKeys()
    ensures KorToEng(TwoSet(Qwerty.REVERSE), GREETING) == "dkssudgktpdy" && forall ch <- GREETING :: IsSyllable(ch)
  {
    hide KorToEng, Qwerty.REVERSE, IsSyllable;
    GreetingStart();
    GreetingEnd();
    Joined("\U{C548}\U{B155}\U{D558}", "\U{C138}\U{C694}", "dkssudgk", "tpdy", GREETING, "dkssudgktpdy");
    assert GREETING == "\U{C548}\U{B155}\U{D558}" + "\U{C138}\U{C694}";
  }

  lemma MixedKeys()
    ensures KorToEng(TwoSet(Qwerty.REVERSE), HANGUL + "123") == "gksrmf123"
  {
    hide KorToEng, Qwerty.REVERSE, HANGUL;
    HangulKeys();
    Digit('1');
    Digit('2');
    Digit('3');
    Joined("1", "2", "1", "2", "12", "12");
    Joined("12", "3", "12", "3", "123", "123");
    Joined(HANGUL, "123", "gksrmf", "123", HANGUL + "123", "gksrmf123");
  }

  /** The repository's own examples, in both directions. */
  lemma Examples()
    ensures KorToEng(TwoSet(Qwerty.REVERSE), "\U{D55C}\U{AE00}") == "gksrmf"
    ensures Converted(Two(STD), Qwerty.QWERTY, "gksrmf") == "\U{D55C}\U{AE00}"
    ensures KorToEng(TwoSet(Qwerty.REVERSE), "\U{C548}\U{B155}\U{D558}\U{C138}\U{C694}") == "dkssudgktpdy"
    ensures Converted(Two(STD), Qwerty.QWERTY, "dkssudgktpdy") == "\U{C548}\U{B155}\U{D558}\U{C138}\U{C694}"
    ensures Converted(Two(STD), Qwerty.QWERTY, "gksrmf123") == "\U{D55C}\U{AE00}123"
  {
    hide KorToEng, Converted, IsHangul, Qwerty.Typed;
    HangulKeys();
    GreetingKeys();
    MixedKeys();
    Digit('1');
    Digit('2');
    Digit('3');
    Qwerty.StandardRoundTrip(HANGUL);
    Qwerty.StandardRoundTrip(GREETING);
    Qwerty.StandardRoundTrip(HANGUL + "123");
    assert HANGUL + "123" == "\U{D55C}\U{AE00}123";
  }

  // ---------- ko_3bul390 ----------

  const INITIALS3: seq<string> := [
    "k", "kk", "h", "u", "uu", "y", "i", ";", ";;", "n", "nn", "j", "l", "ll", "o", "0", "'", "p", "m"
  ]

  const VOWELS3: seq<string> := [
    "f", "r", "6", "R", "t", "c", "e", "7", "v", "vf", "vr", "vd", "4", "b", "bt", "bc", "bd", "5", "g", "gd", "d"
  ]

  const FINALS3: seq<string> := [
    "", "x", "xx", "xq", "s", "s!", "s1", "A", "w", "wx", "wz", "w3", "wq", "wW", "wQ", "w1", "z", "3", "3q", "q",
    "qq", "a", "!", "Z", "E", "W", "Q", "1"
  ]

  lemma InitialParts3(c: Initial)
    requires c >= 0
    ensures |InitialParts(c)| == |INITIALS3[c]| && forall i | 0 <= i < |INITIALS3[c]| ::
            var p := InitialParts(c)[i]; p >= 0 && InitialParts(p) == [p] && Three.InitialKey(p) == INITIALS3[c][i]
  {
  }

  lemma VowelParts3(v: Medial)
    requires v >= 0
    ensures |VowelParts(v)| == |VOWELS3[v]| && forall i | 0 <= i < |VOWELS3[v]| ::
            var p := VowelParts(v)[i]; p >= 0 && VowelParts(p) == [p] && Three.VowelKey(p) == VOWELS3[v][i]
  {
  }

  lemma FinalPartsPlain(f: Final)
    requires f > 0
    ensures forall p <- FinalParts(f) :: p > 0 && FinalParts(p) == [p]
  {
  }

  lemma FinalParts3(f: Final)
    requires f > 0
    ensures |FinalParts(f)| == |FINALS3[f]| && forall i | 0 <= i < |FINALS3[f]| ::
            Three.FinalKey(FinalParts(f)[i]) == FINALS3[f][i]
  {
  }

  lemma InReverse3(j: JamoEnum)
    requires Three.OnKeys(j) && !j.Special?
    ensures j in Three.REVERSE390.rev && Three.REVERSE390.rev[j] == Three.LetterKey(j)
  {
    hide Three.OnKeys, Three.KeyTypes, Three.LetterKey, Three.MarkKey;
    Three.LetterBack(j);
  }

  lemma InitialSpelling3(c: Initial)
    requires c >= 0
    ensures KeysFor(Three.REVERSE390.rev, InitialKeys(InitialParts(c))) == INITIALS3[c]
  {
    hide Three.InitialKey, Three.REVERSE390, InitialParts;
    InitialParts3(c);
    var js := InitialKeys(InitialParts(c));
    forall i | 0 <= i < |js| ensures js[i] in Three.REVERSE390.rev && Three.REVERSE390.rev[js[i]] == INITIALS3[c][i] {
      InReverse3(js[i]);
    }
    WrittenWith(Three.REVERSE390.rev, js, INITIALS3[c]);
  }

  lemma VowelSpelling3(v: Medial)
    requires v >= 0
    ensures KeysFor(Three.REVERSE390.rev, VowelKeys(VowelParts(v))) == VOWELS3[v]
  {
    hide Three.VowelKey, Three.REVERSE390, VowelParts;
    VowelParts3(v);
    var js := VowelKeys(VowelParts(v));
    forall i | 0 <= i < |js| ensures js[i] in Three.REVERSE390.rev && Three.REVERSE390.rev[js[i]] == VOWELS3[v][i] {
      InReverse3(js[i]);
    }
    WrittenWith(Three.REVERSE390.rev, js, VOWELS3[v]);
  }

  lemma FinalSpelling3(f: Final)
    requires f > 0
    ensures KeysFor(Three.REVERSE390.rev, FinalJamos(FinalParts(f))) == FINALS3[f]
  {
    hide Three.FinalKey, Three.REVERSE390, FinalParts;
    FinalParts3(f);
    FinalPartsPlain(f);
    var js := FinalJamos(FinalParts(f));
    forall i | 0 <= i < |js| ensures js[i] in Three.REVERSE390.rev && Three.REVERSE390.rev[js[i]] == FINALS3[f][i] {
      assert FinalParts(f)[i] in FinalParts(f);
      InReverse3(js[i]);
    }
    WrittenWith(Three.REVERSE390.rev, js, FINALS3[f]);
  }

  lemma TakenApart3(c: Initial, v: Medial, f: Final, ch: char)
    requires c >= 0 && v >= 0 && ch == SyllableCode(c, v, f) as char
    ensures IsSyllable(ch)
    ensures SyllableLetters(true, ch) == InitialKeys(InitialParts(c)) + VowelKeys(VowelParts(v))
                                       + (if f == 0 then [] else FinalJamos(FinalParts(f)))
  {
    hide InitialParts, VowelParts, FinalParts;
    LettersRoundTrip(c, v, f);
  }

  /** How every syllable is spelled on ko_3bul390. */
  lemma Spelling390(c: Initial, v: Medial, f: Final)
    requires c >= 0 && v >= 0
    ensures KorToEng(Three.REVERSE390, [SyllableCode(c, v, f) as char]) == INITIALS3[c] + VOWELS3[v] + FINALS3[f]
  {
    hide Three.LetterKey, Three.KeyTypes, Three.MarkKey, InitialParts, VowelParts, FinalParts, KeysFor, SyllableCode,
      IsSyllable, IsHangul, InitialKeys, VowelKeys, FinalJamos, SyllableLetters;
    var ch := SyllableCode(c, v, f) as char;
    var rev := Three.REVERSE390.rev;
    TakenApart3(c, v, f, ch);
    KeysOfOne(Three.REVERSE390, ch);
    var initial, vowel := InitialKeys(InitialParts(c)), VowelKeys(VowelParts(v));
    var final := if f == 0 then [] else FinalJamos(FinalParts(f));
    KeysForConcat(rev, initial + vowel, final);
    KeysForConcat(rev, initial, vowel);
    InitialSpelling3(c);
    VowelSpelling3(v);
    if f == 0 {
      NoKeys(rev);
      assert FINALS3[0] == "";
    } else {
      FinalSpelling3(f);
    }
  }

  /** What a key shows: the letter, or the character it types instead of one. */
  function Look(j: JamoEnum): char {
    match j
    case Cho(c) => ChoCompat(c)
    case Jung(v) => JungCompat(v)
    case Jong(f) => JongCompat(f)
    case Special(c) => c
  }

  /** The keys of one row, what they show, and which of them type finals. */
  ghost predicate Legend(keys: string, looks: string, finals: string) {
    |keys| == |looks| && forall i | 0 <= i < |keys| ::
      && Look(Three.KeyTypes(keys[i])) == looks[i]
      && (Three.KeyTypes(keys[i]).Jong? <==> keys[i] in finals)
  }

  lemma Digits()
    ensures Legend("1234567890", "\U{314E}\U{3146}\U{3142}\U{315B}\U{3160}\U{3151}\U{3156}\U{3162}\U{315C}\U{314B}",
                   "123")
  {
    hide Three.LowerTypes, Three.UpperTypes;
  }

  lemma Signs()
    ensures Legend("!;'/<>", "\U{3148}\U{3142}\U{314C}\U{3157}23", "!")
  {
    hide Three.LowerTypes, Three.UpperTypes;
  }

  lemma LowerTop()
    ensures Legend("qwertyuiop", "\U{3145}\U{3139}\U{3155}\U{3150}\U{3153}\U{3139}\U{3137}\U{3141}\U{314A}\U{314D}",
                   "qw")
  {
    hide Three.UpperTypes, Three.MarkTypes;
  }

  lemma LowerMiddle()
    ensures Legend("asdfghjkl", "\U{3147}\U{3134}\U{3163}\U{314F}\U{3161}\U{3134}\U{3147}\U{3131}\U{3148}", "as")
  {
    hide Three.UpperTypes, Three.MarkTypes;
  }

  lemma LowerBottom()
    ensures Legend("zxcvbnm", "\U{3141}\U{3131}\U{3154}\U{3157}\U{315C}\U{3145}\U{314E}", "zx")
  {
    hide Three.UpperTypes, Three.MarkTypes;
  }

  lemma UpperTop()
    ensures Legend("QWERTYUIOP", "\U{314D}\U{314C}\U{314B}\U{3152};<789>", "QWE")
  {
    hide Three.LowerTypes, Three.MarkTypes;
  }

  lemma UpperMiddle()
    ensures Legend("ASDFGHJKL", "\U{3137}\U{3135}\U{313A}\U{3132}/'456", "ASDF")
  {
    hide Three.LowerTypes, Three.MarkTypes;
  }

  lemma UpperBottom()
    ensures Legend("ZXCVBNM", "\U{314A}\U{3144}\U{313B}\U{3140}!01", "ZXCV")
  {
    hide Three.LowerTypes, Three.MarkTypes;
  }

  /** The whole of ko_3bul390 on a QWERTY keyboard: digits, signs, the three rows of letters without and
      with shift. Every other key types itself. */
  lemma Legend390()
    ensures Legend("1234567890", "\U{314E}\U{3146}\U{3142}\U{315B}\U{3160}\U{3151}\U{3156}\U{3162}\U{315C}\U{314B}",
                   "123")
    ensures Legend("!;'/<>", "\U{3148}\U{3142}\U{314C}\U{3157}23", "!")
    ensures Legend("qwertyuiop", "\U{3145}\U{3139}\U{3155}\U{3150}\U{3153}\U{3139}\U{3137}\U{3141}\U{314A}\U{314D}",
                   "qw")
    ensures Legend("asdfghjkl", "\U{3147}\U{3134}\U{3163}\U{314F}\U{3161}\U{3134}\U{3147}\U{3131}\U{3148}", "as")
    ensures Legend("zxcvbnm", "\U{3141}\U{3131}\U{3154}\U{3157}\U{315C}\U{3145}\U{314E}", "zx")
    ensures Legend("QWERTYUIOP", "\U{314D}\U{314C}\U{314B}\U{3152};<789>", "QWE")
    ensures Legend("ASDFGHJKL", "\U{3137}\U{3135}\U{313A}\U{3132}/'456", "ASDF")
    ensures Legend("ZXCVBNM", "\U{314A}\U{3144}\U{313B}\U{3140}!01", "ZXCV")
    ensures forall ch | Three.IsGraphic(ch) && !Qwerty.IsLatin(ch) && ch !in "1234567890!;'/<>" ::
              Three.KeyTypes(ch) == Special(ch)
  {
    hide Legend;
    Digits();
    Signs();
    LowerTop();
    LowerMiddle();
    LowerBottom();
    UpperTop();
    UpperMiddle();
    UpperBottom();
    forall ch | Three.IsGraphic(ch) && !Qwerty.IsLatin(ch) && ch !in "1234567890!;'/<>"
      ensures Three.KeyTypes(ch) == Special(ch)
    {
      OtherKeys(ch);
    }
  }

  lemma OtherKeys(ch: char)
    requires Three.IsGraphic(ch) && !Qwerty.IsLatin(ch) && ch !in "1234567890!;'/<>"
    ensures Three.KeyTypes(ch) == Special(ch)
  {
  }

  /** A character that keys of ko_3bul390 type instead of a letter is written with such a key. */
  lemma MarkSpelling(ch: char)
    requires Three.IsGraphic(ch) && !Qwerty.IsLatin(ch)
    ensures KorToEng(Three.REVERSE390, [ch]) == [Three.MarkKey(ch)]
            && Three.KeyTypes(Three.MarkKey(ch)) == Special(ch)
  {
    hide Three.KeyTypes, Three.MarkKey, Three.LetterKey, IsHangul;
    Three.MarkBack(ch);
    KeysOfOne(Three.REVERSE390, ch);
    NotHangul(ch);
    assert Three.QWERTY390[Three.MarkKey(ch)] in Three.QWERTY390.Values;
  }

  lemma NotHangul(ch: char)
    requires Three.IsGraphic(ch)
    ensures !IsHangul(ch) && !IsSyllable(ch)
  {
  }
}
