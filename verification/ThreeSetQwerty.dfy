/** The three-set layout ko_3bul390 on a QWERTY keyboard (src/keystroke/keymap): every printable
    ASCII character is a key of it. */
module ThreeSetQwerty {
  import opened Jamo
  import opened HangulChars
  import opened Automaton
  import opened Tables
  import opened TypeFix
  import opened RoundTrip
  import opened ThreeSetTrip

  predicate IsLower(ch: char) { 'a' <= ch <= 'z' }
  predicate IsUpper(ch: char) { 'A' <= ch <= 'Z' }

  /** Printable and not a space. */
  predicate IsGraphic(ch: char) { '!' <= ch <= '~' }

  function LowerTypes(ch: char): JamoEnum
    requires IsLower(ch)
  {
    match ch
    case 'a' => Jong(21) case 'b' => Jung(13) case 'c' => Jung(5) case 'd' => Jung(20) case 'e' => Jung(6)
    case 'f' => Jung(0) case 'g' => Jung(18) case 'h' => Cho(2) case 'i' => Cho(6) case 'j' => Cho(11)
    case 'k' => Cho(0) case 'l' => Cho(12) case 'm' => Cho(18) case 'n' => Cho(9) case 'o' => Cho(14)
    case 'p' => Cho(17) case 'q' => Jong(19) case 'r' => Jung(1) case 's' => Jong(4) case 't' => Jung(4)
    case 'u' => Cho(3) case 'v' => Jung(8) case 'w' => Jong(8) case 'x' => Jong(1) case 'y' => Cho(5)
    case 'z' => Jong(16)
  }

  function UpperTypes(ch: char): JamoEnum
    requires IsUpper(ch)
  {
    match ch
    case 'A' => Jong(7) case 'B' => Special('!') case 'C' => Jong(10) case 'D' => Jong(9) case 'E' => Jong(24)
    case 'F' => Jong(2) case 'G' => Special('/') case 'H' => Special('\'') case 'I' => Special('8')
    case 'J' => Special('4') case 'K' => Special('5') case 'L' => Special('6') case 'M' => Special('1')
    case 'N' => Special('0') case 'O' => Special('9') case 'P' => Special('>') case 'Q' => Jong(26)
    case 'R' => Jung(3) case 'S' => Jong(5) case 'T' => Special(';') case 'U' => Special('7')
    case 'V' => Jong(15) case 'W' => Jong(25) case 'X' => Jong(18) case 'Y' => Special('<')
    case 'Z' => Jong(23)
  }

  /** Digits and punctuation: some type letters, the others themselves or another character. */
  function MarkTypes(ch: char): JamoEnum {
    match ch
    case '!' => Jong(22) case '\'' => Cho(16) case '/' => Jung(8) case '0' => Cho(15) case '1' => Jong(27)
    case '2' => Jong(20) case '3' => Jong(17) case '4' => Jung(12) case '5' => Jung(17) case '6' => Jung(2)
    case '7' => Jung(7) case '8' => Jung(19) case '9' => Jung(13) case ';' => Cho(7) case '<' => Special('2')
    case '>' => Special('3')
    case _ => Special(ch)
  }

  /** What a key types. */
  function KeyTypes(ch: char): JamoEnum {
    if IsLower(ch) then LowerTypes(ch) else if IsUpper(ch) then UpperTypes(ch) else MarkTypes(ch)
  }

  const QWERTY390: Keyboard := map ch: char | IsGraphic(ch) :: KeyTypes(ch)

  /** The key for an initial, a vowel, a final; lower case where there is a choice. */
  function InitialKey(c: Initial): char {
    match c
    case 0 => 'k' case 2 => 'h' case 3 => 'u' case 5 => 'y' case 6 => 'i' case 7 => ';' case 9 => 'n'
    case 11 => 'j' case 12 => 'l' case 14 => 'o' case 15 => '0' case 16 => '\'' case 17 => 'p' case 18 => 'm'
    case _ => 'k'
  }

  function VowelKey(v: Medial): char {
    match v
    case 0 => 'f' case 1 => 'r' case 2 => '6' case 3 => 'R' case 4 => 't' case 5 => 'c' case 6 => 'e'
    case 7 => '7' case 8 => 'v' case 12 => '4' case 13 => 'b' case 17 => '5' case 18 => 'g' case 19 => '8'
    case 20 => 'd'
    case _ => 'f'
  }

  function FinalKey(f: Final): char {
    match f
    case 1 => 'x' case 2 => 'F' case 4 => 's' case 5 => 'S' case 7 => 'A' case 8 => 'w' case 9 => 'D'
    case 10 => 'C' case 15 => 'V' case 16 => 'z' case 17 => '3' case 18 => 'X' case 19 => 'q' case 20 => '2'
    case 21 => 'a' case 22 => '!' case 23 => 'Z' case 24 => 'E' case 25 => 'W' case 26 => 'Q' case 27 => '1'
    case _ => 'x'
  }

  function LetterKey(j: JamoEnum): char {
    match j case Cho(c) => InitialKey(c) case Jung(v) => VowelKey(v) case Jong(f) => FinalKey(f) case Special(_) => 'k'
  }

  /** The key for a character that is typed instead of a letter. */
  function MarkKey(c: char): char {
    match c
    case '!' => 'B' case '\'' => 'H' case '/' => 'G' case '0' => 'N' case '1' => 'M' case '2' => '<'
    case '3' => '>' case '4' => 'J' case '5' => 'K' case '6' => 'L' case '7' => 'U' case '8' => 'I'
    case '9' => 'O' case ';' => 'T' case '<' => 'Y' case '>' => 'P'
    case _ => c
  }

  const REVERSE390 := Converter(true,
    map j | j in QWERTY390.Values && !j.Special? :: LetterKey(j),
    map c: char | IsGraphic(c) && Special(c) in QWERTY390.Values :: MarkKey(c))

  /** What some key types. */
  predicate OnKeys(j: JamoEnum) {
    match j
    case Cho(c) => c >= 0 && InitialParts(c) == [c]
    case Jung(v) => v >= 0 && (VowelParts(v) == [v] || v == 19)
    case Jong(f) => f > 0 && (FinalParts(f) == [f] || f in {2, 5, 9, 10, 15, 18, 20})
    case Special(c) => IsGraphic(c) && !IsLower(c) && !IsUpper(c)
  }

  lemma LowerOnKeys(ch: char)
    requires IsLower(ch)
    ensures OnKeys(LowerTypes(ch))
  {
  }

  lemma UpperOnKeys(ch: char)
    requires IsUpper(ch)
    ensures OnKeys(UpperTypes(ch))
  {
  }

  lemma MarkOnKeys(ch: char)
    requires IsGraphic(ch) && !IsLower(ch) && !IsUpper(ch)
    ensures OnKeys(MarkTypes(ch))
  {
  }

  lemma TypesOnKeys(ch: char)
    requires IsGraphic(ch)
    ensures OnKeys(KeyTypes(ch))
  {
    hide OnKeys, LowerTypes, UpperTypes, MarkTypes;
    if IsLower(ch) {
      LowerOnKeys(ch);
    } else if IsUpper(ch) {
      UpperOnKeys(ch);
    } else {
      MarkOnKeys(ch);
    }
  }

  lemma InitialBack(c: Initial)
    requires OnKeys(Cho(c))
    ensures IsGraphic(InitialKey(c)) && KeyTypes(InitialKey(c)) == Cho(c)
  {
  }

  lemma VowelBack(v: Medial)
    requires OnKeys(Jung(v))
    ensures IsGraphic(VowelKey(v)) && KeyTypes(VowelKey(v)) == Jung(v)
  {
  }

  lemma FinalBack(f: Final)
    requires OnKeys(Jong(f))
    ensures IsGraphic(FinalKey(f)) && KeyTypes(FinalKey(f)) == Jong(f)
  {
  }

  lemma MarkBack(c: char)
    requires OnKeys(Special(c))
    ensures IsGraphic(MarkKey(c)) && KeyTypes(MarkKey(c)) == Special(c)
  {
  }

  lemma LetterBack(j: JamoEnum)
    requires OnKeys(j) && !j.Special?
    ensures LetterKey(j) in QWERTY390 && QWERTY390[LetterKey(j)] == j && j in QWERTY390.Values
  {
    hide OnKeys, KeyTypes, InitialKey, VowelKey, FinalKey;
    match j {
      case Cho(c) => InitialBack(c);
      case Jung(v) => VowelBack(v);
      case Jong(f) => FinalBack(f);
      case Special(_) =>
    }
    assert QWERTY390[LetterKey(j)] in QWERTY390.Values;
  }

  /** A lower-case key is the key chosen for its letter, also where another key types it too. */
  lemma LowerKeyWins(ch: char)
    requires IsLower(ch)
    ensures LetterKey(LowerTypes(ch)) == ch
  {
  }

  /** The keyboard meets the hypotheses of the three-set round trip. */
  lemma Qwerty390Fits()
    ensures NoHangulKeys(QWERTY390) && FullThreeSet(QWERTY390) && ConvertsBack(REVERSE390, QWERTY390)
  {
    hide KeyTypes, LetterKey, MarkKey, InitialParts, VowelParts, FinalParts;
    forall j: JamoEnum | Simple(j) ensures j in QWERTY390.Values {
      SimpleOnKeys(j);
      LetterBack(j);
    }
    ReverseFits();
    OtherFits();
  }

  lemma SimpleOnKeys(j: JamoEnum)
    requires Simple(j)
    ensures OnKeys(j) && !j.Special?
  {
    hide InitialParts, VowelParts, FinalParts;
  }

  lemma ReverseFits()
    ensures Reverses(REVERSE390.rev, QWERTY390)
  {
    hide KeyTypes, LetterKey, OnKeys, MarkKey;
    forall j | j in REVERSE390.rev ensures REVERSE390.rev[j] in QWERTY390 && QWERTY390[REVERSE390.rev[j]] == j {
      var ch :| ch in QWERTY390 && QWERTY390[ch] == j;
      TypesOnKeys(ch);
      LetterBack(j);
    }
    forall ch | ch in QWERTY390 && !QWERTY390[ch].Special? ensures QWERTY390[ch] in REVERSE390.rev {
      assert QWERTY390[ch] in QWERTY390.Values;
    }
  }

  lemma OtherFits()
    ensures forall c <- REVERSE390.other ::
            REVERSE390.other[c] in QWERTY390 && QWERTY390[REVERSE390.other[c]] == Special(c)
    ensures forall ch <- QWERTY390 :: QWERTY390[ch].Special? ==> QWERTY390[ch].ch in REVERSE390.other
  {
    hide KeyTypes, LetterKey, MarkKey;
    forall c | c in REVERSE390.other
      ensures REVERSE390.other[c] in QWERTY390 && QWERTY390[REVERSE390.other[c]] == Special(c)
    {
      var ch :| ch in QWERTY390 && QWERTY390[ch] == Special(c);
      TypesOnKeys(ch);
      MarkBack(c);
    }
    forall ch | ch in QWERTY390 && QWERTY390[ch].Special? ensures QWERTY390[ch].ch in REVERSE390.other {
      TypesOnKeys(ch);
      assert QWERTY390[ch] in QWERTY390.Values;
    }
  }

  /** On ko_3bul390 over QWERTY a text survives the trip to keystrokes and back if and only if
      it has no printable ASCII character and no Hangul other than precomposed syllables: even
      a comma or a digit is lost. */
  lemma Standard390RoundTrip(text: string)
    ensures Converted(Three(THREE390, false), QWERTY390, KorToEng(REVERSE390, text)) == text
       <==> forall ch <- text :: Kept(ch)
  {
    hide Converted, KorToEng, IsHangul, IsSyllable, KeyTypes, LetterKey, MarkKey, FullThreeSet, NoHangulKeys,
      ConvertsBack, Kept;
    Qwerty390Fits();
    ThreeSetTripExactly(REVERSE390, QWERTY390, text);
    assert forall ch :: ch in QWERTY390 <==> IsGraphic(ch);
    assert forall ch <- REVERSE390.other :: IsGraphic(ch);
    forall ch | ch in text ensures Kept(ch) <==> IsSyllable(ch) || (!IsHangul(ch) && !IsGraphic(ch)) {
      KeptIs(ch);
    }
  }

  /** Syllables, and whatever is neither a conjoining nor a standalone letter nor printable ASCII. */
  predicate Kept(ch: char) {
    || '\U{AC00}' <= ch <= '\U{D7A3}'
    || !('\U{1100}' <= ch <= '\U{11FF}' || '\U{3130}' <= ch <= '\U{318F}' || '!' <= ch <= '~')
  }

  lemma KeptIs(ch: char)
    ensures Kept(ch) <==> IsSyllable(ch) || (!IsHangul(ch) && !IsGraphic(ch))
  {
  }
}
