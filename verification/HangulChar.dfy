/** One syllable under construction and its arithmetic (src/hangul/char.rs). */
module HangulChars {
  import opened Wrappers
  import opened Jamo

  const CHOSEONG_NUMBER := 19
  const JUNGSEONG_NUMBER := 21
  const JONGSEONG_NUMBER := 28
  const SYLLABLE_BASE := 0xAC00
  const SYLLABLE_NUMBER := CHOSEONG_NUMBER * JUNGSEONG_NUMBER * JONGSEONG_NUMBER

  datatype HangulChar = HangulChar(cho: Option<Initial>, jung: Option<Medial>, jong: Option<Final>)

  const EMPTY := HangulChar(None, None, None)

  predicate IsSyllable(ch: char) {
    SYLLABLE_BASE <= ch as int <= SYLLABLE_BASE + SYLLABLE_NUMBER - 1
  }

  function SyllableCode(c: Initial, v: Medial, f: Final): (code: int)
    requires c >= 0 && v >= 0
    ensures '\U{AC00}' as int <= code <= '\U{D7A3}' as int
  {
    SYLLABLE_BASE + c * (JUNGSEONG_NUMBER * JONGSEONG_NUMBER) + v * JONGSEONG_NUMBER + f
  }

  /** The syllable, or the single letter, `h` stands for. None is the composition error. */
  function GetSyllable(h: HangulChar): (r: Option<char>)
  {
    var cho := if h.cho == Some(-1) then None else h.cho;
    var jung := if h.jung == Some(-1) then None else h.jung;
    var jong := if h.jong == Some(0) then None else h.jong;
    match (cho, jung, jong)
    case (Some(c), Some(v), Some(f)) => Some(SyllableCode(c, v, f) as char)
    case (Some(c), Some(v), None) => Some(SyllableCode(c, v, 0) as char)
    case (Some(c), None, None) => Some(ChoCompat(c))
    case (None, Some(v), None) => Some(JungCompat(v))
    case (None, None, Some(f)) => Some(JongCompat(f))
    case _ => None
  }

  function FromSyllable(ch: char): (h: Option<HangulChar>)
    ensures h.Some? <==> '\U{AC00}' <= ch <= '\U{D7A3}'
    ensures h.Some? <==> IsSyllable(ch)
    ensures h.Some? ==> h.value.cho.Some? && h.value.jung.Some? && h.value.jong.Some?
  {
    if !IsSyllable(ch) then None
    else
      var rel := ch as int - SYLLABLE_BASE;
      var block := JUNGSEONG_NUMBER * JONGSEONG_NUMBER;
      Some(HangulChar(Some(rel / block), Some(rel % block / JONGSEONG_NUMBER), Some(rel % JONGSEONG_NUMBER)))
  }

  /** The letters of `h` side by side, as the composition line shows them. */
  function CompatString(h: HangulChar): string {
    (match h.cho case None => "" case Some(c) => [ChoCompat(c)]) +
    (match h.jung case None => "" case Some(v) => [JungCompat(v)]) +
    (match h.jong case None => "" case Some(f) => if f == 0 then "" else [JongCompat(f)])
  }

  /** The single letter left by an incomplete syllable, if there is exactly one. */
  function ExtractIncomplete(h: HangulChar): Option<char> {
    var s := CompatString(h);
    if |s| == 1 then Some(s[0]) else None
  }

  /** What a composer emits when it closes `h` because the next letter does not fit. */
  function Render(h: HangulChar): Option<char> {
    match GetSyllable(h)
    case Some(ch) => Some(ch)
    case None => ExtractIncomplete(h)
  }

  /** What the composition line shows for `h`. */
  function Display(h: HangulChar): string {
    match GetSyllable(h)
    case Some(ch) => [ch]
    case None => CompatString(h)
  }

  /** No filler and no explicit empty final. */
  predicate ProperChar(h: HangulChar) {
    && (h.cho.Some? ==> h.cho.value >= 0)
    && (h.jung.Some? ==> h.jung.value >= 0)
    && (h.jong.Some? ==> h.jong.value > 0)
  }

  /** Splitting a syllable and reading it back is the identity on the whole block. */
  lemma SyllableRoundTrip(ch: char)
    requires IsSyllable(ch)
    ensures GetSyllable(FromSyllable(ch).value) == Some(ch)
  {
  }

  /** Reading a complete syllable and splitting it again returns its three letters. */
  lemma LettersRoundTrip(c: Initial, v: Medial, f: Final)
    requires c >= 0 && v >= 0
    ensures FromSyllable(SyllableCode(c, v, f) as char) == Some(HangulChar(Some(c), Some(v), Some(f)))
  {
    var rel := c * 588 + v * 28 + f;
    assert 0 <= v * 28 + f < 588;
    assert rel / 588 == c && rel % 588 == v * 28 + f;
    assert (v * 28 + f) / 28 == v;
    assert rel == (c * 21 + v) * 28 + f;
    assert rel % 28 == f;
  }

  /** Different letters give different syllables. */
  lemma SyllablesDiffer(c: Initial, v: Medial, f: Final, f': Final)
    requires c >= 0 && v >= 0 && f != f'
    ensures SyllableCode(c, v, f) as char != SyllableCode(c, v, f') as char
  {
  }

  // ---------- which characters ----------

  /** The syllable block of the Unicode Standard. */
  lemma BlockBounds(ch: char)
    ensures IsSyllable(ch) <==> '\U{AC00}' <= ch <= '\U{D7A3}'
  {
  }

  /** The final's number, 0 for none. */
  function FinalNumber(jong: Option<Final>): Final {
    if jong.Some? then jong.value else 0
  }

  /** Dictionary order of complete syllables: by initial, then vowel, then final. */
  predicate Precedes(c: Initial, v: Medial, jong: Option<Final>, c': Initial, v': Medial, jong': Option<Final>) {
    c < c' || (c == c' && (v < v' || (v == v' && FinalNumber(jong) < FinalNumber(jong'))))
  }

  /** Complete syllables are the characters from U+AC00 to U+D7A3 in dictionary order; as many
      as there are characters, so each letter triple has its own one. */
  lemma SyllablesAscend(c: Initial, v: Medial, jong: Option<Final>, c': Initial, v': Medial, jong': Option<Final>)
    requires c >= 0 && v >= 0 && c' >= 0 && v' >= 0
    ensures var s := GetSyllable(HangulChar(Some(c), Some(v), jong));
            var s' := GetSyllable(HangulChar(Some(c'), Some(v'), jong'));
            && s.Some? && s'.Some? && '\U{AC00}' <= s.value <= '\U{D7A3}'
            && (Precedes(c, v, jong, c', v', jong') <==> s.value < s'.value)
    ensures GetSyllable(HangulChar(Some(0), Some(0), None)) == Some('\U{AC00}')
    ensures GetSyllable(HangulChar(Some(18), Some(20), Some(27))) == Some('\U{D7A3}')
  {
  }

  /** A lone letter is shown as itself, and so are the letters of an incomplete syllable, side
      by side: initial or vowel first, final last. */
  lemma ShownAlone(c: Initial, v: Medial, f: Final)
    requires c >= 0 && v >= 0 && f > 0
    ensures Display(HangulChar(Some(c), None, None)) == [ChoCompat(c)]
    ensures Display(HangulChar(None, Some(v), None)) == [JungCompat(v)]
    ensures Display(HangulChar(None, None, Some(f))) == [JongCompat(f)]
    ensures Display(HangulChar(Some(c), None, Some(f))) == [ChoCompat(c), JongCompat(f)]
    ensures Display(HangulChar(None, Some(v), Some(f))) == [JungCompat(v), JongCompat(f)]
    ensures Display(EMPTY) == ""
  {
  }

  /** A lone filler and nothing else. */
  predicate LoneFiller(h: HangulChar) {
    && ((h.cho == Some(-1) && h.jung.None?) || (h.cho.None? && h.jung == Some(-1)))
    && (h.jong.None? || h.jong == Some(0))
  }

  /** A syllable that is closed early is emitted like a committed one, except that a lone filler is
      emitted as itself. */
  lemma RenderExactly(h: HangulChar)
    ensures Render(h) == if LoneFiller(h) then Some('\U{3164}') else GetSyllable(h)
  {
  }
}
