/** Jamo: the letters a Korean syllable is built from (src/hangul/jamo). Letters are
    carried by their sequence number, fillers and "no final" included. */
module Jamo {
  import opened Wrappers

  /** Initial consonant; -1 is the filler. */
  type Initial = c: int | -1 <= c <= 18 witness 0

  /** Vowel; -1 is the filler. */
  type Medial = v: int | -1 <= v <= 20 witness 0

  /** Final consonant or cluster; 0 means "no final". */
  type Final = f: int | 0 <= f <= 27 witness 0

  datatype JamoEnum =
    | Cho(cho: Initial)
    | Jung(jung: Medial)
    | Jong(jong: Final)
    | Special(ch: char)

  predicate SameKind(a: JamoEnum, b: JamoEnum) {
    (a.Cho? && b.Cho?) || (a.Jung? && b.Jung?) || (a.Jong? && b.Jong?)
  }

  /** Neither a filler nor the empty final: what a keyboard can produce. */
  predicate Proper(j: JamoEnum) {
    match j
    case Cho(c) => c >= 0
    case Jung(v) => v >= 0
    case Jong(f) => f > 0
    case Special(_) => false
  }

  /** The final an initial becomes after a vowel. None for the three doubled initials
      that never close a syllable, and for the filler. */
  function ToJong(c: Initial): (f: Option<Final>)
    ensures f.Some? ==> c >= 0 && f.value > 0 && ToCho(f.value) == Some(c)
  {
    match c
    case 0 => Some(1)
    case 1 => Some(2)
    case 2 => Some(4)
    case 3 => Some(7)
    case 5 => Some(8)
    case 6 => Some(16)
    case 7 => Some(17)
    case 9 => Some(19)
    case 10 => Some(20)
    case 11 => Some(21)
    case 12 => Some(22)
    case 14 => Some(23)
    case 15 => Some(24)
    case 16 => Some(25)
    case 17 => Some(26)
    case 18 => Some(27)
    case _ => None
  }

  /** The initial a single final becomes before a vowel. None for clusters. */
  function ToCho(f: Final): (c: Option<Initial>)
    ensures c.Some? ==> c.value >= 0
  {
    match f
    case 1 => Some(0)
    case 2 => Some(1)
    case 4 => Some(2)
    case 7 => Some(3)
    case 8 => Some(5)
    case 16 => Some(6)
    case 17 => Some(7)
    case 19 => Some(9)
    case 20 => Some(10)
    case 21 => Some(11)
    case 22 => Some(12)
    case 23 => Some(14)
    case 24 => Some(15)
    case 25 => Some(16)
    case 26 => Some(17)
    case 27 => Some(18)
    case _ => None
  }

  const CHO_COMPAT: string :=
    "\U{3164}\U{3131}\U{3132}\U{3134}\U{3137}\U{3138}\U{3139}\U{3141}\U{3142}\U{3143}" +
    "\U{3145}\U{3146}\U{3147}\U{3148}\U{3149}\U{314a}\U{314b}\U{314c}\U{314d}\U{314e}"

  const JONG_COMPAT: string :=
    "\U{0}\U{3131}\U{3132}\U{3133}\U{3134}\U{3135}\U{3136}\U{3137}\U{3139}\U{313a}" +
    "\U{313b}\U{313c}\U{313d}\U{313e}\U{313f}\U{3140}\U{3141}\U{3142}\U{3144}\U{3145}" +
    "\U{3146}\U{3147}\U{3148}\U{314a}\U{314b}\U{314c}\U{314d}\U{314e}"

  function ChoCompat(c: Initial): char { CHO_COMPAT[c + 1] }

  function JungCompat(v: Medial): char {
    if v == -1 then '\U{3164}' else (0x314F + v) as char
  }

  function JongCompat(f: Final): char { JONG_COMPAT[f] }

  /** A lone final shows the same letter as the initial it came from. */
  lemma LiftedFinalLooksAlike(c: Initial)
    requires ToJong(c).Some?
    ensures JongCompat(ToJong(c).value) == ChoCompat(c)
  {
  }

  /** Standalone letters lie in the compatibility block, clear of the syllable block. */
  lemma CompatRange(c: Initial, v: Medial, f: Final)
    ensures 0x3130 <= ChoCompat(c) as int <= 0x318F
    ensures 0x3130 <= JungCompat(v) as int <= 0x318F
    ensures f > 0 ==> 0x3130 <= JongCompat(f) as int <= 0x318F
  {
  }

  /** The consonants that open no syllable, all of them clusters. */
  const CLUSTERS: string :=
    "\U{3133}\U{3135}\U{3136}\U{313a}\U{313b}\U{313c}\U{313d}\U{313e}\U{313f}\U{3140}\U{3144}"

  /** The doubled consonants that close no syllable. */
  const NEVER_FINAL: string := "\U{3138}\U{3143}\U{3149}"

  predicate IsConsonant(ch: char) { '\U{3131}' <= ch <= '\U{314E}' }

  /** Vowels are shown as the 21 letters from U+314F to U+3163, in the order of their numbers;
      the filler has a character of its own. */
  lemma VowelLetters(v: Medial, v': Medial)
    ensures 0 <= v < v' ==> JungCompat(v) < JungCompat(v')
    ensures JungCompat(0) == '\U{314F}' && JungCompat(20) == '\U{3163}'
    ensures JungCompat(-1) == '\U{3164}' == ChoCompat(-1)
  {
  }

  lemma InitialsAscend(c: Initial)
    requires 0 <= c < 18
    ensures ChoCompat(c) < ChoCompat(c + 1)
  {
  }

  lemma InitialIsConsonant(c: Initial)
    requires c >= 0
    ensures IsConsonant(ChoCompat(c)) && ChoCompat(c) !in CLUSTERS
  {
  }

  /** Initials are shown, in the order of their numbers, as consonants that are no clusters. */
  lemma {:induction false} InitialLetters(c: Initial, c': Initial)
    requires 0 <= c <= c'
    ensures c < c' ==> ChoCompat(c) < ChoCompat(c')
    ensures IsConsonant(ChoCompat(c)) && ChoCompat(c) !in CLUSTERS
    decreases c' - c
  {
    hide ChoCompat, CLUSTERS;
    InitialIsConsonant(c);
    if c < c' {
      InitialsAscend(c);
      InitialLetters(c + 1, c');
    }
  }

  lemma FinalsAscend(f: Final)
    requires 0 < f < 27
    ensures JongCompat(f) < JongCompat(f + 1)
  {
  }

  lemma FinalIsConsonant(f: Final)
    requires f > 0
    ensures IsConsonant(JongCompat(f)) && JongCompat(f) !in NEVER_FINAL
  {
  }

  /** Finals are shown, in the order of their numbers, as consonants other than the doubled
      ones that never close a syllable. */
  lemma {:induction false} FinalLetters(f: Final, f': Final)
    requires 0 < f <= f'
    ensures f < f' ==> JongCompat(f) < JongCompat(f')
    ensures IsConsonant(JongCompat(f)) && JongCompat(f) !in NEVER_FINAL
    decreases f' - f
  {
    hide JongCompat, NEVER_FINAL;
    FinalIsConsonant(f);
    if f < f' {
      FinalsAscend(f);
      FinalLetters(f + 1, f');
    }
  }

  /** And every such consonant is an initial's. */
  lemma InitialShownAs(ch: char) returns (c: Initial)
    requires IsConsonant(ch) && ch !in CLUSTERS
    ensures c >= 0 && ChoCompat(c) == ch
  {
    c := ch as int - (if ch < '\U{3133}' then 0x3131 else if ch < '\U{3135}' then 0x3132
      else if ch < '\U{313A}' then 0x3134 else if ch < '\U{3144}' then 0x313B else 0x313C);
  }

  /** And every such consonant is a final's: the finals lack just the three doubled ones. */
  lemma FinalShownAs(ch: char) returns (f: Final)
    requires IsConsonant(ch) && ch !in NEVER_FINAL
    ensures f > 0 && JongCompat(f) == ch
  {
    f := ch as int - (if ch < '\U{3138}' then 0x3130 else if ch < '\U{3143}' then 0x3131
      else if ch < '\U{3149}' then 0x3132 else 0x3133);
  }

  /** An initial has no final if and only if it is shown as one of these. */
  lemma ClosesExactly(c: Initial)
    requires c >= 0
    ensures ToJong(c).None? <==> ChoCompat(c) in NEVER_FINAL
  {
  }

  /** A final comes from an initial if and only if it is no cluster. */
  lemma OpensExactly(f: Final)
    requires f > 0
    ensures ToCho(f).None? <==> JongCompat(f) in CLUSTERS
  {
  }
}
