/** The combination tables of the built-in layouts (src/keystroke/keymap). */
module Tables {
  import opened Wrappers
  import opened Jamo
  import opened HangulChars
  import opened Fold
  import opened TwoBulParser

  /** ko_2bulstd: the standard two-set layout; no initials combine. */
  const STD: Table := map[
    (Jung(8), Jung(0)) := Jung(9), (Jung(8), Jung(1)) := Jung(10), (Jung(8), Jung(20)) := Jung(11),
    (Jung(13), Jung(4)) := Jung(14), (Jung(13), Jung(5)) := Jung(15), (Jung(13), Jung(20)) := Jung(16),
    (Jung(18), Jung(20)) := Jung(19),
    (Jong(1), Jong(1)) := Jong(2), (Jong(1), Jong(19)) := Jong(3), (Jong(4), Jong(22)) := Jong(5),
    (Jong(4), Jong(27)) := Jong(6), (Jong(8), Jong(1)) := Jong(9), (Jong(8), Jong(16)) := Jong(10),
    (Jong(8), Jong(17)) := Jong(11), (Jong(8), Jong(19)) := Jong(12), (Jong(8), Jong(25)) := Jong(13),
    (Jong(8), Jong(26)) := Jong(14), (Jong(8), Jong(27)) := Jong(15), (Jong(17), Jong(19)) := Jong(18),
    (Jong(19), Jong(19)) := Jong(20)
  ]

  /** ko_3bul390, without its optional rule sets: the doubled initials, and STD's entries. */
  const DOUBLED: Table := map[
    (Cho(0), Cho(0)) := Cho(1), (Cho(3), Cho(3)) := Cho(4), (Cho(7), Cho(7)) := Cho(8),
    (Cho(9), Cho(9)) := Cho(10), (Cho(12), Cho(12)) := Cho(13)
  ]

  const THREE390: Table := DOUBLED + STD

  /** ko_3bul_anmatae: the layout whose letters may be typed in either order. */
  const ANMATAE: Table := ANMATAE_CHO + ANMATAE_JUNG + ANMATAE_JONG

  const ANMATAE_CHO: Table := map[
    (Cho(0), Cho(11)) := Cho(1), (Cho(3), Cho(0)) := Cho(4), (Cho(7), Cho(12)) := Cho(8),
    (Cho(9), Cho(2)) := Cho(10), (Cho(12), Cho(3)) := Cho(13), (Cho(0), Cho(18)) := Cho(15),
    (Cho(3), Cho(18)) := Cho(16), (Cho(7), Cho(18)) := Cho(17), (Cho(12), Cho(18)) := Cho(14)
  ]

  const ANMATAE_JUNG: Table := map[
    (Jung(0), Jung(20)) := Jung(1), (Jung(2), Jung(20)) := Jung(3), (Jung(4), Jung(20)) := Jung(5),
    (Jung(6), Jung(20)) := Jung(7), (Jung(8), Jung(0)) := Jung(9), (Jung(8), Jung(1)) := Jung(10),
    (Jung(8), Jung(20)) := Jung(11), (Jung(13), Jung(4)) := Jung(14), (Jung(13), Jung(5)) := Jung(15),
    (Jung(13), Jung(20)) := Jung(16), (Jung(18), Jung(20)) := Jung(19), (Jung(9), Jung(20)) := Jung(10),
    (Jung(11), Jung(0)) := Jung(10), (Jung(14), Jung(20)) := Jung(15), (Jung(16), Jung(4)) := Jung(15)
  ]

  const ANMATAE_JONG: Table := map[
    (Jong(1), Jong(21)) := Jong(2), (Jong(19), Jong(4)) := Jong(20), (Jong(1), Jong(27)) := Jong(24),
    (Jong(7), Jong(27)) := Jong(25), (Jong(17), Jong(27)) := Jong(26), (Jong(22), Jong(27)) := Jong(23),
    (Jong(1), Jong(8)) := Jong(9), (Jong(1), Jong(19)) := Jong(3), (Jong(4), Jong(22)) := Jong(5),
    (Jong(4), Jong(27)) := Jong(6), (Jong(8), Jong(16)) := Jong(10), (Jong(8), Jong(17)) := Jong(11),
    (Jong(8), Jong(19)) := Jong(12), (Jong(8), Jong(25)) := Jong(13), (Jong(8), Jong(26)) := Jong(14),
    (Jong(8), Jong(27)) := Jong(15), (Jong(11), Jong(27)) := Jong(14), (Jong(15), Jong(7)) := Jong(13),
    (Jong(15), Jong(17)) := Jong(14), (Jong(17), Jong(19)) := Jong(18)
  ]

  lemma StdFits()
    ensures NoInitialPairs(STD) && ProperTable(STD) && Progressing(STD)
  {
  }

  /** How the keystroke converter takes a compound vowel apart. */
  function VowelParts(v: Medial): seq<Medial> {
    match v
    case 9 => [8, 0]
    case 10 => [8, 1]
    case 11 => [8, 20]
    case 14 => [13, 4]
    case 15 => [13, 5]
    case 16 => [13, 20]
    case 19 => [18, 20]
    case _ => [v]
  }

  /** How it takes a doubled initial apart for a three-set layout. */
  function InitialParts(c: Initial): seq<Initial> {
    match c
    case 1 => [0, 0]
    case 4 => [3, 3]
    case 8 => [7, 7]
    case 10 => [9, 9]
    case 13 => [12, 12]
    case _ => [c]
  }

  /** How it takes a compound final apart. */
  function FinalParts(f: Final): seq<Final> {
    match f
    case 2 => [1, 1]
    case 3 => [1, 19]
    case 5 => [4, 22]
    case 6 => [4, 27]
    case 9 => [8, 1]
    case 10 => [8, 16]
    case 11 => [8, 17]
    case 12 => [8, 19]
    case 13 => [8, 25]
    case 14 => [8, 26]
    case 15 => [8, 27]
    case 18 => [17, 19]
    case 20 => [19, 19]
    case _ => [f]
  }

  /** Two vowels combine in the table if and only if the converter takes the result apart into them. */
  lemma VowelEntries(a: Medial, b: Medial, v: Medial)
    requires v >= 0
    ensures Combine(STD, Jung(a), Jung(b)) == Some(Jung(v)) <==> VowelParts(v) == [a, b]
  {
  }

  /** So do two finals; initials never combine. */
  lemma FinalEntries(a: Final, b: Final, f: Final)
    ensures Combine(STD, Jong(a), Jong(b)) == Some(Jong(f)) <==> FinalParts(f) == [a, b]
  {
  }

  lemma VowelPartsAre(v: Medial)
    requires v >= 0
    ensures var ps := VowelParts(v); (ps == [v] || |ps| == 2) && forall p <- ps :: p >= 0
  {
  }

  lemma VowelPartsCompose(v: Medial)
    requires v >= 0
    ensures forall p <- VowelParts(v) :: p >= 0
    ensures FoldVowels(STD, VowelParts(v)) == Some(v)
  {
    hide VowelParts, Combine;
    var ps := VowelParts(v);
    VowelPartsAre(v);
    if |ps| == 2 {
      assert ps == [ps[0], ps[1]];
      VowelEntries(ps[0], ps[1], v);
      assert Init(ps) == [ps[0]] && FoldVowels(STD, [ps[0]]) == Some(ps[0]);
    }
  }

  /** Every part of a final is typed by an initial key. */
  lemma FinalPartsLift(f: Final)
    requires f > 0
    ensures forall p <- FinalParts(f) :: ToCho(p).Some?
  {
  }

  /** The initial keys that type a final. */
  function FinalKeys(f: Final): (cs: seq<Initial>)
    requires f > 0
    ensures |cs| == |FinalParts(f)|
  {
    FinalPartsLift(f);
    seq(|FinalParts(f)|, i requires 0 <= i < |FinalParts(f)| => ToCho(FinalParts(f)[i]).value)
  }

  lemma LiftBack(f: Final)
    requires ToCho(f).Some?
    ensures ToJong(ToCho(f).value) == Some(f)
  {
  }

  lemma FinalPartsJoin(f: Final)
    requires f > 0
    ensures var ps := FinalParts(f);
            || ps == [f]
            || (|ps| == 2 && Combine(STD, Jong(ps[0]), Jong(ps[1])) == Some(Jong(f)))
  {
  }

  lemma FinalKeysCompose(f: Final)
    requires f > 0
    ensures FoldFinals(STD, FinalKeys(f)) == Some(f)
  {
    hide FinalParts, ToCho, ToJong, Combine;
    var cs, ps := FinalKeys(f), FinalParts(f);
    FinalPartsJoin(f);
    FinalPartsLift(f);
    assert ps[0] in ps && cs[0] == ToCho(ps[0]).value;
    LiftBack(ps[0]);
    assert Init([cs[0]]) == [] && FoldFinals(STD, []) == None;
    assert FoldFinals(STD, [cs[0]]) == Some(ps[0]);
    if |cs| == 2 {
      assert ps[1] in ps && cs[1] == ToCho(ps[1]).value;
      LiftBack(ps[1]);
      assert Init(cs) == [cs[0]];
    } else {
      assert cs == [cs[0]];
    }
  }

  /** The keys that type the syllable `ch`, as one group. */
  function Canonical(ch: char): Group
    requires IsSyllable(ch)
  {
    var h := FromSyllable(ch).value;
    Group(h.cho, VowelParts(h.jung.value), if h.jong.value == 0 then [] else FinalKeys(h.jong.value))
  }

  /** All 11172 syllables: the canonical keys of a syllable mean that syllable. */
  lemma CanonicalMeans(ch: char)
    requires IsSyllable(ch)
    ensures var g := Canonical(ch);
            && WellFormed(STD, g) && g.initial.Some? && g.vowels != []
            && Written(STD, g) == [ch]
  {
    var h := FromSyllable(ch).value;
    VowelPartsCompose(h.jung.value);
    if h.jong.value > 0 {
      FinalKeysCompose(h.jong.value);
    }
    SyllableRoundTrip(ch);
  }
}
