/** What two-set typing means, stated without a composer: a left-to-right reading that looks
    one key ahead. A consonant directly before a vowel always opens a syllable; any other
    consonant closes the current one if it can. The composer has no lookahead: it swallows
    the consonant as a final and hands it back when the vowel arrives. */
module TwoBulParser {
  import opened Wrappers
  import opened Jamo
  import opened HangulChars
  import opened Fold

  /** The keys of a two-set keyboard: initials and vowels, no fillers. */
  type TwoSetKey = j: JamoEnum | Proper(j) && !j.Jong? witness Cho(0)

  /** One written character as typed: initial, vowel keys, final keys (typed as initials). */
  datatype Group = Group(initial: Option<Initial>, vowels: seq<Medial>, finals: seq<Initial>)

  const NOTHING := Group(None, [], [])

  /** No two initials combine: the two-set tables have no such entry. */
  ghost predicate NoInitialPairs(t: Table) {
    forall a: Initial, b: Initial :: Combine(t, Cho(a), Cho(b)).None?
  }

  /** Combinations never yield a filler or the empty final. */
  ghost predicate ProperTable(t: Table) {
    forall k <- t :: Proper(t[k])
  }

  /** A combination never yields its own first letter. */
  ghost predicate Progressing(t: Table) {
    forall a, b :: Combine(t, a, b) != Some(a)
  }

  // ---------- the meaning of a group ----------

  function FoldVowels(t: Table, vs: seq<Medial>): Option<Medial> {
    if vs == [] then None
    else if |vs| == 1 then Some(vs[0])
    else match FoldVowels(t, Init(vs))
      case None => None
      case Some(a) => match Combine(t, Jung(a), Jung(Last(vs))) case Some(b) => Some(b.jung) case None => None
  }

  /** The final that one more final key makes. */
  function JoinFinal(t: Table, f: Option<Final>, c: Initial): Option<Final> {
    match ToJong(c)
    case None => None
    case Some(j) =>
      match f
      case None => Some(j)
      case Some(a) => match Combine(t, Jong(a), Jong(j)) case Some(b) => Some(b.jong) case None => None
  }

  function FoldFinals(t: Table, fs: seq<Initial>): Option<Final> {
    if fs == [] then None
    else if |fs| > 1 && FoldFinals(t, Init(fs)).None? then None
    else JoinFinal(t, FoldFinals(t, Init(fs)), Last(fs))
  }

  predicate WellFormed(t: Table, g: Group) {
    && (g.initial.Some? ==> g.initial.value >= 0)
    && (forall v <- g.vowels :: v >= 0)
    && (g.vowels != [] ==> FoldVowels(t, g.vowels).Some?)
    && (g.finals != [] ==> g.initial.Some? && g.vowels != [] && FoldFinals(t, g.finals).Some?)
  }

  function Block(t: Table, g: Group): HangulChar {
    HangulChar(g.initial, FoldVowels(t, g.vowels), FoldFinals(t, g.finals))
  }

  /** The character a group writes. */
  function Written(t: Table, g: Group): string {
    Emit(GetSyllable(Block(t, g)))
  }

  function WrittenAll(t: Table, gs: seq<Group>): string {
    if gs == [] then "" else Written(t, gs[0]) + WrittenAll(t, gs[1..])
  }

  // ---------- the reading ----------

  predicate VowelFits(t: Table, g: Group, v: Medial) {
    g.finals == [] && FoldVowels(t, g.vowels + [v]).Some?
  }

  /** The group is initial+vowel(+finals) and `c` can be a final at all. */
  predicate MayClose(g: Group, c: Initial) {
    g.initial.Some? && g.vowels != [] && ToJong(c).Some?
  }

  predicate FinalFits(t: Table, g: Group, c: Initial) {
    MayClose(g, c) && FoldFinals(t, g.finals + [c]).Some?
  }

  predicate VowelNext(w: seq<TwoSetKey>)
    requires w != []
  {
    |w| > 1 && w[1].Jung?
  }

  /** The group that key `w[0]` continues or opens. */
  function Next(t: Table, g: Group, w: seq<TwoSetKey>): Group
    requires w != []
  {
    if w[0].Jung? then
      if VowelFits(t, g, w[0].jung) then g.(vowels := g.vowels + [w[0].jung]) else Group(None, [w[0].jung], [])
    else if g != NOTHING && FinalFits(t, g, w[0].cho) && !VowelNext(w) then g.(finals := g.finals + [w[0].cho])
    else Group(Some(w[0].cho), [], [])
  }

  /** Whether key `w[0]` leaves the group `g` behind. */
  predicate Breaks(t: Table, g: Group, w: seq<TwoSetKey>)
    requires w != []
  {
    g != NOTHING && if w[0].Jung? then !VowelFits(t, g, w[0].jung) else !FinalFits(t, g, w[0].cho) || VowelNext(w)
  }

  /** A consonant was tried as a final, did not fit, and another consonant follows. */
  predicate Jams(t: Table, g: Group, w: seq<TwoSetKey>)
    requires w != []
  {
    && w[0].Cho? && MayClose(g, w[0].cho) && !FinalFits(t, g, w[0].cho)
    && |w| > 1 && w[1].Cho?
  }

  /** The groups, and whether no consonant jams. */
  datatype Reading = Reading(groups: seq<Group>, clean: bool)

  /** Reading `w` when `g` has been read so far. */
  function Parse(t: Table, g: Group, w: seq<TwoSetKey>): Reading
    decreases |w|
  {
    if w == [] then Reading(if g == NOTHING then [] else [g], true)
    else
      var rest := Parse(t, Next(t, g, w), w[1..]);
      Reading((if Breaks(t, g, w) then [g] else []) + rest.groups, rest.clean && !Jams(t, g, w))
  }

  // ---------- groups as queues ----------

  function Key(j: JamoEnum): Stroke { Stroke(j, DEFAULT_META) }

  function Keys(w: seq<TwoSetKey>): (ss: seq<Stroke>)
    ensures |ss| == |w|
    ensures forall i | 0 <= i < |w| :: ss[i] == Key(w[i])
  {
    seq(|w|, i requires 0 <= i < |w| => Key(w[i]))
  }

  function VowelKeys(vs: seq<Medial>): seq<JamoEnum> {
    seq(|vs|, i requires 0 <= i < |vs| => Jung(vs[i]))
  }

  function InitialKeys(cs: seq<Initial>): seq<JamoEnum> {
    seq(|cs|, i requires 0 <= i < |cs| => Cho(cs[i]))
  }

  /** The keys that type a group. */
  function Letters(g: Group): seq<JamoEnum> {
    (match g.initial case None => [] case Some(c) => [Cho(c)]) + VowelKeys(g.vowels) + InitialKeys(g.finals)
  }

  function LettersAll(gs: seq<Group>): seq<JamoEnum> {
    if gs == [] then [] else Letters(gs[0]) + LettersAll(gs[1..])
  }

  function Lifted(c: Initial): Stroke {
    match ToJong(c) case Some(f) => Key(Jong(f)) case None => Key(Cho(c))
  }

  /** The composer's queue while it is at group `g`. */
  function Queue(g: Group): seq<Stroke>
    decreases |g.finals| + |g.vowels|
  {
    if g.finals != [] then Queue(g.(finals := Init(g.finals))) + [Lifted(Last(g.finals))]
    else if g.vowels != [] then Queue(g.(vowels := Init(g.vowels))) + [Key(Jung(Last(g.vowels)))]
    else match g.initial case None => [] case Some(c) => [Key(Cho(c))]
  }

  /** The queue of a group folds to the group's block. */
  lemma {:induction false} BlockIsFolded(t: Table, g: Group)
    requires WellFormed(t, g)
    ensures Folded(t, Queue(g)) == Some(Block(t, g)) && Head(Queue(g))
    decreases |g.finals| + |g.vowels|
  {
    hide Folded, Combine, ToJong, Block, Absorb, Head, WellFormed;
    if g.finals != [] {
      var h := g.(finals := Init(g.finals));
      GroupBeforeFinal(t, g);
      BlockIsFolded(t, h);
      FoldedSnoc(t, Queue(h), Lifted(Last(g.finals)));
    } else if g.vowels != [] {
      var h := g.(vowels := Init(g.vowels));
      GroupBeforeVowel(t, g);
      BlockIsFolded(t, h);
      FoldedSnoc(t, Queue(h), Key(Jung(Last(g.vowels))));
    } else {
      BareBlock(t, g);
      FoldedEmpty(t);
      EmptyHead();
      if g.initial.Some? {
        FoldedSingle(t, Key(Cho(g.initial.value)));
      }
    }
  }

  lemma GroupBeforeFinal(t: Table, g: Group)
    requires WellFormed(t, g) && g.finals != []
    ensures var h := g.(finals := Init(g.finals));
            && WellFormed(t, h) && Lifted(Last(g.finals)).jamo.Jong?
            && Absorb(t, Block(t, h), true, Lifted(Last(g.finals)).jamo) == Some(Block(t, g))
  {
  }

  lemma GroupBeforeVowel(t: Table, g: Group)
    requires WellFormed(t, g) && g.finals == [] && g.vowels != []
    ensures var h := g.(vowels := Init(g.vowels));
            && WellFormed(t, h)
            && Absorb(t, Block(t, h), true, Jung(Last(g.vowels))) == Some(Block(t, g))
  {
    hide Combine;
    assert forall v <- Init(g.vowels) :: v in g.vowels;
  }

  lemma BareBlock(t: Table, g: Group)
    requires g.finals == [] && g.vowels == []
    ensures g.initial.None? ==> Queue(g) == [] && Block(t, g) == EMPTY
    ensures g.initial.Some? ==>
      Queue(g) == [Key(Cho(g.initial.value))] && Absorb(t, EMPTY, true, Cho(g.initial.value)) == Some(Block(t, g))
  {
  }

  lemma EmptyHead()
    ensures Head([])
  {
  }

  lemma WithVowel(g: Group, v: Medial)
    requires g.finals == []
    ensures Queue(g.(vowels := g.vowels + [v])) == Queue(g) + [Key(Jung(v))]
  {
  }

  lemma WithFinal(g: Group, c: Initial)
    ensures Queue(g.(finals := g.finals + [c])) == Queue(g) + [Lifted(c)]
  {
  }

  lemma LastQueued(g: Group)
    ensures g.finals != [] ==> Queue(g) != [] && Last(Queue(g)) == Lifted(Last(g.finals))
    ensures g.finals == [] && g.vowels != [] ==> Queue(g) != [] && Last(Queue(g)).jamo.Jung?
    ensures g.finals == [] && g.vowels == [] && g.initial.None? ==> Queue(g) == []
    ensures g.finals == [] && g.vowels == [] && g.initial.Some? ==> Queue(g) == [Key(Cho(g.initial.value))]
  {
  }

  // ---------- every group is one character, and no key is lost ----------

  lemma {:induction false} VowelsProper(t: Table, vs: seq<Medial>)
    requires ProperTable(t) && (forall v <- vs :: v >= 0)
    ensures FoldVowels(t, vs).Some? ==> FoldVowels(t, vs).value >= 0
  {
    if |vs| > 1 {
      assert forall v <- Init(vs) :: v in vs;
      VowelsProper(t, Init(vs));
    } else if |vs| == 1 {
      assert vs[0] in vs;
    }
  }

  lemma FinalsProper(t: Table, fs: seq<Initial>)
    requires ProperTable(t)
    ensures FoldFinals(t, fs).Some? ==> FoldFinals(t, fs).value > 0
  {
  }

  /** A group writes exactly one character, and that is what closing it emits. */
  lemma OneCharacter(t: Table, g: Group)
    requires ProperTable(t) && WellFormed(t, g) && g != NOTHING
    ensures GetSyllable(Block(t, g)).Some? && Render(Block(t, g)) == GetSyllable(Block(t, g))
    ensures |Written(t, g)| == 1
    ensures g.initial.Some? && g.vowels != [] <==> IsSyllable(Written(t, g)[0])
  {
    VowelsProper(t, g.vowels);
    FinalsProper(t, g.finals);
    var b := Block(t, g);
    CompatRange(if b.cho.Some? then b.cho.value else 0,
                if b.jung.Some? then b.jung.value else 0,
                if b.jong.Some? then b.jong.value else 0);
  }

  predicate Grouping(t: Table, gs: seq<Group>) {
    forall g <- gs :: WellFormed(t, g) && g != NOTHING
  }

  lemma LettersVowel(g: Group, v: Medial)
    requires g.finals == []
    ensures Letters(g.(vowels := g.vowels + [v])) == Letters(g) + [Jung(v)]
  {
  }

  lemma LettersFinal(g: Group, c: Initial)
    ensures Letters(g.(finals := g.finals + [c])) == Letters(g) + [Cho(c)]
  {
  }

  lemma VowelStep(t: Table, g: Group, w: seq<TwoSetKey>)
    requires w != [] && w[0].Jung?
    ensures var v := w[0].jung;
            && (g == NOTHING ==> VowelFits(t, g, v))
            && Next(t, g, w) == (if VowelFits(t, g, v) then g.(vowels := g.vowels + [v]) else Group(None, [v], []))
            && (Breaks(t, g, w) <==> !VowelFits(t, g, v))
            && !Jams(t, g, w)
  {
  }

  lemma ConsonantStep(t: Table, g: Group, w: seq<TwoSetKey>)
    requires w != [] && w[0].Cho?
    ensures var c := w[0].cho;
            var stays := g != NOTHING && FinalFits(t, g, c) && !VowelNext(w);
            && Next(t, g, w) == (if stays then g.(finals := g.finals + [c]) else Group(Some(c), [], []))
            && (Breaks(t, g, w) <==> g != NOTHING && !stays)
  {
  }

  lemma NextWellFormed(t: Table, g: Group, w: seq<TwoSetKey>)
    requires w != [] && WellFormed(t, g) && (g.finals != [] ==> w[0].Cho?)
    ensures var h := Next(t, g, w);
            && WellFormed(t, h) && h != NOTHING
            && (Breaks(t, g, w) ==> g != NOTHING)
            && (h.finals != [] && |w| > 1 ==> w[1].Cho?)
            && Letters(h) == (if Breaks(t, g, w) then [] else Letters(g)) + [w[0]]
  {
    hide FoldFinals, ToJong, Next, Breaks, Letters, FoldVowels;
    if w[0].Jung? {
      VowelStep(t, g, w);
      SingleVowel(t, w[0].jung);
      if VowelFits(t, g, w[0].jung) {
        LettersVowel(g, w[0].jung);
      }
    } else {
      ConsonantStep(t, g, w);
      LettersFinal(g, w[0].cho);
      SingleInitial(w[0].cho);
      if g == NOTHING {
        ParseNothing(t, g);
      }
    }
  }

  /** A key that does not break the group adds none. */
  lemma Kept(t: Table, g: Group, w: seq<TwoSetKey>)
    requires w != []
    ensures !Breaks(t, g, w) ==> Parse(t, g, w).groups == Parse(t, Next(t, g, w), w[1..]).groups
    ensures Parse(t, g, w).clean <==> Parse(t, Next(t, g, w), w[1..]).clean && !Jams(t, g, w)
  {
  }

  lemma SingleVowel(t: Table, v: Medial)
    ensures FoldVowels(t, [v]) == Some(v)
    ensures Letters(Group(None, [v], [])) == [Jung(v)]
  {
  }

  lemma SingleInitial(c: Initial)
    ensures Letters(Group(Some(c), [], [])) == [Cho(c)]
  {
  }

  lemma Unfold(t: Table, g: Group, w: seq<TwoSetKey>)
    ensures w == [] ==> Parse(t, g, w) == Reading(if g == NOTHING then [] else [g], true)
    ensures w != [] ==>
      var rest := Parse(t, Next(t, g, w), w[1..]);
      && Parse(t, g, w).groups == (if Breaks(t, g, w) then [g] else []) + rest.groups
      && (Parse(t, g, w).clean <==> rest.clean && !Jams(t, g, w))
  {
  }

  /** Segmentation: the groups are well-formed characters whose keys, put end to end, are
      the keys typed: none lost, doubled or moved. */
  lemma {:induction false} ParseSegments(t: Table, g: Group, w: seq<TwoSetKey>)
    requires WellFormed(t, g) && (g.finals != [] ==> w == [] || w[0].Cho?)
    ensures Grouping(t, Parse(t, g, w).groups)
    ensures LettersAll(Parse(t, g, w).groups) == Letters(g) + w
    ensures Parse(t, g, w).groups == [] <==> g == NOTHING && w == []
    decreases |w|
  {
    hide WellFormed, Letters, Next, Breaks, Jams, Parse;
    Unfold(t, g, w);
    if w == [] {
      ParseNothing(t, g);
      assert LettersAll([g]) == Letters(g) + LettersAll([]);
    } else {
      var h := Next(t, g, w);
      NextWellFormed(t, g, w);
      ParseSegments(t, h, w[1..]);
      var rest := Parse(t, h, w[1..]).groups;
      assert w == [w[0]] + w[1..];
      assert ([g] + rest)[1..] == rest;
      if !Breaks(t, g, w) {
        assert [] + rest == rest;
      }
    }
  }

  lemma ParseNothing(t: Table, g: Group)
    ensures Parse(t, g, []) == Reading(if g == NOTHING then [] else [g], true)
    ensures Letters(NOTHING) == []
  {
  }
}
