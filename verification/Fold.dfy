/** How a queue of letters folds into one syllable through a combination table:
    the meaning that the composers cache in their current syllable. */
module Fold {
  import opened Wrappers
  import opened Jamo
  import opened HangulChars

  /** Per-key property: may this vowel start a compound vowel? */
  datatype JamoMeta = JamoMeta(vowelCombineHead: bool)

  const DEFAULT_META := JamoMeta(true)

  datatype Stroke = Stroke(jamo: JamoEnum, meta: JamoMeta)

  type Table = map<(JamoEnum, JamoEnum), JamoEnum>

  /** The combination of `a` then `b`, when the table gives one of the same kind. */
  function Combine(t: Table, a: JamoEnum, b: JamoEnum): (r: Option<JamoEnum>)
    ensures r.Some? ==> SameKind(r.value, a)
  {
    if (a, b) in t && SameKind(t[(a, b)], a) then Some(t[(a, b)]) else None
  }

  /** The outcome of folding the letters of one region. */
  datatype Region = Vacant | Combined(jamo: JamoEnum) | Stuck

  datatype Kind = Initials | Medials | Finals

  predicate IsKind(k: Kind, j: JamoEnum) {
    match k
    case Initials => j.Cho?
    case Medials => j.Jung?
    case Finals => j.Jong?
  }

  function KindOf(j: JamoEnum): Kind
    requires !j.Special?
  {
    match j case Cho(_) => Initials case Jung(_) => Medials case Jong(_) => Finals
  }

  /** The strokes of one region, in typing order. */
  function Phonemes(k: Kind, q: seq<Stroke>): (ps: seq<Stroke>)
    ensures |ps| <= |q|
    ensures forall p <- ps :: IsKind(k, p.jamo)
  {
    if q == [] then []
    else Phonemes(k, Init(q)) + (if IsKind(k, Last(q).jamo) then [Last(q)] else [])
  }

  /** One more letter in a region whose letters so far fold to `r`. `head` tells whether
      the region's first letter may start a compound. */
  function Extend(t: Table, r: Region, head: bool, j: JamoEnum): Region {
    match r
    case Vacant => Combined(j)
    case Stuck => Stuck
    case Combined(a) =>
      if a.Jung? && !head then Stuck
      else match Combine(t, a, j) case Some(b) => Combined(b) case None => Stuck
  }

  /** Left fold of a region's letters through the table. */
  function FoldStrokes(t: Table, ps: seq<Stroke>): Region {
    if ps == [] then Vacant
    else Extend(t, FoldStrokes(t, Init(ps)), ps[0].meta.vowelCombineHead, Last(ps).jamo)
  }

  function FoldRegion(t: Table, k: Kind, q: seq<Stroke>): (r: Region)
    ensures r.Combined? ==> IsKind(k, r.jamo)
  {
    var ps := Phonemes(k, q);
    FoldKeepsKind(t, k, ps);
    FoldStrokes(t, ps)
  }

  lemma FoldKeepsKind(t: Table, k: Kind, ps: seq<Stroke>)
    requires forall p <- ps :: IsKind(k, p.jamo)
    ensures var r := FoldStrokes(t, ps); r.Combined? ==> IsKind(k, r.jamo)
    ensures ps != [] ==> !FoldStrokes(t, ps).Vacant?
  {
    if ps != [] {
      FoldKeepsKind(t, k, Init(ps));
    }
  }

  /** Whether the first vowel of the queue may start a compound (true if there is none). */
  function Head(q: seq<Stroke>): bool {
    var ps := Phonemes(Medials, q);
    if ps == [] then true else ps[0].meta.vowelCombineHead
  }

  function ChoOf(r: Region, stale: Option<Initial>): Option<Initial>
    requires r.Combined? ==> r.jamo.Cho?
  {
    match r case Vacant => None case Combined(j) => Some(j.cho) case Stuck => stale
  }

  function JungOf(r: Region, stale: Option<Medial>): Option<Medial>
    requires r.Combined? ==> r.jamo.Jung?
  {
    match r case Vacant => None case Combined(j) => Some(j.jung) case Stuck => stale
  }

  function JongOf(r: Region, stale: Option<Final>): Option<Final>
    requires r.Combined? ==> r.jamo.Jong?
  {
    match r case Vacant => None case Combined(j) => Some(j.jong) case Stuck => stale
  }

  /** All three regions of the queue combine. */
  predicate Folds(t: Table, q: seq<Stroke>) {
    !FoldRegion(t, Initials, q).Stuck? && !FoldRegion(t, Medials, q).Stuck? && !FoldRegion(t, Finals, q).Stuck?
  }

  /** The syllable after recomposing from the queue: a region that does not combine
      leaves the stale letter of `cur` in place. */
  function Refold(t: Table, q: seq<Stroke>, cur: HangulChar): HangulChar {
    HangulChar(ChoOf(FoldRegion(t, Initials, q), cur.cho),
               JungOf(FoldRegion(t, Medials, q), cur.jung),
               JongOf(FoldRegion(t, Finals, q), cur.jong))
  }

  /** The syllable a queue means, independent of any cache. */
  function Folded(t: Table, q: seq<Stroke>): Option<HangulChar> {
    if Folds(t, q) then Some(Refold(t, q, EMPTY)) else None
  }

  /** The syllable `h` with letter `j` added. */
  function Absorb(t: Table, h: HangulChar, head: bool, j: JamoEnum): Option<HangulChar> {
    match j
    case Cho(c) =>
      (match h.cho
       case None => Some(h.(cho := Some(c)))
       case Some(a) => match Combine(t, Cho(a), j) case Some(b) => Some(h.(cho := Some(b.cho))) case None => None)
    case Jung(v) =>
      (match h.jung
       case None => Some(h.(jung := Some(v)))
       case Some(a) =>
         if !head then None
         else match Combine(t, Jung(a), j) case Some(b) => Some(h.(jung := Some(b.jung))) case None => None)
    case Jong(f) =>
      (match h.jong
       case None => Some(h.(jong := Some(f)))
       case Some(a) => match Combine(t, Jong(a), j) case Some(b) => Some(h.(jong := Some(b.jong))) case None => None)
    case Special(_) => Some(h)
  }

  lemma PhonemesSnoc(k: Kind, q: seq<Stroke>, s: Stroke)
    ensures Phonemes(k, q + [s]) == Phonemes(k, q) + (if IsKind(k, s.jamo) then [s] else [])
  {
  }

  lemma FoldStrokesSnoc(t: Table, ps: seq<Stroke>, s: Stroke)
    ensures FoldStrokes(t, ps + [s]) ==
            Extend(t, FoldStrokes(t, ps), ps != [] ==> ps[0].meta.vowelCombineHead, s.jamo)
  {
  }

  lemma RegionSnoc(t: Table, k: Kind, q: seq<Stroke>, s: Stroke)
    ensures FoldRegion(t, k, q + [s]) ==
            if IsKind(k, s.jamo) then Extend(t, FoldRegion(t, k, q), k.Medials? ==> Head(q), s.jamo)
            else FoldRegion(t, k, q)
  {
    PhonemesSnoc(k, q, s);
    if IsKind(k, s.jamo) {
      FoldStrokesSnoc(t, Phonemes(k, q), s);
      var r := FoldRegion(t, k, q);
      assert r == FoldStrokes(t, Phonemes(k, q));
      assert r.Combined? && !k.Medials? ==> !r.jamo.Jung?;
    } else {
      assert Phonemes(k, q + [s]) == Phonemes(k, q);
    }
  }

  lemma HeadSnoc(q: seq<Stroke>, s: Stroke)
    ensures Head(q + [s]) == if s.jamo.Jung? && Phonemes(Medials, q) == [] then s.meta.vowelCombineHead else Head(q)
  {
  }

  /** Typing one more letter: the fold of the longer queue from the fold of the shorter. */
  lemma FoldedSnoc(t: Table, q: seq<Stroke>, s: Stroke)
    ensures Folded(t, q + [s]) ==
            match Folded(t, q) case None => None case Some(h) => Absorb(t, h, Head(q), s.jamo)
    ensures Head(q + [s]) == if s.jamo.Jung? && Phonemes(Medials, q) == [] then s.meta.vowelCombineHead else Head(q)
  {
    hide FoldRegion, Combine, Phonemes, Head;
    RegionSnoc(t, Initials, q, s);
    RegionSnoc(t, Medials, q, s);
    RegionSnoc(t, Finals, q, s);
    HeadSnoc(q, s);
  }

  /** Every prefix of a queue that folds also folds. */
  lemma FoldedPrefix(t: Table, q: seq<Stroke>, n: nat)
    requires n <= |q| && Folded(t, q).Some?
    ensures Folded(t, q[..n]).Some?
  {
    if n < |q| {
      assert q == Init(q) + [Last(q)];
      FoldedSnoc(t, Init(q), Last(q));
      FoldedPrefix(t, Init(q), n);
      assert Init(q)[..n] == q[..n];
    } else {
      assert q[..n] == q;
    }
  }

  lemma FoldedEmpty(t: Table)
    ensures Folded(t, []) == Some(EMPTY)
  {
  }

  lemma FoldedSingle(t: Table, s: Stroke)
    ensures Folded(t, [s]) == Absorb(t, EMPTY, true, s.jamo)
    ensures Head([s]) == (s.jamo.Jung? ==> s.meta.vowelCombineHead)
  {
    assert [s] == [] + [s];
    FoldedSnoc(t, [], s);
  }

  lemma SingleFolds(t: Table, s: Stroke)
    ensures Folded(t, [s]).Some?
  {
    FoldedSingle(t, s);
  }

  /** A region is filled in the folded syllable exactly when the queue has a letter of it. */
  lemma FilledIffPresent(t: Table, q: seq<Stroke>)
    requires Folded(t, q).Some?
    ensures var h := Folded(t, q).value;
            && (h.cho.Some? <==> Phonemes(Initials, q) != [])
            && (h.jung.Some? <==> Phonemes(Medials, q) != [])
            && (h.jong.Some? <==> Phonemes(Finals, q) != [])
  {
    FoldKeepsKind(t, Initials, Phonemes(Initials, q));
    FoldKeepsKind(t, Medials, Phonemes(Medials, q));
    FoldKeepsKind(t, Finals, Phonemes(Finals, q));
  }

  /** If recomposition succeeds, what was cached before does not matter. */
  lemma RefoldForgets(t: Table, q: seq<Stroke>, cur: HangulChar)
    requires Folded(t, q).Some?
    ensures Refold(t, q, cur) == Folded(t, q).value
  {
  }

  /** A rejected letter leaves a correct cache untouched: the two other regions recompute
      to what they were, and the stuck one keeps its old letter. */
  lemma RejectedLetterIsHarmless(t: Table, q: seq<Stroke>, s: Stroke)
    requires Folded(t, q).Some? && Folded(t, q + [s]).None?
    ensures Refold(t, q + [s], Folded(t, q).value) == Folded(t, q).value
  {
    RegionSnoc(t, Initials, q, s);
    RegionSnoc(t, Medials, q, s);
    RegionSnoc(t, Finals, q, s);
  }

  lemma {:induction false} StuckAtTwo(t: Table, ps: seq<Stroke>)
    requires |ps| >= 2 && ps[0].jamo.Jung? && !ps[0].meta.vowelCombineHead
    ensures FoldStrokes(t, ps).Stuck?
    decreases |ps|
  {
    if |ps| == 2 {
      assert Init(ps) == [ps[0]] && Init([ps[0]]) == [];
      assert FoldStrokes(t, []) == Vacant;
      assert FoldStrokes(t, [ps[0]]) == Combined(ps[0].jamo);
    } else {
      StuckAtTwo(t, Init(ps));
    }
  }

  /** Vowels combine only if the first of them is typed with a key that may start a compound; the
      keys of the others do not matter. */
  lemma FirstVowelDecides(t: Table, q: seq<Stroke>)
    ensures var ps := Phonemes(Medials, q);
            |ps| >= 2 && !ps[0].meta.vowelCombineHead ==> Folded(t, q).None?
    ensures var ps := Phonemes(Medials, q);
            ps != [] && ps[0].meta.vowelCombineHead ==> FoldRegion(t, Medials, q) == PlainFold(t, ps)
  {
    var ps := Phonemes(Medials, q);
    if |ps| >= 2 && !ps[0].meta.vowelCombineHead {
      assert ps[0] in ps;
      StuckAtTwo(t, ps);
    }
    if ps != [] && ps[0].meta.vowelCombineHead {
      FoldIsPlain(t, ps);
    }
  }

  /** The left fold of the letters alone, keys aside. */
  function PlainFold(t: Table, ps: seq<Stroke>): Region {
    if ps == [] then Vacant else Extend(t, PlainFold(t, Init(ps)), true, Last(ps).jamo)
  }

  lemma {:induction false} FoldIsPlain(t: Table, ps: seq<Stroke>)
    requires ps != [] ==> ps[0].meta.vowelCombineHead
    ensures FoldStrokes(t, ps) == PlainFold(t, ps)
  {
    if ps != [] {
      FoldIsPlain(t, Init(ps));
    }
  }
}
