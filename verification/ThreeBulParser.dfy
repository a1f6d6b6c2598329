/** What three-set typing means, stated without a composer: take the longest run of letters
    that is one syllable block, then the next, and so on. */
module ThreeBulParser {
  import opened Wrappers
  import opened Jamo
  import opened HangulChars
  import opened Fold
  import opened Automaton
  import opened TwoBulParser

  function Rank(j: JamoEnum): int {
    match j case Cho(_) => 0 case Jung(_) => 1 case Jong(_) => 2 case Special(_) => 3
  }

  predicate Has(k: Kind, q: seq<Stroke>) {
    exists i | 0 <= i < |q| :: IsKind(k, q[i].jamo)
  }

  /** Initials, then vowels, then finals. */
  predicate Ordered(q: seq<Stroke>) {
    && (forall i | 0 <= i < |q| :: !q[i].jamo.Special?)
    && (forall i, j | 0 <= i < j < |q| :: Rank(q[i].jamo) <= Rank(q[j].jamo))
  }

  /** One block: ordered, every region combines, and no final follows bare initials. */
  predicate IsBlock(t: Table, q: seq<Stroke>) {
    && Ordered(q)
    && Folded(t, q).Some?
    && (Has(Initials, q) && Has(Finals, q) ==> Has(Medials, q))
  }

  lemma {:induction false} PhonemesHas(k: Kind, q: seq<Stroke>)
    ensures Phonemes(k, q) != [] <==> Has(k, q)
  {
    if q != [] {
      PhonemesHas(k, Init(q));
      assert q == Init(q) + [Last(q)];
      assert Has(k, q) <==> Has(k, Init(q)) || IsKind(k, Last(q).jamo) by {
        HasSnoc(k, Init(q), Last(q));
      }
    }
  }

  lemma HasSnoc(k: Kind, q: seq<Stroke>, s: Stroke)
    ensures Has(k, q + [s]) <==> Has(k, q) || IsKind(k, s.jamo)
  {
    var r := q + [s];
    if Has(k, q) {
      var i :| 0 <= i < |q| && IsKind(k, q[i].jamo);
      assert IsKind(k, r[i].jamo);
    }
    if IsKind(k, s.jamo) {
      assert IsKind(k, r[|q|].jamo);
    }
  }

  lemma OrderedSnoc(q: seq<Stroke>, s: Stroke)
    requires Ordered(q)
    ensures Ordered(q + [s]) <==> !s.jamo.Special? && (q == [] || Rank(Last(q).jamo) <= Rank(s.jamo))
  {
    var r := q + [s];
    if Ordered(r) {
      assert r[|q|] == s;
      if q != [] {
        assert r[|q| - 1] == Last(q);
      }
    }
  }

  /** The composer's local rules decide exactly whether one more letter keeps the block. */
  lemma BlockSnoc(t: Table, q: seq<Stroke>, s: Stroke)
    requires IsBlock(t, q) && q != [] && !s.jamo.Special?
    ensures IsBlock(t, q + [s]) <==>
            !Violates(ThreeBul, q + [s], Folded(t, q).value) && Folded(t, q + [s]).Some?
  {
    hide Folded, Has, Ordered, Phonemes;
    OrderedSnoc(q, s);
    HasSnoc(Initials, q, s);
    HasSnoc(Medials, q, s);
    HasSnoc(Finals, q, s);
    FilledIffPresent(t, q);
    PhonemesHas(Medials, q);
    LastDecides(q);
    assert (q + [s])[|q + [s]| - 2] == Last(q);
  }

  /** In an ordered queue that ends in an initial there are only initials. */
  lemma LastDecides(q: seq<Stroke>)
    requires Ordered(q) && q != []
    ensures !Last(q).jamo.Special?
    ensures Last(q).jamo.Cho? ==> !Has(Medials, q) && !Has(Finals, q) && Has(Initials, q)
    ensures Last(q).jamo.Jung? ==> Has(Medials, q) && !Has(Finals, q)
    ensures Last(q).jamo.Jong? ==> Has(Finals, q)
  {
  }

  lemma {:induction false} BlockPrefix(t: Table, q: seq<Stroke>, n: nat)
    requires IsBlock(t, q) && n <= |q|
    ensures IsBlock(t, q[..n])
  {
    hide Folded;
    FoldedPrefix(t, q, n);
    var p := q[..n];
    if Has(Initials, p) && Has(Finals, p) {
      var i :| 0 <= i < |p| && IsKind(Initials, p[i].jamo);
      var j :| 0 <= j < |p| && IsKind(Finals, p[j].jamo);
      assert q[i] == p[i] && q[j] == p[j];
      var m :| 0 <= m < |q| && IsKind(Medials, q[m].jamo);
      assert m < j;
      assert p[m] == q[m];
    }
  }

  lemma SingleBlock(t: Table, s: Stroke)
    requires !s.jamo.Special?
    ensures IsBlock(t, [s])
  {
    hide Folded;
    SingleFolds(t, s);
  }

  /** Length of the longest prefix that is a block, at least `n`. */
  function Longest(t: Table, w: seq<Stroke>, n: nat): (r: nat)
    requires n <= |w|
    ensures n <= r <= |w|
    decreases |w| - n
  {
    if n < |w| && IsBlock(t, w[..n + 1]) then Longest(t, w, n + 1) else n
  }

  /** `Longest` really is the longest: the block prefixes are exactly those up to it. */
  lemma {:induction false} LongestIsLongest(t: Table, w: seq<Stroke>, n: nat, m: nat)
    requires n <= |w| && m <= |w| && IsBlock(t, w[..n])
    ensures IsBlock(t, w[..m]) <==> m <= Longest(t, w, n)
    decreases |w| - n
  {
    hide IsBlock;
    if m <= n {
      BlockPrefix(t, w[..n], m);
      assert w[..n][..m] == w[..m];
    } else if IsBlock(t, w[..n + 1]) {
      LongestIsLongest(t, w, n + 1, m);
    } else {
      assert w[..m][..n + 1] == w[..n + 1];
      if IsBlock(t, w[..m]) {
        BlockPrefix(t, w[..m], n + 1);
      }
    }
  }

  predicate Letters3(w: seq<Stroke>) {
    forall i | 0 <= i < |w| :: !w[i].jamo.Special?
  }

  /** Greedy segmentation into longest blocks. A single letter is always a block. */
  function Segment(t: Table, w: seq<Stroke>): seq<seq<Stroke>>
    decreases |w|
  {
    if w == [] then []
    else
      var n := Longest(t, w, 1);
      [w[..n]] + Segment(t, w[n..])
  }

  function Flatten(gs: seq<seq<Stroke>>): seq<Stroke> {
    if gs == [] then [] else gs[0] + Flatten(gs[1..])
  }

  /** The segments are blocks whose letters, put end to end, are the letters typed. */
  lemma {:induction false} SegmentCovers(t: Table, w: seq<Stroke>)
    requires Letters3(w)
    ensures Flatten(Segment(t, w)) == w
    ensures forall g <- Segment(t, w) :: g != [] && IsBlock(t, g)
    decreases |w|
  {
    hide IsBlock;
    if w != [] {
      var n := Longest(t, w, 1);
      SegmentCovers(t, w[n..]);
      SingleBlock(t, w[0]);
      assert w[..1] == [w[0]];
      LongestIsLongest(t, w, 1, n);
      assert w == w[..n] + w[n..];
      assert Segment(t, w)[1..] == Segment(t, w[n..]);
    }
  }

  function Meaning(t: Table, g: seq<Stroke>): HangulChar {
    match Folded(t, g) case Some(h) => h case None => EMPTY
  }

  /** The text of segments that were closed by a following letter. */
  function ClosedText(t: Table, gs: seq<seq<Stroke>>): string {
    if gs == [] then "" else Emit(Render(Meaning(t, gs[0]))) + ClosedText(t, gs[1..])
  }

  /** A block that is read up to its end and not extended by the next letter is a segment. */
  lemma SegmentBreaks(t: Table, q: seq<Stroke>, s: Stroke, w: seq<Stroke>)
    requires q != [] && IsBlock(t, q) && !IsBlock(t, q + [s])
    ensures Segment(t, q + ([s] + w)) == [q] + Segment(t, [s] + w)
  {
    hide IsBlock;
    var all := q + ([s] + w);
    assert all[..|q|] == q && all[..|q| + 1] == q + [s] && all[|q|..] == [s] + w;
    BlockPrefix(t, q, 1);
    assert q[..1] == all[..1];
    LongestIsLongest(t, all, 1, |q|);
    LongestIsLongest(t, all, 1, |q| + 1);
  }

  lemma SegmentWhole(t: Table, q: seq<Stroke>)
    requires q != [] && IsBlock(t, q)
    ensures Segment(t, q) == [q]
  {
    hide IsBlock;
    BlockPrefix(t, q, 1);
    assert q[..|q|] == q && q[|q|..] == [];
    LongestIsLongest(t, q, 1, |q|);
    assert Segment(t, []) == [];
  }

  /** Typing refines segmentation: with combination in typing order only, the incremental
      composer commits exactly the greedy segments but the last, and holds the last one. */
  lemma {:induction false} GreedyFrom(t: Table, st: State, w: seq<Stroke>)
    requires Coherent(t, st) && st.queue != [] && IsBlock(t, st.queue) && Letters3(w)
    ensures var r := Feed(Three(t, false), st, w); var gs := Segment(t, st.queue + w);
            gs != [] && r.text == ClosedText(t, Init(gs)) && r.st.queue == Last(gs) && Coherent(t, r.st)
    decreases |w|
  {
    hide IsBlock, Segment, Folded, AddWith, Render;
    var q := st.queue;
    if w == [] {
      assert q + w == q;
      SegmentWhole(t, q);
      assert Init([q]) == [];
    } else {
      var s := w[0];
      assert w == [s] + w[1..];
      assert q + w == q + [s] + w[1..];
      BlockSnoc(t, q, s);
      AddWithCoherent(ThreeBul, t, st, s);
      var step := AddWith(ThreeBul, t, st, s);
      assert Add(Three(t, false), st, s) == step;
      if !IsBlock(t, q + [s]) {
        SingleBlock(t, s);
        SegmentBreaks(t, q, s, w[1..]);
      }
      GreedyFrom(t, step.st, w[1..]);
      if !IsBlock(t, q + [s]) {
        var rest := Segment(t, [s] + w[1..]);
        assert Init([q] + rest) == [q] + Init(rest);
        assert ([q] + Init(rest))[1..] == Init(rest);
      }
    }
  }

  lemma ThreeBulIsGreedy(t: Table, w: seq<Stroke>)
    requires Letters3(w) && w != []
    ensures var r := Feed(Three(t, false), FRESH, w); var gs := Segment(t, w);
            gs != [] && r.text == ClosedText(t, Init(gs)) && r.st.queue == Last(gs) && Coherent(t, r.st)
  {
    hide IsBlock, Segment, Folded, AddWith, Render;
    FoldedEmpty(t);
    var step := AddWith(ThreeBul, t, FRESH, w[0]);
    AddToEmptyQueue(ThreeBul, t, EMPTY, w[0]);
    assert Add(Three(t, false), FRESH, w[0]) == step;
    SingleBlock(t, w[0]);
    assert [w[0]] + w[1..] == w;
    GreedyFrom(t, step.st, w[1..]);
  }

  // ---------- one character per segment ----------

  predicate ProperLetters(q: seq<Stroke>) {
    forall i | 0 <= i < |q| :: Proper(q[i].jamo)
  }

  lemma {:induction false} FoldedProper(t: Table, q: seq<Stroke>)
    requires ProperTable(t) && ProperLetters(q) && Folded(t, q).Some?
    ensures ProperChar(Folded(t, q).value)
  {
    hide Folded;
    if q == [] {
      FoldedEmpty(t);
    } else {
      assert q == Init(q) + [Last(q)];
      FoldedSnoc(t, Init(q), Last(q));
      assert Proper(q[|q| - 1].jamo);
      FoldedProper(t, Init(q));
    }
  }

  /** Every segment is one character, by a split and by a commit alike, except a vowel with
      finals and no initial, which is nothing at all. */
  lemma SegmentCharacter(t: Table, g: seq<Stroke>)
    requires ProperTable(t) && ProperLetters(g) && g != [] && IsBlock(t, g)
    ensures Render(Meaning(t, g)) == GetSyllable(Meaning(t, g))
    ensures Render(Meaning(t, g)).None? <==> !Has(Initials, g) && Has(Medials, g) && Has(Finals, g)
  {
    hide Folded, Has;
    FoldedProper(t, g);
    FilledIffPresent(t, g);
    PhonemesHas(Initials, g);
    PhonemesHas(Medials, g);
    PhonemesHas(Finals, g);
    LastDecides(g);
    assert Has(Initials, g) || Has(Medials, g) || Has(Finals, g);
  }

  lemma {:induction false} ClosedTextLast(t: Table, gs: seq<seq<Stroke>>)
    requires gs != []
    ensures ClosedText(t, gs) == ClosedText(t, Init(gs)) + Emit(Render(Meaning(t, Last(gs))))
  {
    hide Render, Meaning;
    if |gs| > 1 {
      ClosedTextLast(t, gs[1..]);
      assert Init(gs)[1..] == Init(gs[1..]) && Init(gs)[0] == gs[0];
    } else {
      assert ClosedText(t, gs[1..]) == "" && ClosedText(t, Init(gs)) == "";
    }
  }

  lemma {:induction false} FlattenProper(gs: seq<seq<Stroke>>)
    requires ProperLetters(Flatten(gs))
    ensures forall g <- gs :: ProperLetters(g)
  {
    if gs != [] {
      var w := Flatten(gs);
      assert w == gs[0] + Flatten(gs[1..]);
      assert forall i | 0 <= i < |gs[0]| :: gs[0][i] == w[i];
      assert forall i | 0 <= i < |Flatten(gs[1..])| :: Flatten(gs[1..])[i] == w[|gs[0]| + i];
      FlattenProper(gs[1..]);
    }
  }

  /** The text on screen after any letters is the greedy segments, one after another. */
  lemma ThreeBulText(t: Table, w: seq<Stroke>)
    requires ProperTable(t) && ProperLetters(w)
    ensures TextOf(Three(t, false), FRESH, w) == ClosedText(t, Segment(t, w))
  {
    hide IsBlock, Segment, Folded, Render, Feed, Add;
    var gs := Segment(t, w);
    SegmentCovers(t, w);
    if w == [] {
      FeedNothing(t);
    } else {
      ThreeBulIsGreedy(t, w);
      var r := Feed(Three(t, false), FRESH, w);
      assert Last(gs) in gs;
      FlattenProper(gs);
      SegmentCharacter(t, Last(gs));
      ForceCoherent(t, r.st);
      ClosedTextLast(t, gs);
    }
  }

  lemma FeedNothing(t: Table)
    ensures TextOf(Three(t, false), FRESH, []) == "" && Segment(t, []) == []
  {
  }
}
