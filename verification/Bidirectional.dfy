/** Combining letters in either order on a three-set keyboard. */
module Bidirectional {
  import opened Wrappers
  import opened Jamo
  import opened HangulChars
  import opened Fold
  import opened Automaton
  import opened Runs

  /** No combination yields its own second letter. */
  ghost predicate NewLetter(t: Table) {
    forall a, b :: Combine(t, a, b) != Some(b)
  }

  /** What typing `x` makes of the region letter `e` in reverse. */
  function Turned(t: Table, e: JamoEnum, x: JamoEnum): Option<JamoEnum> {
    if !SameKind(x, e) || (e, x) in t then None else Combine(t, x, e)
  }

  /** No letter combines with `e` in reverse. */
  ghost predicate Unturned(t: Table, e: JamoEnum) {
    forall x :: Turned(t, e, x).None?
  }

  /** No result of the table combines in reverse with a further letter. */
  ghost predicate ResultsStay(t: Table) {
    forall a, b | SameKind(a, b) && Combine(t, a, b).Some? :: Unturned(t, Combine(t, a, b).value)
  }

  function RegionOf(h: HangulChar, k: Kind): (r: Option<JamoEnum>)
    ensures r.Some? ==> IsKind(k, r.value)
  {
    match k
    case Initials => (match h.cho case Some(c) => Some(Cho(c)) case None => None)
    case Medials => (match h.jung case Some(v) => Some(Jung(v)) case None => None)
    case Finals => (match h.jong case Some(f) => Some(Jong(f)) case None => None)
  }

  /** The folded syllable shows each region's fold. */
  lemma RegionMeans(t: Table, q: seq<Stroke>, k: Kind)
    requires Folded(t, q).Some?
    ensures FoldRegion(t, k, q) == match RegionOf(Folded(t, q).value, k) case None => Vacant case Some(j) => Combined(j)
    ensures RegionOf(Folded(t, q).value, k).None? <==> Phonemes(k, q) == []
  {
  }

  /** Replacing the last letter of a queue by `c`, when it was the only one of its region. */
  lemma ReplaceOnly(t: Table, q: seq<Stroke>, s: Stroke, c: Stroke)
    requires Folded(t, q + [s]).Some? && SameKind(s.jamo, c.jamo) && Phonemes(KindOf(s.jamo), q) == []
    ensures Folded(t, q + [c]) == Some(SetRegion(Folded(t, q + [s]).value, c.jamo))
  {
    hide Folded;
    FoldedSnoc(t, q, s);
    FoldedSnoc(t, q, c);
    FoldedPrefix(t, q + [s], |q|);
    assert (q + [s])[..|q|] == q;
    FilledIffPresent(t, q);
  }

  /** Reversing keeps the cache in agreement with the queue exactly when the letter it meets
      is alone in its region. Only the last queued letter is replaced, but the combination
      was made with the whole region. */
  lemma ReversalExactlySafe(t: Table, st: State, s: Stroke)
    requires NewLetter(t) && Coherent(t, st) && Reversed(t, st, s.jamo).Some?
    ensures Coherent(t, Add3(t, true, st, s).st) <==> |Phonemes(KindOf(s.jamo), st.queue)| == 1
  {
    hide Folded, AddWith, Combine;
    var q, last := Init(st.queue), Last(st.queue);
    var k := KindOf(s.jamo);
    var c := Stroke(Reversed(t, st, s.jamo).value, s.meta);
    assert st.queue == q + [last];
    PhonemesSnoc(k, q, last);
    ReversedResult(t, st, s);
    if Phonemes(k, q) == [] {
      ReplaceOnly(t, q, last, c);
    } else {
      FoldedPrefix(t, st.queue, |q|);
      assert st.queue[..|q|] == q;
      RegionMeans(t, q, k);
      FoldedSnoc(t, q, c);
      StaleRegion(t, Folded(t, q).value, Head(q), c.jamo);
    }
  }

  lemma ReversedResult(t: Table, st: State, s: Stroke)
    requires Reversed(t, st, s.jamo).Some?
    ensures var c := Reversed(t, st, s.jamo).value;
            && Add3(t, true, st, s) == Outcome(State(Init(st.queue) + [Stroke(c, s.meta)], SetRegion(st.cur, c)), None)
            && SameKind(c, s.jamo) && SameKind(Last(st.queue).jamo, s.jamo) && !s.jamo.Special?
  {
  }

  /** The option never takes a combination over that the table has in the order typed. */
  lemma ForwardWins(t: Table, st: State, s: Stroke)
    requires !s.jamo.Special? && InRegion(st.cur, s.jamo).Some? && (InRegion(st.cur, s.jamo).value, s.jamo) in t
    ensures Add3(t, true, st, s) == Add3(t, false, st, s)
  {
    hide AddWith;
  }

  /** Adding `c` to a region that already has a letter never leaves just `c` there. */
  lemma StaleRegion(t: Table, h: HangulChar, head: bool, c: JamoEnum)
    requires NewLetter(t) && !c.Special? && RegionOf(h, KindOf(c)).Some?
    ensures Absorb(t, h, head, c).Some? ==> RegionOf(Absorb(t, h, head, c).value, KindOf(c)) != Some(c)
    ensures forall x: HangulChar :: RegionOf(SetRegion(x, c), KindOf(c)) == Some(c)
  {
  }

  // ---------- the cache over runs, with the option on ----------

  /** Two or more letters of a region fold to a combination result. */
  lemma ManyGiveResult(t: Table, k: Kind, ps: seq<Stroke>)
    requires |ps| >= 2 && FoldStrokes(t, ps).Combined? && forall p <- ps :: IsKind(k, p.jamo)
    ensures exists a, b :: SameKind(a, b) && Combine(t, a, b) == Some(FoldStrokes(t, ps).jamo)
  {
    var a := FoldStrokes(t, Init(ps));
    assert forall p <- Init(ps) :: p in ps;
    FoldKeepsKind(t, k, Init(ps));
    assert Last(ps) in ps;
    assert Combine(t, a.jamo, Last(ps).jamo) == Some(FoldStrokes(t, ps).jamo);
  }

  /** If results stay, a reversed combination only ever meets a lone letter. */
  lemma AloneInRegion(t: Table, st: State, s: Stroke)
    requires ResultsStay(t) && Coherent(t, st) && Reversed(t, st, s.jamo).Some?
    ensures Phonemes(KindOf(s.jamo), Init(st.queue)) == []
  {
    hide Folded, FoldStrokes, Phonemes, Absorb;
    var q, last := Init(st.queue), Last(st.queue);
    var k := KindOf(s.jamo);
    assert st.queue == q + [last];
    PhonemesSnoc(k, q, last);
    RegionMeans(t, st.queue, k);
    var e := RegionOf(st.cur, k).value;
    assert Turned(t, e, s.jamo).Some?;
    if Phonemes(k, q) != [] {
      ManyGiveResult(t, k, Phonemes(k, st.queue));
    }
  }

  /** If results stay, the cache always agrees with the queue, with the option as without. */
  lemma Add3Coherent(t: Table, bidirectional: bool, st: State, s: Stroke)
    requires Coherent(t, st) && (bidirectional ==> ResultsStay(t))
    ensures Coherent(t, Add3(t, bidirectional, st, s).st)
  {
    hide Folded, AddWith;
    if s.jamo.Special? {
      IgnoresSpecial(t, st, s);
    } else if bidirectional && Reversed(t, st, s.jamo).Some? {
      var q, last := Init(st.queue), Last(st.queue);
      assert st.queue == q + [last];
      AloneInRegion(t, st, s);
      ReplaceOnly(t, q, last, Stroke(Reversed(t, st, s.jamo).value, s.meta));
    } else {
      AddWithCoherent(ThreeBul, t, st, s);
    }
  }

  lemma IgnoresSpecial(t: Table, st: State, s: Stroke)
    requires s.jamo.Special?
    ensures AddWith(ThreeBul, t, st, s) == Outcome(st, None)
  {
  }

  // ---------- what every run keeps, whatever the table ----------

  /** May a letter follow another within a syllable? */
  predicate Follows(p: JamoEnum, j: JamoEnum) {
    (p.Cho? && (j.Cho? || j.Jung?)) || (p.Jung? && (j.Jung? || j.Jong?)) || (p.Jong? && j.Jong?)
  }

  predicate Tidy(q: seq<Stroke>) {
    && (forall i | 0 <= i < |q| :: !q[i].jamo.Special?)
    && (forall i | 0 < i < |q| :: Follows(q[i - 1].jamo, q[i].jamo))
  }

  /** The queue is in syllable order, and no vowel is cached without one queued. */
  predicate Sane(st: State) {
    Tidy(st.queue) && (Phonemes(Medials, st.queue) == [] ==> st.cur.jung.None?)
  }

  lemma TidySnoc(q: seq<Stroke>, s: Stroke)
    ensures Tidy(q + [s]) <==> Tidy(q) && !s.jamo.Special? && (q == [] || Follows(Last(q).jamo, s.jamo))
  {
    var r := q + [s];
    if Tidy(r) {
      assert r[|q|] == s;
      assert forall i | 0 <= i < |q| :: r[i] == q[i];
      if q != [] {
        assert r[|q| - 1] == Last(q);
      }
    }
  }

  lemma {:induction false} OnlyInitials(q: seq<Stroke>)
    requires Tidy(q) && q != [] && Last(q).jamo.Cho?
    ensures Phonemes(Medials, q) == [] && Phonemes(Finals, q) == []
  {
    assert q == Init(q) + [Last(q)];
    TidySnoc(Init(q), Last(q));
    if Init(q) != [] {
      OnlyInitials(Init(q));
    }
  }

  /** A queue in syllable order breaks no rule, whatever is cached. */
  lemma TidyNeverViolates(q: seq<Stroke>, h: HangulChar)
    requires Tidy(q)
    ensures !Violates(ThreeBul, q, h)
  {
    if |q| > 1 {
      assert Follows(q[|q| - 2].jamo, q[|q| - 1].jamo);
    }
  }

  /** In a sane state the rules are exactly the syllable order. */
  lemma RulesAreOrder(st: State, s: Stroke)
    requires Sane(st) && !s.jamo.Special?
    ensures Violates(ThreeBul, st.queue + [s], st.cur) <==> !Tidy(st.queue + [s])
  {
    hide Phonemes;
    TidySnoc(st.queue, s);
    if st.queue != [] {
      assert (st.queue + [s])[|st.queue| - 1] == Last(st.queue);
      assert Last(st.queue) == st.queue[|st.queue| - 1];
      if Last(st.queue).jamo.Cho? {
        OnlyInitials(st.queue);
      }
    }
  }

  lemma RefoldedVowel(t: Table, q: seq<Stroke>, h: HangulChar)
    ensures Phonemes(Medials, q) == [] ==> Refold(t, q, h).jung.None?
  {
    FoldKeepsKind(t, Medials, Phonemes(Medials, q));
  }

  lemma SaneAlone(t: Table, s: Stroke)
    requires !s.jamo.Special?
    ensures Sane(State([s], TryCompose(ThreeBul, t, State([s], EMPTY)).cur))
  {
    hide FoldRegion, Phonemes;
    RefoldedVowel(t, [s], EMPTY);
  }

  lemma SaneAdd(t: Table, b: bool, st: State, s: Stroke)
    requires Sane(st)
    ensures Sane(Add3(t, b, st, s).st)
  {
    hide Refold, Phonemes, Violates, Render, Tidy, Combine, Folds, SetRegion, InRegion;
    if s.jamo.Special? {
      IgnoresSpecial(t, st, s);
    } else if b && Reversed(t, st, s.jamo).Some? {
      SaneReversed(t, st, s);
    } else {
      RulesAreOrder(st, s);
      RefoldedVowel(t, st.queue + [s], st.cur);
      SaneAlone(t, s);
    }
  }

  lemma SaneReversed(t: Table, st: State, s: Stroke)
    requires Sane(st) && Reversed(t, st, s.jamo).Some?
    ensures Sane(Add3(t, true, st, s).st)
  {
    hide Phonemes, Tidy, Reversed, AddWith;
    ReversedResult(t, st, s);
    var q, c := Init(st.queue), Stroke(Reversed(t, st, s.jamo).value, s.meta);
    assert st.queue == q + [Last(st.queue)];
    TidySnoc(q, Last(st.queue));
    TidySnoc(q, c);
    PhonemesSnoc(Medials, q, Last(st.queue));
    PhonemesSnoc(Medials, q, c);
  }

  lemma SaneAct(t: Table, b: bool, st: State, a: Action)
    requires Sane(st)
    ensures Sane(Act(Three(t, b), st, a).st)
  {
    hide Refold, Phonemes, Tidy, Folds;
    NothingIsSane();
    match a {
      case Type(s) => SaneAdd(t, b, st, s);
      case Close =>
      case Erase =>
        if st.queue != [] {
          assert st.queue == Init(st.queue) + [Last(st.queue)];
          TidySnoc(Init(st.queue), Last(st.queue));
          RefoldedVowel(t, Init(st.queue), st.cur);
        }
    }
  }

  lemma NothingIsSane()
    ensures Sane(FRESH) && Tidy([])
  {
  }

  lemma {:induction false} SaneRun(t: Table, b: bool, st: State, actions: seq<Action>)
    requires Sane(st)
    ensures Sane(Perform(Three(t, b), st, actions).st)
    decreases |actions|
  {
    hide Sane, Act;
    if actions != [] {
      SaneRun(t, b, st, Init(actions));
      SaneAct(t, b, Perform(Three(t, b), st, Init(actions)).st, Last(actions));
    }
  }
}
