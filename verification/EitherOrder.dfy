/** Typing two letters in either order on a three-set keyboard with the bidirectional option:
    for which pairs of a table it never shows. */
module EitherOrder {
  import opened Wrappers
  import opened Jamo
  import opened HangulChars
  import opened Fold
  import opened Automaton
  import opened Runs
  import opened Bidirectional

  // ---------- queues that no key can tell apart ----------

  /** The same folds and first-vowel rule, and last letters of the same kind. */
  predicate Alike(t: Table, u: seq<Stroke>, v: seq<Stroke>) {
    && FoldRegion(t, Initials, u) == FoldRegion(t, Initials, v)
    && FoldRegion(t, Medials, u) == FoldRegion(t, Medials, v)
    && FoldRegion(t, Finals, u) == FoldRegion(t, Finals, v)
    && Head(u) == Head(v)
    && (Phonemes(Medials, u) == [] <==> Phonemes(Medials, v) == [])
    && (u == [] <==> v == [])
    && (u != [] ==> Last(u) == Last(v) || SameKind(Last(u).jamo, Last(v).jamo))
  }

  lemma AlikeSnoc(t: Table, u: seq<Stroke>, v: seq<Stroke>, s: Stroke)
    requires Alike(t, u, v)
    ensures Alike(t, u + [s], v + [s])
  {
    hide FoldRegion, Head, Phonemes, Extend;
    RegionSnoc(t, Initials, u, s);
    RegionSnoc(t, Initials, v, s);
    RegionSnoc(t, Medials, u, s);
    RegionSnoc(t, Medials, v, s);
    RegionSnoc(t, Finals, u, s);
    RegionSnoc(t, Finals, v, s);
    HeadSnoc(u, s);
    HeadSnoc(v, s);
    PhonemesSnoc(Medials, u, s);
    PhonemesSnoc(Medials, v, s);
  }

  lemma {:induction false} AlikeAppend(t: Table, u: seq<Stroke>, v: seq<Stroke>, w: seq<Stroke>)
    requires Alike(t, u, v)
    ensures Alike(t, u + w, v + w)
    decreases |w|
  {
    hide Alike;
    if w == [] {
      assert u + w == u && v + w == v;
    } else {
      AlikeAppend(t, u, v, Init(w));
      AlikeSnoc(t, u + Init(w), v + Init(w), Last(w));
      assert u + w == u + Init(w) + [Last(w)] && v + w == v + Init(w) + [Last(w)];
    }
  }

  lemma AlikeRefold(t: Table, u: seq<Stroke>, v: seq<Stroke>, h: HangulChar)
    requires Alike(t, u, v)
    ensures Recompose(t, State(u, h)) == Recompose(t, State(v, h))
  {
    hide FoldRegion, Phonemes, Head;
  }

  lemma AlikeReversed(t: Table, x: State, y: State, j: JamoEnum)
    requires Alike(t, x.queue, y.queue) && x.cur == y.cur
    ensures Reversed(t, x, j) == Reversed(t, y, j)
  {
    hide FoldRegion, Phonemes, Head, Combine;
  }

  /** A letter added to alike states: both keep it or both restart with it. */
  lemma AlikeAdd(t: Table, x: State, y: State, s: Stroke)
    requires Alike(t, x.queue, y.queue) && x.cur == y.cur && Sane(x) && Sane(y) && !s.jamo.Special?
    ensures var r, z := AddWith(ThreeBul, t, x, s), AddWith(ThreeBul, t, y, s);
            && r.out == z.out && r.st.cur == z.st.cur
            && ((r.st.queue == x.queue + [s] && z.st.queue == y.queue + [s])
              || (r.st.queue == [s] && z.st.queue == [s]))
  {
    hide Recompose, Render, Violates, Alike, Phonemes;
    AlikeSnoc(t, x.queue, y.queue, s);
    AlikeOrder(t, x, y, s);
    RulesAreOrder(x, s);
    RulesAreOrder(y, s);
    AlikeRefold(t, x.queue + [s], y.queue + [s], x.cur);
    var h := if Tidy(x.queue + [s]) then Recompose(t, State(x.queue + [s], x.cur)).cur else x.cur;
    TidyNeverViolates(x.queue, h);
    TidyNeverViolates(y.queue, h);
    AlikeRefold(t, x.queue, y.queue, h);
  }

  lemma AlikeOrder(t: Table, x: State, y: State, s: Stroke)
    requires Alike(t, x.queue, y.queue) && Sane(x) && Sane(y) && !s.jamo.Special?
    ensures Tidy(x.queue + [s]) <==> Tidy(y.queue + [s])
    ensures x.queue == [] <==> y.queue == []
  {
    hide FoldRegion, Phonemes, Head, Tidy;
    TidySnoc(x.queue, s);
    TidySnoc(y.queue, s);
  }

  // ---------- twins: alike, and the letters typed since are the same ----------

  ghost predicate Twins(t: Table, x: State, y: State) {
    && x.cur == y.cur && Sane(x) && Sane(y)
    && (x == y || exists u, v, w :: TwinQueues(t, x, y, u, v, w))
  }

  predicate TwinQueues(t: Table, x: State, y: State, u: seq<Stroke>, v: seq<Stroke>, w: seq<Stroke>) {
    w != [] && x.queue == u + w && y.queue == v + w && Alike(t, u, v)
  }

  lemma TwinsAlike(t: Table, x: State, y: State)
    requires Twins(t, x, y)
    ensures Alike(t, x.queue, y.queue) && x.cur == y.cur && Sane(x) && Sane(y)
  {
    hide FoldRegion, Head, Phonemes, Sane;
    if x != y {
      var u, v, w :| TwinQueues(t, x, y, u, v, w);
      AlikeAppend(t, u, v, w);
    }
  }

  /** Whatever is typed, alike states stay twins once a letter has been added. */
  lemma AlikeAddTwins(t: Table, x: State, y: State, s: Stroke)
    requires Alike(t, x.queue, y.queue) && x.cur == y.cur && Sane(x) && Sane(y)
    requires !s.jamo.Special? && Reversed(t, x, s.jamo).None?
    ensures var r, z := Add3(t, true, x, s), Add3(t, true, y, s);
            r.out == z.out && Twins(t, r.st, z.st)
  {
    hide Alike, Sane, AddWith, Reversed;
    AlikeReversed(t, x, y, s.jamo);
    AlikeAdd(t, x, y, s);
    SaneAdd(t, true, x, s);
    SaneAdd(t, true, y, s);
    var r, z := Add3(t, true, x, s).st, Add3(t, true, y, s).st;
    if r.queue == x.queue + [s] && z.queue == y.queue + [s] {
      assert TwinQueues(t, r, z, x.queue, y.queue, [s]);
    } else {
      assert r == z;
    }
  }

  /** A reversal replaces the last letter typed since, on both sides. */
  lemma TwinsReversed(t: Table, x: State, y: State, s: Stroke)
    requires Twins(t, x, y) && Reversed(t, x, s.jamo).Some?
    ensures var r, z := Add3(t, true, x, s), Add3(t, true, y, s);
            r.out == z.out && Twins(t, r.st, z.st)
  {
    hide Alike, Sane, AddWith, Reversed, Add3;
    TwinsAlike(t, x, y);
    AlikeReversed(t, x, y, s.jamo);
    ReversedResult(t, x, s);
    ReversedResult(t, y, s);
    SaneAdd(t, true, x, s);
    SaneAdd(t, true, y, s);
    var c := Stroke(Reversed(t, x, s.jamo).value, s.meta);
    var r, z := Add3(t, true, x, s).st, Add3(t, true, y, s).st;
    if x != y {
      var u, v, w :| TwinQueues(t, x, y, u, v, w);
      assert Init(u + w) + [c] == u + (Init(w) + [c]) && Init(v + w) + [c] == v + (Init(w) + [c]);
      assert TwinQueues(t, r, z, u, v, Init(w) + [c]);
    }
  }

  lemma AlikeClose(t: Table, x: State, y: State)
    requires Alike(t, x.queue, y.queue) && x.cur == y.cur && Sane(x) && Sane(y)
    ensures var r, z := Force(t, x), Force(t, y); r.out == z.out && Twins(t, r.st, z.st)
  {
    hide Recompose, GetSyllable, FoldRegion, Head, Phonemes;
    AlikeRefold(t, x.queue, y.queue, x.cur);
    NothingIsSane();
  }

  predicate NoErase(actions: seq<Action>) {
    forall a <- actions :: !a.Erase?
  }

  lemma TwinsAct(t: Table, x: State, y: State, a: Action)
    requires Twins(t, x, y) && !a.Erase?
    ensures var r, z := Act(Three(t, true), x, a), Act(Three(t, true), y, a);
            r.out == z.out && Twins(t, r.st, z.st)
  {
    hide Twins, Reversed, AddWith, Force, Alike, Sane;
    TwinsAlike(t, x, y);
    match a {
      case Close => AlikeClose(t, x, y);
      case Type(s) =>
        if s.jamo.Special? {
          IgnoresSpecial(t, x, s);
          IgnoresSpecial(t, y, s);
        } else if Reversed(t, x, s.jamo).Some? {
          TwinsReversed(t, x, y, s);
        } else {
          AlikeAddTwins(t, x, y, s);
        }
    }
  }

  // ---------- a pair typed in either order ----------

  /** Only `a` then `b` is in the table. */
  predicate OneWay(t: Table, a: JamoEnum, b: JamoEnum) {
    !a.Special? && SameKind(a, b) && Combine(t, a, b).Some? && (b, a) !in t
  }

  /** Combinations in reverse, one letter after another, starting from `c`. */
  function TurnAll(t: Table, c: JamoEnum, xs: seq<JamoEnum>): (r: Option<JamoEnum>)
    ensures r.Some? ==> xs == [] || SameKind(r.value, c)
  {
    if xs == [] then Some(c)
    else match TurnAll(t, c, Init(xs)) case None => None case Some(e) => Turned(t, e, Last(xs))
  }

  /** With `a` still queued below it, the letter `r` behaves differently from `r` alone. */
  ghost predicate Exposes(t: Table, a: JamoEnum, r: JamoEnum) {
    Combine(t, a, r).Some? || exists y :: SameKind(y, r) && Combine(t, r, y).Some?
  }

  /** Typing order of `a` and `b` cannot show: their combination does not combine in reverse
      or, for finals, nothing that it becomes in reverse combines with any final after it, or
      with `a` before it. */
  ghost predicate Blind(t: Table, a: JamoEnum, b: JamoEnum)
    requires OneWay(t, a, b)
  {
    var c := Combine(t, a, b).value;
    if a.Jong? then forall xs | xs != [] && TurnAll(t, c, xs).Some? :: !Exposes(t, a, TurnAll(t, c, xs).value)
    else Unturned(t, c)
  }

  /** The first letter of the pair: closing what does not fit is the same for both. */
  lemma FirstOfPair(t: Table, st: State, s: Stroke) returns (q: seq<Stroke>)
    requires Sane(st) && !s.jamo.Special? && Phonemes(KindOf(s.jamo), st.queue) == []
    ensures var r := Add3(t, true, st, s);
            && Coherent(t, r.st) && r.st.queue == q + [s] && Folded(t, q).Some?
            && Phonemes(KindOf(s.jamo), q) == []
    ensures Tidy(st.queue + [s]) && OthersFold(t, KindOf(s.jamo), st.queue)
            ==> q == st.queue && Add3(t, true, st, s).out == None
    ensures !(Tidy(st.queue + [s]) && OthersFold(t, KindOf(s.jamo), st.queue)) ==>
              q == [] && Add3(t, true, st, s).out == Render(Refold(t, st.queue, st.cur))
  {
    hide Phonemes, Render, Tidy, Violates, Reversed, Refold, Folds, OthersFold;
    RulesAreOrder(st, s);
    NotReversed(t, st, s);
    PushedRegions(t, st.queue, st.cur, s);
    TidyNeverViolates(st.queue, st.cur);
    TidyNeverViolates(st.queue, Refold(t, st.queue + [s], st.cur));
    SingleFolds(t, s);
    RecomposeSound(t, [s], EMPTY);
    NoRegions(KindOf(s.jamo), t);
    AloneAllowed(s, EMPTY);
    q := if Tidy(st.queue + [s]) && OthersFold(t, KindOf(s.jamo), st.queue) then st.queue else [];
    assert [] + [s] == [s];
    if st.queue == [] {
      NothingFolds(t, KindOf(s.jamo));
      assert st.queue + [s] == [s];
      TidySnoc([], s);
      NothingIsSane();
    }
  }

  /** The regions other than `k` combine. */
  predicate OthersFold(t: Table, k: Kind, q: seq<Stroke>) {
    && (k.Initials? || !FoldRegion(t, Initials, q).Stuck?)
    && (k.Medials? || !FoldRegion(t, Medials, q).Stuck?)
    && (k.Finals? || !FoldRegion(t, Finals, q).Stuck?)
  }

  lemma NothingFolds(t: Table, k: Kind)
    ensures OthersFold(t, k, [])
  {
  }

  lemma NoRegions(k: Kind, t: Table)
    ensures Phonemes(k, []) == [] && Folded(t, []).Some?
  {
  }

  lemma AloneAllowed(s: Stroke, h: HangulChar)
    ensures !Violates(ThreeBul, [s], h)
  {
  }

  lemma NotReversed(t: Table, st: State, s: Stroke)
    requires !s.jamo.Special? && Phonemes(KindOf(s.jamo), st.queue) == []
    ensures Reversed(t, st, s.jamo).None?
  {
  }

  /** A letter pushed into an empty region decides nothing about the others. */
  lemma PushedRegions(t: Table, q: seq<Stroke>, h: HangulChar, s: Stroke)
    requires !s.jamo.Special? && Phonemes(KindOf(s.jamo), q) == []
    ensures Folds(t, q + [s]) <==> OthersFold(t, KindOf(s.jamo), q)
    ensures Folds(t, q) <==> OthersFold(t, KindOf(s.jamo), q)
    ensures Refold(t, q, Refold(t, q + [s], h)) == Refold(t, q, h)
    ensures Folds(t, q + [s]) ==> Folded(t, q + [s]) == Some(Refold(t, q + [s], h))
  {
    hide Phonemes;
    RegionSnoc(t, Initials, q, s);
    RegionSnoc(t, Medials, q, s);
    RegionSnoc(t, Finals, q, s);
    EmptyRegion(t, KindOf(s.jamo), q);
  }

  lemma EmptyRegion(t: Table, k: Kind, q: seq<Stroke>)
    requires Phonemes(k, q) == []
    ensures FoldRegion(t, k, q) == Vacant
  {
  }

  /** A vowel that starts a pair may start a compound. */
  predicate Heads(s: Stroke) {
    s.jamo.Jung? ==> s.meta.vowelCombineHead
  }

  /** The pair in table order. */
  lemma SecondForward(t: Table, q: seq<Stroke>, x: State, sa: Stroke, sb: Stroke)
    requires OneWay(t, sa.jamo, sb.jamo) && Heads(sa) && Phonemes(KindOf(sa.jamo), q) == []
    requires Coherent(t, x) && x.queue == q + [sa] && Folded(t, q).Some?
    ensures var r := Add3(t, true, x, sb); var c := Combine(t, sa.jamo, sb.jamo).value;
            && r.out == None && r.st.queue == q + [sa] + [sb]
            && Coherent(t, r.st) && r.st.cur == SetRegion(Folded(t, q).value, c)
  {
    hide Folded, AddWith, Render, Combine, FoldRegion, Phonemes, Violates, Head;
    RegionMeans(t, q, KindOf(sa.jamo));
    FoldedSnoc(t, q, sa);
    assert InRegion(x.cur, sb.jamo) == Some(sa.jamo);
    InTable(t, sa.jamo, sb.jamo);
    assert Reversed(t, x, sb.jamo).None?;
    FoldedSnoc(t, x.queue, sb);
    AddWithCoherent(ThreeBul, t, x, sb);
    SameKindNeverViolates(x.queue, sb, x.cur);
  }

  /** The pair against table order. */
  lemma SecondReversed(t: Table, q: seq<Stroke>, y: State, sa: Stroke, sb: Stroke)
    requires OneWay(t, sa.jamo, sb.jamo) && Phonemes(KindOf(sa.jamo), q) == []
    requires Coherent(t, y) && y.queue == q + [sb] && Folded(t, q).Some?
    ensures var z := Add3(t, true, y, sa); var c := Combine(t, sa.jamo, sb.jamo).value;
            && z.out == None && z.st.queue == q + [Stroke(c, sa.meta)] && z.st.cur == SetRegion(Folded(t, q).value, c)
  {
    hide Folded, AddWith, Combine, FoldRegion, Phonemes, Head;
    var c := Combine(t, sa.jamo, sb.jamo).value;
    RegionMeans(t, q, KindOf(sa.jamo));
    FoldedSnoc(t, q, sb);
    assert InRegion(y.cur, sa.jamo) == Some(sb.jamo);
    assert Reversed(t, y, sa.jamo) == Some(c);
    assert Init(y.queue) == q;
  }

  lemma InTable(t: Table, a: JamoEnum, b: JamoEnum)
    requires Combine(t, a, b).Some?
    ensures (a, b) in t && SameKind(Combine(t, a, b).value, a)
  {
  }

  lemma SameKindNeverViolates(q: seq<Stroke>, s: Stroke, h: HangulChar)
    requires q != [] && SameKind(Last(q).jamo, s.jamo)
    ensures !Violates(ThreeBul, q + [s], h)
  {
    assert (q + [s])[|q| - 1] == Last(q);
  }

  /** The pair as two letters and as their combination are alike. */
  lemma PairAlike(t: Table, q: seq<Stroke>, sa: Stroke, sb: Stroke)
    requires OneWay(t, sa.jamo, sb.jamo) && Heads(sa) && Phonemes(KindOf(sa.jamo), q) == []
    ensures Alike(t, q + [sa] + [sb], q + [Stroke(Combine(t, sa.jamo, sb.jamo).value, sa.meta)])
  {
    hide FoldRegion, Phonemes, Head, Combine;
    var c := Stroke(Combine(t, sa.jamo, sb.jamo).value, sa.meta);
    InTable(t, sa.jamo, sb.jamo);
    EmptyRegion(t, KindOf(sa.jamo), q);
    PairRegion(t, Initials, q, sa, sb, c);
    PairRegion(t, Medials, q, sa, sb, c);
    PairRegion(t, Finals, q, sa, sb, c);
    HeadSnoc(q, sa);
    HeadSnoc(q + [sa], sb);
    HeadSnoc(q, c);
    PhonemesSnoc(Medials, q, sa);
    PhonemesSnoc(Medials, q + [sa], sb);
    PhonemesSnoc(Medials, q, c);
  }

  lemma PairRegion(t: Table, k: Kind, q: seq<Stroke>, sa: Stroke, sb: Stroke, c: Stroke)
    requires OneWay(t, sa.jamo, sb.jamo) && Heads(sa) && FoldRegion(t, KindOf(sa.jamo), q) == Vacant
    requires Phonemes(KindOf(sa.jamo), q) == []
    requires c == Stroke(Combine(t, sa.jamo, sb.jamo).value, sa.meta) && SameKind(c.jamo, sa.jamo)
    ensures FoldRegion(t, k, q + [sa] + [sb]) == FoldRegion(t, k, q + [c])
  {
    hide FoldRegion, Phonemes, Head, Combine;
    RegionSnoc(t, k, q, sa);
    RegionSnoc(t, k, q + [sa], sb);
    RegionSnoc(t, k, q, c);
    HeadSnoc(q, sa);
  }

  /** Where the two orders stand as long as the pair is the last thing queued: `a` below the
      top letter on one side, the top letter alone on the other. */
  ghost predicate Paired(t: Table, x: State, y: State, q: seq<Stroke>, sa: Stroke, sb: Stroke,
                         xs: seq<JamoEnum>, tx: Stroke, ty: Stroke)
    requires OneWay(t, sa.jamo, sb.jamo)
  {
    var c := Combine(t, sa.jamo, sb.jamo).value;
    && Sane(x) && Sane(y) && x.cur == y.cur
    && Heads(sa) && Phonemes(KindOf(sa.jamo), q) == [] && Folded(t, q).Some?
    && x.queue == q + [sa] + [tx] && y.queue == q + [ty]
    && TurnAll(t, c, xs) == Some(ty.jamo) && x.cur == SetRegion(Folded(t, q).value, ty.jamo)
    && if xs == [] then tx == sb && ty.meta == sa.meta else tx == ty
  }

  ghost predicate StillPaired(t: Table, x: State, y: State, q: seq<Stroke>, sa: Stroke, sb: Stroke)
    requires OneWay(t, sa.jamo, sb.jamo)
  {
    exists xs, tx, ty :: Paired(t, x, y, q, sa, sb, xs, tx, ty)
  }

  /** While paired, what combines in reverse is decided by the top letter. */
  lemma PairedReversal(t: Table, x: State, y: State, q: seq<Stroke>, sa: Stroke, sb: Stroke,
                       xs: seq<JamoEnum>, tx: Stroke, ty: Stroke, j: JamoEnum)
    requires OneWay(t, sa.jamo, sb.jamo) && Paired(t, x, y, q, sa, sb, xs, tx, ty) && !j.Special?
    ensures Reversed(t, x, j) == Reversed(t, y, j) == Turned(t, ty.jamo, j)
  {
    hide Sane, Folded, Combine, Phonemes;
    TopsAlike(t, sa, sb, xs, tx, ty);
    assert Last(x.queue) == tx && Last(y.queue) == ty;
    if SameKind(j, ty.jamo) {
      assert InRegion(x.cur, j) == Some(ty.jamo);
    }
  }

  lemma TurnAllSnoc(t: Table, c: JamoEnum, xs: seq<JamoEnum>, j: JamoEnum)
    requires TurnAll(t, c, xs).Some?
    ensures TurnAll(t, c, xs + [j]) == Turned(t, TurnAll(t, c, xs).value, j)
  {
    hide Turned;
    assert Init(xs + [j]) == xs;
  }

  lemma TurnAllInit(t: Table, c: JamoEnum, xs: seq<JamoEnum>)
    requires xs != [] && TurnAll(t, c, xs).Some?
    ensures TurnAll(t, c, Init(xs)).Some? && Turned(t, TurnAll(t, c, Init(xs)).value, Last(xs)).Some?
    ensures !Last(xs).Special?
  {
  }

  lemma SetTwice(h: HangulChar, a: JamoEnum, b: JamoEnum)
    requires SameKind(a, b)
    ensures SetRegion(SetRegion(h, a), b) == SetRegion(h, b)
  {
  }

  /** From the pair, a letter that combines in reverse only lengthens the chain. */
  lemma PairedTurned(t: Table, x: State, y: State, q: seq<Stroke>, sa: Stroke, sb: Stroke,
                     xs: seq<JamoEnum>, tx: Stroke, ty: Stroke, s: Stroke)
    requires OneWay(t, sa.jamo, sb.jamo) && Paired(t, x, y, q, sa, sb, xs, tx, ty) && !s.jamo.Special?
    requires Reversed(t, x, s.jamo).Some?
    ensures Reversed(t, y, s.jamo) == Reversed(t, x, s.jamo) == Turned(t, ty.jamo, s.jamo)
    ensures var r, z := Add3(t, true, x, s), Add3(t, true, y, s);
            var top := Stroke(Reversed(t, x, s.jamo).value, s.meta);
            r.out == None && z.out == None && Paired(t, r.st, z.st, q, sa, sb, xs + [s.jamo], top, top)
  {
    hide Sane, Folded, Combine, Phonemes, Add3, Reversed, SetRegion, TurnAll, Turned, Heads;
    TopsAlike(t, sa, sb, xs, tx, ty);
    PairedReversal(t, x, y, q, sa, sb, xs, tx, ty, s.jamo);
    ReversedResult(t, x, s);
    ReversedResult(t, y, s);
    SaneAdd(t, true, x, s);
    SaneAdd(t, true, y, s);
    TurnAllSnoc(t, Combine(t, sa.jamo, sb.jamo).value, xs, s.jamo);
    SetTwice(Folded(t, q).value, ty.jamo, Reversed(t, x, s.jamo).value);
    assert Init(q + [sa] + [tx]) == q + [sa] && Init(q + [ty]) == q;
  }

  lemma TopsAlike(t: Table, sa: Stroke, sb: Stroke, xs: seq<JamoEnum>, tx: Stroke, ty: Stroke)
    requires OneWay(t, sa.jamo, sb.jamo) && TurnAll(t, Combine(t, sa.jamo, sb.jamo).value, xs) == Some(ty.jamo)
    requires if xs == [] then tx == sb else tx == ty
    ensures SameKind(tx.jamo, sa.jamo) && SameKind(ty.jamo, sa.jamo)
  {
    InTable(t, sa.jamo, sb.jamo);
  }

  lemma {:induction false} UnturnedChain(t: Table, c: JamoEnum, xs: seq<JamoEnum>)
    requires Unturned(t, c) && xs != []
    ensures TurnAll(t, c, xs).None?
  {
    if |xs| > 1 {
      UnturnedChain(t, c, Init(xs));
    } else {
      assert TurnAll(t, c, Init(xs)) == Some(c);
    }
  }

  /** After a reversal only finals are still paired, and then the top letter is inert. */
  lemma TopIsInert(t: Table, x: State, y: State, q: seq<Stroke>, sa: Stroke, sb: Stroke,
                   xs: seq<JamoEnum>, tx: Stroke, ty: Stroke)
    requires OneWay(t, sa.jamo, sb.jamo) && Paired(t, x, y, q, sa, sb, xs, tx, ty) && xs != []
    requires Blind(t, sa.jamo, sb.jamo)
    ensures sa.jamo.Jong? && ty.jamo.Jong? && tx == ty && !Exposes(t, sa.jamo, ty.jamo)
  {
    TopsAlike(t, sa, sb, xs, tx, ty);
    if !sa.jamo.Jong? {
      UnturnedChain(t, Combine(t, sa.jamo, sb.jamo).value, xs);
    }
  }

  /** A queue that ends in an inert final, with or without `a` below it: recomposing keeps
      the cached syllable, and no further final combines. */
  lemma InertFinal(t: Table, q: seq<Stroke>, sa: Stroke, top: Stroke, h: HangulChar)
    requires sa.jamo.Jong? && top.jamo.Jong? && !Exposes(t, sa.jamo, top.jamo)
    requires Folded(t, q).Some? && Phonemes(Finals, q) == [] && h == SetRegion(Folded(t, q).value, top.jamo)
    ensures Recompose(t, State(q + [sa] + [top], h)).cur == h
    ensures Recompose(t, State(q + [top], h)).cur == h
    ensures forall s: Stroke | s.jamo.Jong? ::
      && Recompose(t, State(q + [sa] + [top] + [s], h)) == Attempt(false, h)
      && Recompose(t, State(q + [top] + [s], h)) == Attempt(false, h)
  {
    hide FoldRegion, Phonemes, Head;
    EmptyRegion(t, Finals, q);
    OtherRegions(t, q, sa);
    OtherRegions(t, q + [sa], top);
    OtherRegions(t, q, top);
    RegionSnoc(t, Finals, q, sa);
    RegionSnoc(t, Finals, q + [sa], top);
    RegionSnoc(t, Finals, q, top);
    forall s: Stroke | s.jamo.Jong?
      ensures Recompose(t, State(q + [sa] + [top] + [s], h)) == Attempt(false, h)
      ensures Recompose(t, State(q + [top] + [s], h)) == Attempt(false, h)
    {
      OtherRegions(t, q + [sa] + [top], s);
      OtherRegions(t, q + [top], s);
      RegionSnoc(t, Finals, q + [sa] + [top], s);
      RegionSnoc(t, Finals, q + [top], s);
      assert SameKind(s.jamo, top.jamo);
    }
  }

  lemma OtherRegions(t: Table, q: seq<Stroke>, s: Stroke)
    requires s.jamo.Jong?
    ensures FoldRegion(t, Initials, q + [s]) == FoldRegion(t, Initials, q)
    ensures FoldRegion(t, Medials, q + [s]) == FoldRegion(t, Medials, q)
  {
    RegionSnoc(t, Initials, q, s);
    RegionSnoc(t, Medials, q, s);
  }

  /** A letter that does not combine in reverse ends the pairing. */
  lemma PairedAdd(t: Table, x: State, y: State, q: seq<Stroke>, sa: Stroke, sb: Stroke,
                  xs: seq<JamoEnum>, tx: Stroke, ty: Stroke, s: Stroke)
    requires OneWay(t, sa.jamo, sb.jamo) && Paired(t, x, y, q, sa, sb, xs, tx, ty) && !s.jamo.Special?
    requires Blind(t, sa.jamo, sb.jamo) && Reversed(t, x, s.jamo).None?
    ensures var r, z := Add3(t, true, x, s), Add3(t, true, y, s);
            r.out == z.out && Twins(t, r.st, z.st)
  {
    hide Sane, Folded, Combine, Phonemes, AddWith, Reversed, Blind, TurnAll, Alike, Twins;
    if xs == [] {
      PairAlike(t, q, sa, sb);
      assert TurnAll(t, Combine(t, sa.jamo, sb.jamo).value, []) == Some(ty.jamo);
      TurnNothing(t, Combine(t, sa.jamo, sb.jamo).value);
      AlikeAddTwins(t, x, y, s);
    } else {
      TopIsInert(t, x, y, q, sa, sb, xs, tx, ty);
      InertRestart(t, x, y, q, sa, ty, s);
      SaneAdd(t, true, x, s);
      SameIsTwin(t, Add3(t, true, x, s).st);
    }
  }

  lemma TurnNothing(t: Table, c: JamoEnum)
    ensures TurnAll(t, c, []) == Some(c)
  {
  }

  lemma SameIsTwin(t: Table, x: State)
    requires Sane(x)
    ensures Twins(t, x, x)
  {
  }

  lemma InertRestart(t: Table, x: State, y: State, q: seq<Stroke>, sa: Stroke, top: Stroke, s: Stroke)
    requires sa.jamo.Jong? && top.jamo.Jong? && !Exposes(t, sa.jamo, top.jamo) && Sane(x) && Sane(y)
    requires Folded(t, q).Some? && Phonemes(Finals, q) == []
             && x.cur == y.cur == SetRegion(Folded(t, q).value, top.jamo)
    requires x.queue == q + [sa] + [top] && y.queue == q + [top] && !s.jamo.Special?
    requires Reversed(t, x, s.jamo).None?
    ensures Add3(t, true, x, s) == Add3(t, true, y, s)
  {
    hide Sane, Folded, Phonemes, Recompose, Render, Violates, Exposes, SetRegion, InRegion, Combine;
    assert Last(x.queue) == Last(y.queue) == top;
    assert Reversed(t, y, s.jamo).None?;
    InertFinal(t, q, sa, top, x.cur);
    RulesAreOrder(x, s);
    RulesAreOrder(y, s);
    OrderAfterFinal(x, s);
    OrderAfterFinal(y, s);
    SaneIsTidy(x);
    SaneIsTidy(y);
    TidyNeverViolates(x.queue, x.cur);
    TidyNeverViolates(y.queue, y.cur);
  }

  lemma SaneIsTidy(st: State)
    requires Sane(st)
    ensures Tidy(st.queue)
  {
  }

  lemma OrderAfterFinal(st: State, s: Stroke)
    requires Sane(st) && st.queue != [] && Last(st.queue).jamo.Jong? && !s.jamo.Special?
    ensures Tidy(st.queue + [s]) <==> s.jamo.Jong?
  {
    TidySnoc(st.queue, s);
  }

  lemma PairedClose(t: Table, x: State, y: State, q: seq<Stroke>, sa: Stroke, sb: Stroke,
                    xs: seq<JamoEnum>, tx: Stroke, ty: Stroke)
    requires OneWay(t, sa.jamo, sb.jamo) && Paired(t, x, y, q, sa, sb, xs, tx, ty) && Blind(t, sa.jamo, sb.jamo)
    ensures Force(t, x) == Force(t, y) && Force(t, x).st == FRESH
  {
    hide Sane, Folded, Combine, Phonemes, Recompose, GetSyllable, Blind, TurnAll, Alike, SetRegion;
    if xs == [] {
      PairAlike(t, q, sa, sb);
      TurnNothing(t, Combine(t, sa.jamo, sb.jamo).value);
      AlikeRefold(t, x.queue, y.queue, x.cur);
    } else {
      TopIsInert(t, x, y, q, sa, sb, xs, tx, ty);
      InertFinal(t, q, sa, ty, x.cur);
    }
  }

  /** One action on a pair that is blind: the same is emitted, and the two sides are twins or
      still paired. */
  lemma PairedAct(t: Table, x: State, y: State, q: seq<Stroke>, sa: Stroke, sb: Stroke, a: Action)
    requires OneWay(t, sa.jamo, sb.jamo) && StillPaired(t, x, y, q, sa, sb) && Blind(t, sa.jamo, sb.jamo) && !a.Erase?
    ensures var r, z := Act(Three(t, true), x, a), Act(Three(t, true), y, a);
            r.out == z.out && (Twins(t, r.st, z.st) || StillPaired(t, r.st, z.st, q, sa, sb))
  {
    hide Twins, Reversed, AddWith, Force, Paired, Blind, Add3;
    var xs, tx, ty :| Paired(t, x, y, q, sa, sb, xs, tx, ty);
    match a {
      case Close =>
        PairedClose(t, x, y, q, sa, sb, xs, tx, ty);
        NothingIsSane();
        SameIsTwin(t, FRESH);
      case Type(s) =>
        if s.jamo.Special? {
          Ignores3(t, x, s);
          Ignores3(t, y, s);
        } else if Reversed(t, x, s.jamo).Some? {
          PairedTurned(t, x, y, q, sa, sb, xs, tx, ty, s);
        } else {
          PairedAdd(t, x, y, q, sa, sb, xs, tx, ty, s);
        }
    }
  }

  lemma Ignores3(t: Table, st: State, s: Stroke)
    requires s.jamo.Special?
    ensures Add3(t, true, st, s) == Outcome(st, None)
  {
  }

  lemma {:induction false} PairedRun(t: Table, x: State, y: State, q: seq<Stroke>, sa: Stroke, sb: Stroke,
                                     rest: seq<Action>)
    requires OneWay(t, sa.jamo, sb.jamo) && StillPaired(t, x, y, q, sa, sb) && Blind(t, sa.jamo, sb.jamo)
             && NoErase(rest)
    ensures var r, z := Perform(Three(t, true), x, rest), Perform(Three(t, true), y, rest);
            r.text == z.text && (Twins(t, r.st, z.st) || StillPaired(t, r.st, z.st, q, sa, sb))
    decreases |rest|
  {
    hide Twins, StillPaired, Blind, Act;
    if rest != [] {
      assert Last(rest) in rest && forall a <- Init(rest) :: a in rest;
      PairedRun(t, x, y, q, sa, sb, Init(rest));
      var r, z := Perform(Three(t, true), x, Init(rest)).st, Perform(Three(t, true), y, Init(rest)).st;
      if Twins(t, r, z) {
        TwinsAct(t, r, z, Last(rest));
      } else {
        PairedAct(t, r, z, q, sa, sb, Last(rest));
      }
    }
  }

  /** What a run shows: the text emitted and the syllable being composed. */
  ghost predicate SameShown(t: Table, p: seq<Action>, p': seq<Action>) {
    var r, r' := Perform(Three(t, true), FRESH, p), Perform(Three(t, true), FRESH, p');
    r.text == r'.text && r.st.cur == r'.st.cur
  }

  /** The pair, typed where its region is empty, leaves the two sides paired. */
  lemma PairTyped(t: Table, st: State, sa: Stroke, sb: Stroke) returns (q: seq<Stroke>)
    requires Sane(st) && OneWay(t, sa.jamo, sb.jamo) && Heads(sa) && Phonemes(KindOf(sa.jamo), st.queue) == []
    ensures var r, z := Perform(Three(t, true), st, [Type(sa), Type(sb)]),
            Perform(Three(t, true), st, [Type(sb), Type(sa)]);
            r.text == z.text && StillPaired(t, r.st, z.st, q, sa, sb)
    ensures q == st.queue || q == []
    ensures Paired(t, Perform(Three(t, true), st, [Type(sa), Type(sb)]).st,
            Perform(Three(t, true), st, [Type(sb), Type(sa)]).st,
                   q, sa, sb, [], sb, Stroke(Combine(t, sa.jamo, sb.jamo).value, sa.meta))
  {
    hide Sane, Folded, Combine, Phonemes, Add3, SetRegion, Tidy, Render, TurnAll, Coherent, FoldRegion;
    var x, y := Add3(t, true, st, sa), Add3(t, true, st, sb);
    q := FirstOfPair(t, st, sa);
    var q' := FirstOfPair(t, st, sb);
    SameOrder(st.queue, sa, sb);
    SecondForward(t, q, x.st, sa, sb);
    SecondReversed(t, q, y.st, sa, sb);
    PerformTwo(Three(t, true), st, Type(sa), Type(sb));
    PerformTwo(Three(t, true), st, Type(sb), Type(sa));
    SaneAdd(t, true, st, sa);
    SaneAdd(t, true, x.st, sb);
    SaneAdd(t, true, st, sb);
    SaneAdd(t, true, y.st, sa);
    var c := Combine(t, sa.jamo, sb.jamo).value;
    TurnNothing(t, c);
    var r, z := Add3(t, true, x.st, sb).st, Add3(t, true, y.st, sa).st;
    assert Paired(t, r, z, q, sa, sb, [], sb, Stroke(c, sa.meta));
  }

  lemma SameOrder(q: seq<Stroke>, sa: Stroke, sb: Stroke)
    requires SameKind(sa.jamo, sb.jamo)
    ensures Tidy(q + [sa]) <==> Tidy(q + [sb])
  {
    TidySnoc(q, sa);
    TidySnoc(q, sb);
  }

  /** The order of a blind pair never shows: after any run that leaves its region empty, the
      two orders give the same text and the same syllable for every continuation of keys and
      commits. */
  lemma OrderDoesNotMatter(t: Table, before: seq<Action>, sa: Stroke, sb: Stroke, rest: seq<Action>)
    requires OneWay(t, sa.jamo, sb.jamo) && Heads(sa) && Blind(t, sa.jamo, sb.jamo) && NoErase(rest)
    requires Phonemes(KindOf(sa.jamo), Perform(Three(t, true), FRESH, before).st.queue) == []
    ensures SameShown(t, before + ([Type(sa), Type(sb)] + rest), before + ([Type(sb), Type(sa)] + rest))
  {
    hide *;
    var st := Perform(Three(t, true), FRESH, before).st;
    NothingIsSane();
    SaneRun(t, true, FRESH, before);
    var q := PairTyped(t, st, sa, sb);
    var r, z := Perform(Three(t, true), st, [Type(sa), Type(sb)]).st,
      Perform(Three(t, true), st, [Type(sb), Type(sa)]).st;
    PairedRun(t, r, z, q, sa, sb, rest);
    BothShow(t, before, [Type(sa), Type(sb)], [Type(sb), Type(sa)], rest);
    var r', z' := Perform(Three(t, true), r, rest).st, Perform(Three(t, true), z, rest).st;
    PairedShow(t, r', z', q, sa, sb);
  }

  lemma PairedShow(t: Table, x: State, y: State, q: seq<Stroke>, sa: Stroke, sb: Stroke)
    requires OneWay(t, sa.jamo, sb.jamo) && (Twins(t, x, y) || StillPaired(t, x, y, q, sa, sb))
    ensures x.cur == y.cur
  {
  }

  lemma BothShow(t: Table, before: seq<Action>, p: seq<Action>, p': seq<Action>, rest: seq<Action>)
    ensures var st := Perform(Three(t, true), FRESH, before).st;
            var r, z := Perform(Three(t, true), st, p), Perform(Three(t, true), st, p');
            var r', z' := Perform(Three(t, true), r.st, rest), Perform(Three(t, true), z.st, rest);
            && (SameShown(t, before + (p + rest), before + (p' + rest)) <==>
                r.text + r'.text == z.text + z'.text && r'.st.cur == z'.st.cur)
  {
    hide Perform;
    var cfg := Three(t, true);
    var first := Perform(cfg, FRESH, before);
    PerformAppend(cfg, FRESH, before, p + rest);
    PerformAppend(cfg, FRESH, before, p' + rest);
    PerformAppend(cfg, first.st, p, rest);
    PerformAppend(cfg, first.st, p', rest);
    SamePrefix(first.text, Perform(cfg, first.st, p + rest).text, Perform(cfg, first.st, p' + rest).text);
  }

  // ---------- and only blind pairs ----------

  function Plain(j: JamoEnum): Stroke { Stroke(j, DEFAULT_META) }

  function Typed(xs: seq<JamoEnum>): (r: seq<Action>)
    ensures NoErase(r)
  {
    seq(|xs|, i requires 0 <= i < |xs| => Type(Plain(xs[i])))
  }

  /** Typing a chain that combines in reverse commits nothing and keeps the sides paired. */
  lemma {:induction false} ChainRun(t: Table, x: State, y: State, q: seq<Stroke>, sa: Stroke, sb: Stroke, tx: Stroke,
                                    ty: Stroke,
                                    xs: seq<JamoEnum>)
    returns (tx': Stroke, ty': Stroke)
    requires OneWay(t, sa.jamo, sb.jamo) && Paired(t, x, y, q, sa, sb, [], tx, ty)
    requires TurnAll(t, Combine(t, sa.jamo, sb.jamo).value, xs).Some?
    ensures var r, z := Perform(Three(t, true), x, Typed(xs)), Perform(Three(t, true), y, Typed(xs));
            r.text == "" && z.text == "" && Paired(t, r.st, z.st, q, sa, sb, xs, tx', ty')
    decreases |xs|
  {
    hide Sane, Folded, Combine, Phonemes, Add3, Reversed, Paired, TurnAll, Turned;
    if xs == [] {
      return tx, ty;
    }
    var s := Plain(Last(xs));
    TurnAllInit(t, Combine(t, sa.jamo, sb.jamo).value, xs);
    tx', ty' := ChainRun(t, x, y, q, sa, sb, tx, ty, Init(xs));
    assert Init(Typed(xs)) == Typed(Init(xs)) && Last(Typed(xs)) == Type(s);
    var r, z := Perform(Three(t, true), x, Typed(Init(xs))).st, Perform(Three(t, true), y, Typed(Init(xs))).st;
    assert Init(xs) + [Last(xs)] == xs;
    ChainTop(t, r, z, q, sa, sb, Init(xs), tx', ty');
    assert Turned(t, ty'.jamo, s.jamo).Some?;
    PairedReversal(t, r, z, q, sa, sb, Init(xs), tx', ty', s.jamo);
    PairedTurned(t, r, z, q, sa, sb, Init(xs), tx', ty', s);
    tx', ty' := Stroke(Reversed(t, r, s.jamo).value, s.meta), Stroke(Reversed(t, r, s.jamo).value, s.meta);
  }

  lemma ChainTop(t: Table, x: State, y: State, q: seq<Stroke>, sa: Stroke, sb: Stroke,
                 xs: seq<JamoEnum>, tx: Stroke, ty: Stroke)
    requires OneWay(t, sa.jamo, sb.jamo) && Paired(t, x, y, q, sa, sb, xs, tx, ty)
    ensures TurnAll(t, Combine(t, sa.jamo, sb.jamo).value, xs) == Some(ty.jamo)
    ensures xs != [] ==> tx == ty
  {
  }

  /** A letter of a later region. */
  function Probe(a: JamoEnum): Stroke {
    if a.Cho? then Plain(Jung(0)) else Plain(Jong(1))
  }

  /** The region of the pair after a probe: on the plain side it is still the top letter. */
  lemma PlainSideProbed(t: Table, y: State, top: Stroke)
    requires (top.jamo.Cho? || top.jamo.Jung?) && Sane(y) && y.queue == [top] && y.cur == SetRegion(EMPTY, top.jamo)
    ensures RegionOf(Add3(t, true, y, Probe(top.jamo)).st.cur, KindOf(top.jamo)) == Some(top.jamo)
  {
    hide Folded, AddWith, Violates;
    var p := Probe(top.jamo);
    FoldedSingle(t, top);
    FoldedSnoc(t, [top], p);
    AddWithCoherent(ThreeBul, t, y, p);
    TidySnoc([top], p);
    RulesAreOrder(y, p);
  }

  /** On the other side it is not: `a` is still below the top letter. */
  lemma OtherSideProbed(t: Table, x: State, sa: Stroke, top: Stroke)
    requires NewLetter(t) && (sa.jamo.Cho? || sa.jamo.Jung?) && SameKind(sa.jamo, top.jamo)
    requires Sane(x) && x.queue == [sa] + [top] && x.cur == SetRegion(EMPTY, top.jamo)
    ensures RegionOf(Add3(t, true, x, Probe(top.jamo)).st.cur, KindOf(top.jamo)) != Some(top.jamo)
  {
    hide FoldRegion, Render, Violates, Phonemes;
    var p, k := Probe(top.jamo), KindOf(top.jamo);
    assert Last(x.queue) == top && Reversed(t, x, p.jamo).None?;
    RegionSnoc(t, k, [], sa);
    NothingQueued(t, k);
    assert [] + [sa] == [sa];
    RegionSnoc(t, k, [sa], top);
    RegionSnoc(t, k, [sa] + [top], p);
    assert Combine(t, sa.jamo, top.jamo) != Some(top.jamo);
    RegionSnoc(t, k, [], p);
    assert [] + [p] == [p];
  }

  lemma NothingQueued(t: Table, k: Kind)
    ensures FoldRegion(t, k, []) == Vacant
  {
  }

  /** Different finals look different. */
  lemma FinalsLookDifferent(f: Final, f': Final)
    requires f != f'
    ensures JongCompat(f) != JongCompat(f')
  {
  }

  /** A final under the top one that combines with it shows in a commit. */
  lemma ClosedDiffers(t: Table, x: State, y: State, sa: Stroke, top: Stroke)
    requires NewLetter(t) && sa.jamo.Jong? && top.jamo.Jong? && Combine(t, sa.jamo, top.jamo).Some?
    requires x.queue == [sa] + [top] && y.queue == [top] && x.cur == y.cur == SetRegion(EMPTY, top.jamo)
    ensures Emit(Force(t, x).out) != Emit(Force(t, y).out)
  {
    hide FoldRegion, JongCompat;
    var f := Combine(t, sa.jamo, top.jamo).value.jong;
    assert Combine(t, sa.jamo, top.jamo) != Some(top.jamo);
    FinalsLookDifferent(f, top.jamo.jong);
    FinalRegions(t, sa, top);
  }

  lemma FinalRegions(t: Table, sa: Stroke, top: Stroke)
    requires sa.jamo.Jong? && top.jamo.Jong?
    ensures FoldRegion(t, Finals, [top]) == Combined(top.jamo)
    ensures FoldRegion(t, Finals, [sa] + [top]) == Extend(t, Combined(sa.jamo), true, top.jamo)
    ensures forall k: Kind | !k.Finals? :: FoldRegion(t, k, [top]) == Vacant && FoldRegion(t, k, [sa] + [top]) == Vacant
  {
    hide FoldRegion, Combine;
    assert [] + [sa] == [sa] && [] + [top] == [top];
    forall k: Kind
      ensures FoldRegion(t, k, [top]) == if k.Finals? then Combined(top.jamo) else Vacant
      ensures FoldRegion(t, k, [sa] + [top]) == if k.Finals? then Extend(t, Combined(sa.jamo), true, top.jamo)
              else Vacant
    {
      NothingQueued(t, k);
      RegionSnoc(t, k, [], sa);
      RegionSnoc(t, k, [], top);
      RegionSnoc(t, k, [sa], top);
    }
  }

  /** A top final that combines further does so only on the plain side. */
  lemma FurtherDiffers(t: Table, x: State, y: State, sa: Stroke, top: Stroke, s: Stroke)
    requires NewLetter(t) && sa.jamo.Jong? && top.jamo.Jong? && s.jamo.Jong?
    requires Combine(t, sa.jamo, top.jamo).None? && Combine(t, top.jamo, s.jamo).Some? && Sane(x) && Sane(y)
    requires x.queue == [sa] + [top] && y.queue == [top] && x.cur == y.cur == SetRegion(EMPTY, top.jamo)
    ensures Add3(t, true, x, s).st.cur != Add3(t, true, y, s).st.cur
  {
    hide FoldRegion, Render, Violates, Phonemes, Combine;
    FinalRegions(t, sa, top);
    FinalRegions(t, top, s);
    RegionSnoc(t, Finals, [sa] + [top], s);
    OtherRegions(t, [sa] + [top], s);
    RulesAreOrder(x, s);
    RulesAreOrder(y, s);
    OrderAfterFinal(x, s);
    OrderAfterFinal(y, s);
    InTable(t, top.jamo, s.jamo);
    assert Last(x.queue) == top && Last(y.queue) == top;
    assert Reversed(t, x, s.jamo).None? && Reversed(t, y, s.jamo).None?;
    assert Combine(t, top.jamo, s.jamo) != Some(s.jamo);
  }

  /** A pair that is not blind: a continuation from a fresh composer that shows its order. */
  lemma OrderMatters(t: Table, a: JamoEnum, b: JamoEnum) returns (rest: seq<Action>)
    requires NewLetter(t) && OneWay(t, a, b) && !Blind(t, a, b)
    ensures NoErase(rest)
    ensures !SameShown(t, [] + ([Type(Plain(a)), Type(Plain(b))] + rest),
            [] + ([Type(Plain(b)), Type(Plain(a))] + rest))
  {
    hide Combine, SameShown, Sane, SetRegion, Paired, StillPaired, Phonemes, Act, Perform, TurnAll, Exposes;
    var sa, sb := Plain(a), Plain(b);
    var c := Combine(t, a, b).value;
    var xs := ShowingChain(t, a, b);
    NothingIsSane();
    NoRegions(KindOf(a), t);
    PerformNothing(t);
    var q := PairTyped(t, FRESH, sa, sb);
    assert q == [];
    var x, y := Perform(Three(t, true), FRESH, [Type(sa), Type(sb)]).st,
      Perform(Three(t, true), FRESH, [Type(sb), Type(sa)]).st;
    var tx, top := ChainRun(t, x, y, q, sa, sb, sb, Stroke(c, sa.meta), xs);
    var x', y' := Perform(Three(t, true), x, Typed(xs)).st, Perform(Three(t, true), y, Typed(xs)).st;
    ChainTop(t, x', y', q, sa, sb, xs, tx, top);
    var last := ShowingAction(t, a, top.jamo);
    LastShows(t, x', y', sa, sb, xs, top, last);
    rest := Typed(xs) + [last];
    BothShow(t, [], [Type(sa), Type(sb)], [Type(sb), Type(sa)], rest);
    PerformAppend(Three(t, true), x, Typed(xs), [last]);
    PerformAppend(Three(t, true), y, Typed(xs), [last]);
    PerformOne(Three(t, true), x', last);
    PerformOne(Three(t, true), y', last);
    assert "" + Emit(Act(Three(t, true), x', last).out) == Emit(Act(Three(t, true), x', last).out);
    assert "" + Emit(Act(Three(t, true), y', last).out) == Emit(Act(Three(t, true), y', last).out);
    SamePrefix(Perform(Three(t, true), FRESH, [Type(sa), Type(sb)]).text,
               Emit(Act(Three(t, true), x', last).out), Emit(Act(Three(t, true), y', last).out));
  }

  lemma PerformNothing(t: Table)
    ensures Perform(Three(t, true), FRESH, []) == Run(FRESH, "")
  {
  }

  /** The letters that lead to a top letter which can show the order. */
  lemma ShowingChain(t: Table, a: JamoEnum, b: JamoEnum) returns (xs: seq<JamoEnum>)
    requires OneWay(t, a, b) && !Blind(t, a, b)
    ensures var r := TurnAll(t, Combine(t, a, b).value, xs);
            xs != [] && r.Some? && (a.Jong? ==> Exposes(t, a, r.value))
  {
    hide Combine, Turned, Exposes;
    var c := Combine(t, a, b).value;
    if a.Jong? {
      xs :| xs != [] && TurnAll(t, c, xs).Some? && Exposes(t, a, TurnAll(t, c, xs).value);
    } else {
      var x :| Turned(t, c, x).Some?;
      xs := [x];
      assert Init(xs) == [] && TurnAll(t, c, []) == Some(c);
    }
  }

  /** The key or commit that shows it. */
  ghost function ShowingAction(t: Table, a: JamoEnum, top: JamoEnum): Action {
    if !a.Jong? then Type(Probe(top))
    else if Combine(t, a, top).Some? then Close
    else if y :| SameKind(y, top) && Combine(t, top, y).Some? then Type(Plain(y))
    else Close
  }

  lemma LastShows(t: Table, x: State, y: State, sa: Stroke, sb: Stroke, xs: seq<JamoEnum>, top: Stroke, last: Action)
    requires NewLetter(t) && OneWay(t, sa.jamo, sb.jamo) && xs != [] && Paired(t, x, y, [], sa, sb, xs, top, top)
    requires sa.jamo.Jong? ==> Exposes(t, sa.jamo, top.jamo)
    requires last == ShowingAction(t, sa.jamo, top.jamo)
    ensures !last.Erase?
    ensures var r, z := Act(Three(t, true), x, last), Act(Three(t, true), y, last);
            Emit(r.out) != Emit(z.out) || r.st.cur != z.st.cur
  {
    hide Combine, Sane, SetRegion, Phonemes, Add3, Force, TurnAll, Probe, RegionOf;
    TopsAlike(t, sa, sb, xs, top, top);
    FoldedEmpty(t);
    assert [] + [sa] == [sa] && [] + [top] == [top];
    if !sa.jamo.Jong? {
      PlainSideProbed(t, y, top);
      OtherSideProbed(t, x, sa, top);
    } else if Combine(t, sa.jamo, top.jamo).Some? {
      ClosedDiffers(t, x, y, sa, top);
    } else {
      var s := last.s;
      FurtherDiffers(t, x, y, sa, top, s);
    }
  }

  /** Typing order never shows, after whatever run. */
  ghost predicate OrderBlind(t: Table, a: JamoEnum, b: JamoEnum)
    requires OneWay(t, a, b)
  {
    forall before, rest | NoErase(rest) && Phonemes(KindOf(a), Perform(Three(t, true), FRESH, before).st.queue) == [] ::
      SameShown(t, before + ([Type(Plain(a)), Type(Plain(b))] + rest),
        before + ([Type(Plain(b)), Type(Plain(a))] + rest))
  }

  /** Which pairs may be typed in either order, exactly. */
  lemma OrderBlindExactly(t: Table, a: JamoEnum, b: JamoEnum)
    requires NewLetter(t) && OneWay(t, a, b)
    ensures OrderBlind(t, a, b) <==> Blind(t, a, b)
  {
    hide SameShown, Blind, Phonemes, Combine;
    if Blind(t, a, b) {
      forall before, rest | NoErase(rest) && Phonemes(KindOf(a), Perform(Three(t, true), FRESH, before).st.queue) == []
        ensures SameShown(t, before + ([Type(Plain(a)), Type(Plain(b))] + rest),
                before + ([Type(Plain(b)), Type(Plain(a))] + rest))
      {
        OrderDoesNotMatter(t, before, Plain(a), Plain(b), rest);
      }
    } else {
      var rest := OrderMatters(t, a, b);
      PerformNothing(t);
      NoRegions(KindOf(a), t);
    }
  }

  // ---------- before a backspace ----------

  /** Recomposing from a queue, seen in one region. */
  lemma RecomposedRegion(t: Table, st: State, k: Kind)
    requires !FoldRegion(t, k, st.queue).Stuck?
    ensures RegionOf(Recompose(t, st).cur, k) ==
            match FoldRegion(t, k, st.queue) case Combined(j) => Some(j) case _ => None
  {
    hide FoldRegion;
    NothingQueued(t, k);
  }

  /** A backspace tells the two orders of any pair apart: it leaves the first letter on one
      side and takes the combined letter on the other. */
  lemma BackspaceShowsOrder(t: Table, before: seq<Action>, sa: Stroke, sb: Stroke)
    requires OneWay(t, sa.jamo, sb.jamo) && Heads(sa)
    requires Phonemes(KindOf(sa.jamo), Perform(Three(t, true), FRESH, before).st.queue) == []
    ensures !SameShown(t, before + ([Type(sa), Type(sb)] + [Erase]), before + ([Type(sb), Type(sa)] + [Erase]))
  {
    hide Perform, Paired, StillPaired, SameShown, FoldRegion, Phonemes, Combine, Sane, Recompose, RegionOf;
    var st := Perform(Three(t, true), FRESH, before).st;
    NothingIsSane();
    SaneRun(t, true, FRESH, before);
    var q := PairTyped(t, st, sa, sb);
    var x, y := Perform(Three(t, true), st, [Type(sa), Type(sb)]).st,
      Perform(Three(t, true), st, [Type(sb), Type(sa)]).st;
    BothShow(t, before, [Type(sa), Type(sb)], [Type(sb), Type(sa)], [Erase]);
    PerformOne(Three(t, true), x, Erase);
    PerformOne(Three(t, true), y, Erase);
    PairErased(t, x, y, q, sa, sb);
  }

  lemma PairErased(t: Table, x: State, y: State, q: seq<Stroke>, sa: Stroke, sb: Stroke)
    requires OneWay(t, sa.jamo, sb.jamo)
    requires Paired(t, x, y, q, sa, sb, [], sb, Stroke(Combine(t, sa.jamo, sb.jamo).value, sa.meta))
    ensures Remove(t, x).cur != Remove(t, y).cur
  {
    hide FoldRegion, Phonemes, Combine, Sane, Recompose, RegionOf, Folded;
    var k, c := KindOf(sa.jamo), Stroke(Combine(t, sa.jamo, sb.jamo).value, sa.meta);
    assert Init(q + [sa] + [sb]) == q + [sa] && Init(q + [c]) == q;
    EmptyRegion(t, k, q);
    RegionSnoc(t, k, q, sa);
    RecomposedRegion(t, State(q + [sa], x.cur), k);
    RecomposedRegion(t, State(q, y.cur), k);
  }
}
