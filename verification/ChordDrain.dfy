/** Taking back a chord letter by letter (src/hangul/input_context.rs): the letters pressed
    together leave in the reverse of the order in which they make a syllable. */
module ChordDrain {
  import opened Wrappers
  import opened Jamo
  import opened HangulChars
  import opened Fold
  import opened Automaton
  import opened InputContext
  import opened WordMode

  /** The chord after `m` letters have been taken out. */
  function Left(order: seq<JamoEnum>, m: nat): (r: seq<JamoEnum>)
    requires m <= |order|
    ensures |r| == |order| - m
  {
    if m == 0 then order
    else
      var before := Left(order, m - 1);
      Without(before, Victim(before))
  }

  /** The letters taken out, in order. */
  function Removed(order: seq<JamoEnum>): (r: seq<JamoEnum>)
    ensures |r| == |order|
    decreases |order|
  {
    if order == [] then []
    else [order[Victim(order)]] + Removed(Without(order, Victim(order)))
  }

  /** The letters of one kind, latest first. */
  function LatestFirst(k: Kind, order: seq<JamoEnum>): seq<JamoEnum> {
    if order == [] then []
    else (if IsKind(k, Last(order)) then [Last(order)] else []) + LatestFirst(k, Init(order))
  }

  predicate ChordLetters(order: seq<JamoEnum>) {
    forall j <- order :: !j.Special?
  }

  lemma LatestSnoc(k: Kind, order: seq<JamoEnum>)
    requires order != []
    ensures LatestFirst(k, order)
            == (if IsKind(k, Last(order)) then [Last(order)] else []) + LatestFirst(k, Init(order))
  {
  }

  /** Taking the latest letter of a kind out leaves the other kinds as they were. */
  lemma {:induction false} TakenOut(k: Kind, order: seq<JamoEnum>, i: nat)
    requires i < |order| && !order[i].Special?
    requires IsKind(k, order[i]) ==> forall j | i < j < |order| :: !IsKind(k, order[j])
    ensures LatestFirst(k, order)
            == (if IsKind(k, order[i]) then [order[i]] else []) + LatestFirst(k, Without(order, i))
    decreases |order|
  {
    hide LatestFirst, IsKind;
    var rest := Without(order, i);
    LatestSnoc(k, order);
    if i == |order| - 1 {
      assert rest == Init(order);
    } else {
      TakenOut(k, Init(order), i);
      assert Init(rest) == Without(Init(order), i) && Last(rest) == Last(order);
      LatestSnoc(k, rest);
    }
  }

  /** Which letter goes: the latest final, else the latest vowel, else the latest initial. */
  lemma VictimIs(order: seq<JamoEnum>)
    requires order != [] && ChordLetters(order)
    ensures var i := Victim(order); var j := order[i];
            && !j.Special? && (forall m | i < m < |order| :: !IsKind(KindOf(j), order[m]))
            && (j.Jung? ==> LatestFirst(Finals, order) == [])
            && (j.Cho? ==> LatestFirst(Finals, order) == [] && LatestFirst(Medials, order) == [])
  {
  }

  /** Finals leave first, then vowels, then initials, each kind latest first. */
  lemma {:induction false} DrainOrder(order: seq<JamoEnum>)
    requires ChordLetters(order)
    ensures Removed(order) == LatestFirst(Finals, order) + LatestFirst(Medials, order) + LatestFirst(Initials, order)
    decreases |order|
  {
    hide LatestFirst, Victim;
    if order == [] {
      NothingLeft();
    } else {
      var i := Victim(order);
      var j, rest := order[i], Without(order, i);
      VictimIs(order);
      DrainOrder(rest);
      TakenOut(Finals, order, i);
      TakenOut(Medials, order, i);
      TakenOut(Initials, order, i);
      var f, v, c := LatestFirst(Finals, rest), LatestFirst(Medials, rest), LatestFirst(Initials, rest);
      match KindOf(j) {
        case Finals => assert [j] + f + v + c == [j] + (f + v + c);
        case Medials => assert f == [] && f + ([j] + v) + c == [j] + (f + v + c);
        case Initials => assert f == [] && v == [] && f + v + ([j] + c) == [j] + (f + v + c);
      }
    }
  }

  lemma NothingLeft()
    ensures forall k :: LatestFirst(k, []) == []
  {
  }

  /** What is removed at step m is what the drain order says. */
  lemma {:induction false} StepRemoves(order: seq<JamoEnum>, m: nat)
    requires m < |order|
    ensures Left(order, m) != [] && Left(order, m)[Victim(Left(order, m))] == Removed(order)[m]
    ensures Removed(order)[m..] == Removed(Left(order, m))
    decreases m
  {
    hide Victim;
    if m > 0 {
      StepRemoves(order, m - 1);
      var before := Left(order, m - 1);
      assert Removed(order)[m..] == Removed(order)[m - 1..][1..];
    }
  }

  /** The first `m` recompositions succeed. */
  predicate Recomposes(compose: ChordComposer, order: seq<JamoEnum>, m: nat) {
    forall k | 1 <= k <= m && k < |order| :: compose(Left(order, k)).Some?
  }

  /** A chord in the composition line, outside word mode. */
  predicate Chorded(x: Context) {
    x.chordOrder != [] && !(x.accumulateWord && x.wordKeys != [])
  }

  /** One backspace on a chord. */
  lemma ChordStep(cfg: Config, compose: ChordComposer, x: Context)
    requires Chorded(x)
    ensures var order := Without(x.chordOrder, Victim(x.chordOrder)); var y := Backspace(cfg, compose, x);
            if order == [] || compose(order).None? then y == x.(chordOrder := [], st := FRESH, preedit := "")
            else && y == x.(chordOrder := order, st := y.st, preedit := y.preedit)
                 && y.st.queue == ChordQueue(compose(order).value)
  {
    hide TryCompose, Display, ChordQueue, Victim;
  }

  /** As long as every recomposition succeeds, m backspaces take out m letters and nothing
      else: no committed text goes, and the composer holds what the recomposed chord has; it is
      empty after the last letter, and before that only if a chord without letters came back. */
  lemma {:induction false} ChordBackspaces(cfg: Config, compose: ChordComposer, x: Context, m: nat)
    requires Chorded(x) && m <= |x.chordOrder| && Recomposes(compose, x.chordOrder, m)
    ensures var y := BackspaceTimes(cfg, compose, x, m);
            && y.chordOrder == Left(x.chordOrder, m)
            && y.committed == x.committed && y.accumulateWord == x.accumulateWord
            && y.wordBuffer == x.wordBuffer && y.wordKeys == x.wordKeys
            && (0 < m < |x.chordOrder| ==> y.st.queue == ChordQueue(compose(Left(x.chordOrder, m)).value))
            && (m == |x.chordOrder| ==> y.st == FRESH && y.preedit == "")
            && (m > 0 ==> (y.st.queue == []
              <==> m == |x.chordOrder| || compose(Left(x.chordOrder, m)) == Some(Chord(None, None, None))))
  {
    hide Backspace, ChordQueue, Victim;
    if m > 0 {
      ChordBackspaces(cfg, compose, x, m - 1);
      ChordStep(cfg, compose, BackspaceTimes(cfg, compose, x, m - 1));
      if m < |x.chordOrder| {
        ChordNotEmpty(compose(Left(x.chordOrder, m)).value);
      }
    }
  }

  /** Without a chord, a backspace does not make one. */
  lemma {:induction false} NoChordAgain(cfg: Config, compose: ChordComposer, x: Context, m: nat)
    requires x.chordOrder == [] && !(x.accumulateWord && x.wordKeys != [])
    ensures var y := BackspaceTimes(cfg, compose, x, m);
            y.chordOrder == [] && !(y.accumulateWord && y.wordKeys != [])
  {
    hide Backspace;
    if m > 0 {
      NoChordAgain(cfg, compose, x, m - 1);
      NoChordStep(cfg, compose, BackspaceTimes(cfg, compose, x, m - 1));
    }
  }

  lemma NoChordStep(cfg: Config, compose: ChordComposer, x: Context)
    requires x.chordOrder == [] && !(x.accumulateWord && x.wordKeys != [])
    ensures var y := Backspace(cfg, compose, x);
            y.chordOrder == [] && !(y.accumulateWord && y.wordKeys != [])
  {
    hide Remove, Display, RouteAll, TryCompose, ChordQueue;
  }

  /** The first recomposition that fails drops the rest of the chord at once. */
  lemma ChordDropped(cfg: Config, compose: ChordComposer, x: Context, m: nat)
    requires Chorded(x) && 0 < m < |x.chordOrder|
    requires Recomposes(compose, x.chordOrder, m - 1) && compose(Left(x.chordOrder, m)).None?
    ensures var y := BackspaceTimes(cfg, compose, x, m);
            y.chordOrder == [] && y.st == FRESH && y.preedit == "" && y.committed == x.committed
  {
    hide Backspace, ChordQueue, Victim;
    ChordBackspaces(cfg, compose, x, m - 1);
    ChordStep(cfg, compose, BackspaceTimes(cfg, compose, x, m - 1));
  }

  lemma {:induction false} FirstFailure(compose: ChordComposer, order: seq<JamoEnum>, m: nat) returns (k: nat)
    requires m < |order| && !Recomposes(compose, order, m)
    ensures 1 <= k <= m && Recomposes(compose, order, k - 1) && compose(Left(order, k)).None?
  {
    if Recomposes(compose, order, m - 1) {
      return m;
    }
    k := FirstFailure(compose, order, m - 1);
  }

  lemma {:induction false} BackspacesAdd(cfg: Config, compose: ChordComposer, x: Context, a: nat, b: nat)
    ensures BackspaceTimes(cfg, compose, x, a + b)
            == BackspaceTimes(cfg, compose, BackspaceTimes(cfg, compose, x, a), b)
  {
    hide Backspace;
    if b > 0 {
      BackspacesAdd(cfg, compose, x, a, b - 1);
    }
  }

  /** Letters of the chord are left after m backspaces if and only if there were more than m
      and the first m recompositions succeeded. */
  lemma ChordLastsExactly(cfg: Config, compose: ChordComposer, x: Context, m: nat)
    requires Chorded(x)
    ensures BackspaceTimes(cfg, compose, x, m).chordOrder != []
       <==> m < |x.chordOrder| && Recomposes(compose, x.chordOrder, m)
  {
    hide Backspace, BackspaceTimes, Recomposes;
    var n := |x.chordOrder|;
    if m < n && Recomposes(compose, x.chordOrder, m) {
      ChordBackspaces(cfg, compose, x, m);
    } else {
      var last := if m < n then m else n - 1;
      var k := n;
      if Recomposes(compose, x.chordOrder, last) {
        AllRecompose(compose, x.chordOrder);
        ChordBackspaces(cfg, compose, x, n);
      } else {
        k := FirstFailure(compose, x.chordOrder, last);
        ChordDropped(cfg, compose, x, k);
        StillNoWord(cfg, compose, x, k);
      }
      NoChordAgain(cfg, compose, BackspaceTimes(cfg, compose, x, k), m - k);
      BackspacesAdd(cfg, compose, x, k, m - k);
    }
  }

  lemma AllRecompose(compose: ChordComposer, order: seq<JamoEnum>)
    requires order != [] && Recomposes(compose, order, |order| - 1)
    ensures Recomposes(compose, order, |order|)
  {
  }

  lemma NoWordStep(cfg: Config, compose: ChordComposer, x: Context)
    requires !(x.accumulateWord && x.wordKeys != [])
    ensures var y := Backspace(cfg, compose, x); !(y.accumulateWord && y.wordKeys != [])
  {
    hide TryCompose, Remove, Display, ChordQueue, Victim, RouteAll;
  }

  lemma {:induction false} StillNoWord(cfg: Config, compose: ChordComposer, x: Context, m: nat)
    requires !(x.accumulateWord && x.wordKeys != [])
    ensures var y := BackspaceTimes(cfg, compose, x, m); !(y.accumulateWord && y.wordKeys != [])
  {
    hide Backspace;
    if m > 0 {
      StillNoWord(cfg, compose, x, m - 1);
      NoWordStep(cfg, compose, BackspaceTimes(cfg, compose, x, m - 1));
    }
  }

  // ---------- what an injected chord shows ----------

  /** One letter per region always combines. */
  lemma ChordFolds(t: Table, c: Chord)
    ensures Folded(t, ChordQueue(c)) == Some(HangulChar(c.cho, c.jung, c.jong))
  {
    hide Folded, Head;
    var q0: seq<Stroke> := [];
    FoldedEmpty(t);
    var q1 := if c.cho.Some? then q0 + [Stroke(Cho(c.cho.value), DEFAULT_META)] else q0;
    if c.cho.Some? { FoldedSnoc(t, q0, Stroke(Cho(c.cho.value), DEFAULT_META)); }
    var q2 := if c.jung.Some? then q1 + [Stroke(Jung(c.jung.value), DEFAULT_META)] else q1;
    if c.jung.Some? { FoldedSnoc(t, q1, Stroke(Jung(c.jung.value), DEFAULT_META)); }
    if c.jong.Some? { FoldedSnoc(t, q2, Stroke(Jong(c.jong.value), DEFAULT_META)); }
    assert ChordQueue(c) == if c.jong.Some? then q2 + [Stroke(Jong(c.jong.value), DEFAULT_META)] else q2;
  }

  /** The rules look at the syllable cached before, which injection has just cleared: a
      two-set composer then refuses vowel and final, a three-set one initial and final. */
  lemma ChordRules(cfg: Config, c: Chord)
    ensures Violates(LayoutOf(cfg), ChordQueue(c), EMPTY) <==>
            if cfg.Two? then c.jung.Some? && c.jong.Some? else c.cho.Some? && c.jung.None? && c.jong.Some?
  {
  }

  /** The chord passes those rules. */
  predicate LetThrough(cfg: Config, c: Chord) {
    if cfg.Two? then c.jung.None? || c.jong.None? else c.cho.None? || c.jung.Some? || c.jong.None?
  }

  /** The injected chord is shown, and cached as what its queue means, if and only if those
      rules let it through; else the composition line is empty although letters are queued. */
  lemma InjectShowsExactly(cfg: Config, x: Context, c: Chord, order: seq<JamoEnum>)
    requires c != Chord(None, None, None)
    ensures var y := Inject(cfg, x, c, order);
            && y == x.(st := y.st, preedit := y.preedit, chordOrder := order)
            && Folded(cfg.table, y.st.queue) == Some(HangulChar(c.cho, c.jung, c.jong))
            && (Coherent(cfg.table, y.st) <==> LetThrough(cfg, c))
            && (LetThrough(cfg, c) ==> y.preedit == Display(HangulChar(c.cho, c.jung, c.jong)))
            && (!LetThrough(cfg, c) ==> y.preedit == "" && y.st.queue != [])
  {
    hide Folded, Violates, Recompose, ChordQueue;
    ChordRules(cfg, c);
    ChordFolds(cfg.table, c);
    ChordNotEmpty(c);
    RecomposeSound(cfg.table, ChordQueue(c), EMPTY);
  }

  lemma ChordNotEmpty(c: Chord)
    ensures ChordQueue(c) == [] <==> c == Chord(None, None, None)
  {
  }
}
