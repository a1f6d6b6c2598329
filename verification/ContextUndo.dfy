/** Backspace in the input context over whole runs (src/hangul/input_context.rs): what it takes
    back outside word mode, and when it is exact. */
module ContextUndo {
  import opened Wrappers
  import opened Jamo
  import opened HangulChars
  import opened Fold
  import opened Automaton
  import opened CacheAgreement
  import opened InputContext
  import opened ChordDrain
  import opened TypeFix

  /** Whatever is done to a context. */
  datatype Use =
    | Key(s: Stroke)
    | CommitNow
    | Separator(ch: char)
    | Injection(c: Chord, order: seq<JamoEnum>)
    | TakeBack
    | Clearing
    | SwitchWord(on: bool)

  function Do(cfg: Config, compose: ChordComposer, x: Context, u: Use): Context {
    match u
    case Key(s) => Process(cfg, x, s)
    case CommitNow => Commit(cfg, x)
    case Separator(ch) => Append(cfg, x, ch)
    case Injection(c, order) => Inject(cfg, x, c, order)
    case TakeBack => Backspace(cfg, compose, x)
    case Clearing => ClearComposing(x)
    case SwitchWord(on) => SetWord(x, on)
  }

  function DoAll(cfg: Config, compose: ChordComposer, x: Context, uses: seq<Use>): Context
    decreases |uses|
  {
    hide Do;
    if uses == [] then x else Do(cfg, compose, DoAll(cfg, compose, x, Init(uses)), Last(uses))
  }

  // ---------- what every run keeps ----------

  /** The line shows the cached syllable, and with nothing queued nothing is cached. */
  predicate Tidy(x: Context) {
    x.preedit == Display(x.st.cur) && (x.st.queue == [] ==> x.st == FRESH)
  }

  lemma NothingShown()
    ensures Display(EMPTY) == ""
  {
  }

  lemma RouteTidy(cfg: Config, x: Context, s: Stroke)
    requires x.st.queue == [] ==> x.st == FRESH
    ensures Tidy(Route(cfg, x, s))
  {
    hide Add, Display;
    AddNeverEmpties(cfg, x.st, s);
  }

  lemma {:induction false} RouteAllTidy(cfg: Config, x: Context, ss: seq<Stroke>)
    requires Tidy(x)
    ensures Tidy(RouteAll(cfg, x, ss))
    decreases |ss|
  {
    hide Route, Display;
    if ss != [] {
      RouteAllTidy(cfg, x, Init(ss));
      RouteTidy(cfg, RouteAll(cfg, x, Init(ss)), Last(ss));
    }
  }

  lemma CommitTidy(cfg: Config, x: Context)
    requires x.st.queue == [] ==> x.st == FRESH
    ensures Commit(cfg, x).st == FRESH && Tidy(Commit(cfg, x))
  {
    hide Recompose, Display, GetSyllable;
    NothingShown();
  }

  lemma BackspaceTidy(cfg: Config, compose: ChordComposer, x: Context)
    requires Tidy(x)
    ensures Tidy(Backspace(cfg, compose, x))
  {
    hide Display, RouteAll, Folds, Refold, Violates, ChordQueue, Victim;
    NothingShown();
    if x.accumulateWord && x.wordKeys != [] {
      var keys := Init(x.wordKeys);
      RouteAllTidy(cfg, x.(wordKeys := keys, st := FRESH, wordBuffer := "", preedit := ""), keys);
    }
  }

  lemma DoTidy(cfg: Config, compose: ChordComposer, x: Context, u: Use)
    requires Tidy(x)
    ensures Tidy(Do(cfg, compose, x, u))
  {
    hide Display, Route, Commit, Backspace, Violates, Folds, Refold, ChordQueue;
    NothingShown();
    match u {
      case Key(s) =>
        var keys := if x.accumulateWord then x.wordKeys + [s] else x.wordKeys;
        RouteTidy(cfg, x.(chordOrder := [], wordKeys := keys), s);
      case CommitNow => CommitTidy(cfg, x);
      case Separator(_) => CommitTidy(cfg, x);
      case TakeBack => BackspaceTidy(cfg, compose, x);
      case Injection(c, _) => ChordNotEmpty(c);
      case _ =>
    }
  }

  // ---------- when the cache is right ----------

  /** The step queues no chord that the rules refuse. */
  predicate Trusts(cfg: Config, compose: ChordComposer, x: Context, u: Use) {
    match u
    case Injection(c, _) => LetThrough(cfg, c)
    case TakeBack =>
      Chorded(x) ==>
        var order := Without(x.chordOrder, Victim(x.chordOrder));
        order == [] || compose(order).None? || LetThrough(cfg, compose(order).value)
    case _ => true
  }

  lemma RouteCoherent(cfg: Config, x: Context, s: Stroke)
    requires Fits(cfg) && Coherent(cfg.table, x.st)
    ensures Coherent(cfg.table, Route(cfg, x, s).st)
  {
    hide Add, Display, Coherent, Fits;
    AddCoherent(cfg, x.st, s);
  }

  lemma {:induction false} RouteAllCoherent(cfg: Config, x: Context, ss: seq<Stroke>)
    requires Fits(cfg) && Coherent(cfg.table, x.st)
    ensures Coherent(cfg.table, RouteAll(cfg, x, ss).st)
    decreases |ss|
  {
    hide Route, Coherent, Fits;
    if ss != [] {
      RouteAllCoherent(cfg, x, Init(ss));
      RouteCoherent(cfg, RouteAll(cfg, x, Init(ss)), Last(ss));
    }
  }

  lemma RechordCoherent(cfg: Config, c: Chord)
    ensures var q := ChordQueue(c);
            Coherent(cfg.table, State(q, TryCompose(LayoutOf(cfg), cfg.table, State(q, EMPTY)).cur))
            <==> LetThrough(cfg, c)
  {
    hide Coherent, Violates, Recompose, Display;
    if c == Chord(None, None, None) {
      FreshFolds(cfg.table);
    } else {
      InjectShowsExactly(cfg, NEW, c, []);
    }
  }

  lemma BackspaceCoherent(cfg: Config, compose: ChordComposer, x: Context)
    requires Fits(cfg) && Coherent(cfg.table, x.st)
    ensures Coherent(cfg.table, Backspace(cfg, compose, x).st) <==> Trusts(cfg, compose, x, TakeBack)
  {
    hide Coherent, TryCompose, Remove, RouteAll, Display, ChordQueue, Victim, LetThrough, Fits;
    FreshFolds(cfg.table);
    if x.accumulateWord && x.wordKeys != [] {
      var keys := Init(x.wordKeys);
      RouteAllCoherent(cfg, x.(wordKeys := keys, st := FRESH, wordBuffer := "", preedit := ""), keys);
    } else if x.chordOrder != [] {
      var order := Without(x.chordOrder, Victim(x.chordOrder));
      if order != [] && compose(order).Some? {
        RechordCoherent(cfg, compose(order).value);
      }
    } else if x.st.queue != [] {
      RemoveCoherent(cfg.table, x.st);
    }
  }

  /** One step keeps the cache right if and only if it queues no refused chord. */
  lemma DoCoherentExactly(cfg: Config, compose: ChordComposer, x: Context, u: Use)
    requires Fits(cfg) && Coherent(cfg.table, x.st) && Tidy(x)
    ensures Coherent(cfg.table, Do(cfg, compose, x, u).st) <==> Trusts(cfg, compose, x, u)
  {
    hide Coherent, Route, Commit, Backspace, Display, Violates, Recompose, ChordQueue, Fits;
    FreshFolds(cfg.table);
    match u {
      case Key(s) =>
        var keys := if x.accumulateWord then x.wordKeys + [s] else x.wordKeys;
        RouteCoherent(cfg, x.(chordOrder := [], wordKeys := keys), s);
      case CommitNow => CommitTidy(cfg, x);
      case Separator(_) => CommitTidy(cfg, x);
      case TakeBack => BackspaceCoherent(cfg, compose, x);
      case Injection(c, order) =>
        if c != Chord(None, None, None) {
          InjectShowsExactly(cfg, x, c, order);
        }
      case _ =>
    }
  }

  ghost predicate RightThroughout(cfg: Config, compose: ChordComposer, uses: seq<Use>) {
    forall n | 0 <= n <= |uses| :: Coherent(cfg.table, DoAll(cfg, compose, NEW, uses[..n]).st)
  }

  ghost predicate TrustsThroughout(cfg: Config, compose: ChordComposer, uses: seq<Use>) {
    forall n | 0 <= n < |uses| :: Trusts(cfg, compose, DoAll(cfg, compose, NEW, uses[..n]), uses[n])
  }

  lemma {:induction false} RunTidy(cfg: Config, compose: ChordComposer, uses: seq<Use>)
    ensures Tidy(DoAll(cfg, compose, NEW, uses))
    decreases |uses|
  {
    hide Do, Display;
    NothingShown();
    if uses != [] {
      RunTidy(cfg, compose, Init(uses));
      DoTidy(cfg, compose, DoAll(cfg, compose, NEW, Init(uses)), Last(uses));
    }
  }

  lemma DoneLast(cfg: Config, compose: ChordComposer, uses: seq<Use>)
    requires uses != []
    ensures var x := DoAll(cfg, compose, NEW, Init(uses));
            DoAll(cfg, compose, NEW, uses) == Do(cfg, compose, x, Last(uses))
  {
    hide Do;
  }

  lemma RightAtFirst(cfg: Config, compose: ChordComposer)
    ensures RightThroughout(cfg, compose, []) && TrustsThroughout(cfg, compose, [])
  {
    hide Coherent;
    FreshFolds(cfg.table);
    assert forall uses: seq<Use> | |uses| == 0 :: uses == [];
  }

  lemma RightSnoc(cfg: Config, compose: ChordComposer, uses: seq<Use>)
    requires uses != []
    ensures RightThroughout(cfg, compose, uses) <==>
            RightThroughout(cfg, compose, Init(uses)) && Coherent(cfg.table, DoAll(cfg, compose, NEW, uses).st)
  {
    hide Coherent, DoAll;
    var front := Init(uses);
    assert uses[..|uses|] == uses;
    forall k | 0 <= k < |uses| ensures front[..k] == uses[..k] {
    }
  }

  lemma TrustsSnoc(cfg: Config, compose: ChordComposer, uses: seq<Use>)
    requires uses != []
    ensures TrustsThroughout(cfg, compose, uses) <==>
            && TrustsThroughout(cfg, compose, Init(uses))
            && Trusts(cfg, compose, DoAll(cfg, compose, NEW, Init(uses)), Last(uses))
  {
    hide DoAll, Trusts;
    var front, n := Init(uses), |uses| - 1;
    assert uses[..n] == front;
    forall k | 0 <= k < n ensures front[..k] == uses[..k] && front[k] == uses[k] {
    }
  }

  /** In every run of the context, word mode and chords included, the cache is right throughout
      if and only if no chord is queued that the rules refuse. */
  lemma {:induction false} RightExactly(cfg: Config, compose: ChordComposer, uses: seq<Use>)
    requires Fits(cfg)
    ensures RightThroughout(cfg, compose, uses) <==> TrustsThroughout(cfg, compose, uses)
    decreases |uses|
  {
    hide Coherent, Do, DoAll, Trusts, Fits, Tidy, RightThroughout, TrustsThroughout;
    if uses == [] {
      RightAtFirst(cfg, compose);
    } else {
      var x := DoAll(cfg, compose, NEW, Init(uses));
      RightExactly(cfg, compose, Init(uses));
      RightSnoc(cfg, compose, uses);
      TrustsSnoc(cfg, compose, uses);
      DoneLast(cfg, compose, uses);
      RunTidy(cfg, compose, Init(uses));
      if RightThroughout(cfg, compose, Init(uses)) {
        RightAtLast(cfg, compose, Init(uses));
        DoCoherentExactly(cfg, compose, x, Last(uses));
      }
    }
  }

  lemma RightAtLast(cfg: Config, compose: ChordComposer, uses: seq<Use>)
    requires RightThroughout(cfg, compose, uses)
    ensures Coherent(cfg.table, DoAll(cfg, compose, NEW, uses).st)
  {
    hide Coherent, DoAll;
    assert uses[..|uses|] == uses;
  }

  // ---------- backspace letter by letter ----------

  /** No word and no chord is being taken back. */
  predicate Sequential(x: Context) {
    x.chordOrder == [] && !(x.accumulateWord && x.wordKeys != [])
  }

  lemma JoiningEmitsNothing(cfg: Config, st: State, s: Stroke)
    requires Coherent(cfg.table, st) && !s.jamo.Special? && Joins(cfg, st, s)
    ensures Add(cfg, st, s).out == None
  {
    hide Folded, AddWith, Violates, ToCho, ToJong;
    AddWithCoherent(LayoutFor(cfg), cfg.table, st, Queued(cfg, st, s));
  }

  /** With letters queued, a backspace takes exactly the last one: the composer holds what the
      shorter queue means, the line shows it, and nothing else changes. */
  lemma TakesLastLetter(cfg: Config, compose: ChordComposer, x: Context)
    requires Coherent(cfg.table, x.st) && Sequential(x) && x.st.queue != []
    ensures var h := Folded(cfg.table, Init(x.st.queue));
            && h.Some?
            && Backspace(cfg, compose, x) == x.(st := State(Init(x.st.queue), h.value), preedit := Display(h.value))
  {
    hide Folded, Remove, Display, RouteAll, TryCompose;
    RemoveCoherent(cfg.table, x.st);
  }

  /** With nothing queued it takes exactly the last committed character, if there is one. */
  lemma TakesLastCharacter(cfg: Config, compose: ChordComposer, x: Context)
    requires Sequential(x) && x.st.queue == []
    ensures var y := Backspace(cfg, compose, x);
            && y == x.(committed := y.committed)
            && if x.committed == "" then y.committed == "" else y.committed + [Last(x.committed)] == x.committed
  {
    hide RouteAll, TryCompose, Display, ChordQueue;
  }

  /** Backspace right after a key, in syllable mode: it ends at the context before the key, line
      and committed text included and with no chord to take apart, if and only if the key
      joined the syllable being composed. */
  lemma KeyTakenBack(cfg: Config, compose: ChordComposer, x: Context, s: Stroke)
    requires Coherent(cfg.table, x.st) && Tidy(x) && !x.accumulateWord && !s.jamo.Special?
    ensures Backspace(cfg, compose, Process(cfg, x, s)) == x.(chordOrder := []) <==> Joins(cfg, x.st, s)
  {
    hide Coherent, Add, Remove, Display, RouteAll, TryCompose, ChordQueue, Joins, Victim;
    BackspaceUndoesExactly(cfg, x.st, s);
    QueueAfter(cfg, x.st, s);
    if Joins(cfg, x.st, s) {
      JoiningEmitsNothing(cfg, x.st, s);
      assert x.committed + "" == x.committed;
    }
  }

  /** A commit ends chord tracking and leaves nothing composing, so the next backspace takes the
      last committed character; after a separator that is the separator. */
  lemma SeparatorTakenBack(cfg: Config, compose: ChordComposer, x: Context, ch: char)
    requires Tidy(x)
    ensures Sequential(Commit(cfg, x)) && Commit(cfg, x).st == FRESH && Commit(cfg, x).preedit == ""
    ensures Backspace(cfg, compose, Append(cfg, x, ch)) == Commit(cfg, x)
  {
    hide Force, Display, RouteAll, TryCompose;
    CommitTidy(cfg, x);
    assert Init(Commit(cfg, x).committed + [ch]) == Commit(cfg, x).committed;
  }

  /** Clearing gives up what is being composed, chord and word included, but no committed text. */
  lemma ClearingEndsAll(x: Context)
    ensures var y := ClearComposing(x);
            && Sequential(y) && y.st == FRESH && y.preedit == "" && y.wordBuffer == ""
            && y.committed == x.committed && y.accumulateWord == x.accumulateWord
  {
  }

  /** In every run, whatever was typed, committed, injected, taken back or switched, as long as no
      refused chord was queued: outside word mode a backspace after a key undoes exactly the keys
      that joined; a backspace takes exactly the last letter queued, or else the last character
      committed; after a separator it takes that. */
  lemma BackspaceInRuns(cfg: Config, compose: ChordComposer, uses: seq<Use>, s: Stroke, ch: char)
    requires Fits(cfg) && TrustsThroughout(cfg, compose, uses) && !s.jamo.Special?
    ensures var x := DoAll(cfg, compose, NEW, uses);
            var back := Backspace(cfg, compose, x);
            && (!x.accumulateWord ==>
                  (Backspace(cfg, compose, Process(cfg, x, s)) == x.(chordOrder := []) <==> Joins(cfg, x.st, s)))
            && (Sequential(x) && x.st.queue != [] ==>
                  && Folded(cfg.table, Init(x.st.queue)) == Some(back.st.cur)
                  && back == x.(st := State(Init(x.st.queue), back.st.cur), preedit := Display(back.st.cur)))
            && (Sequential(x) && x.st.queue == [] && x.committed != "" ==>
                  back == x.(committed := Init(x.committed)))
            && Backspace(cfg, compose, Append(cfg, x, ch)) == Commit(cfg, x)
  {
    hide Coherent, Do, Backspace, Process, Append, Commit, Joins, Display, Tidy, TrustsThroughout, Fits, Folded;
    RunTidy(cfg, compose, uses);
    RightExactly(cfg, compose, uses);
    RightAtLast(cfg, compose, uses);
    var x := DoAll(cfg, compose, NEW, uses);
    if !x.accumulateWord {
      KeyTakenBack(cfg, compose, x, s);
    }
    if Sequential(x) && x.st.queue != [] {
      TakesLastLetter(cfg, compose, x);
    }
    if Sequential(x) && x.st.queue == [] && x.committed != "" {
      TakesLastCharacter(cfg, compose, x);
      assert Init(Backspace(cfg, compose, x).committed + [Last(x.committed)]) == Backspace(cfg, compose, x).committed;
    }
    SeparatorTakenBack(cfg, compose, x, ch);
  }
}
