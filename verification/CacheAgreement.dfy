/** The cached syllable over whole runs: keys, backspaces and commits in any order. */
module CacheAgreement {
  import opened Wrappers
  import opened Jamo
  import opened HangulChars
  import opened Fold
  import opened Automaton
  import opened TwoBulComposer
  import opened Runs
  import opened Bidirectional

  function After(cfg: Config, actions: seq<Action>): State {
    Perform(cfg, FRESH, actions).st
  }

  /** With the bidirectional option no result of the table may combine in reverse. */
  ghost predicate Fits(cfg: Config) {
    cfg.Three? && cfg.bidirectional ==> ResultsStay(cfg.table)
  }

  lemma AddCoherent(cfg: Config, st: State, s: Stroke)
    requires Fits(cfg) && Coherent(cfg.table, st)
    ensures Coherent(cfg.table, Add(cfg, st, s).st)
  {
    hide Coherent, Add2, Add3;
    match cfg {
      case Two(t) => Add2Coherent(t, st, s);
      case Three(t, b) => Add3Coherent(t, b, st, s);
    }
  }

  lemma ActCoherent(cfg: Config, st: State, a: Action)
    requires Fits(cfg) && Coherent(cfg.table, st)
    ensures Coherent(cfg.table, Act(cfg, st, a).st)
  {
    hide Add, Remove, Force, Fits;
    match a {
      case Type(s) => AddCoherent(cfg, st, s);
      case Erase => RemoveCoherent(cfg.table, st);
      case Close => ForceCoherent(cfg.table, st); ClosedState(cfg.table, st);
    }
  }

  lemma ClosedState(t: Table, st: State)
    ensures Force(t, st).st == if st.queue == [] then st else FRESH
  {
  }

  /** After every run of keys, backspaces and commits from a fresh composer, all three regions
      of the queue combine, the cached syllable is what they combine to, and an empty queue
      means an empty syllable. */
  lemma {:induction false} CacheAgrees(cfg: Config, actions: seq<Action>)
    requires Fits(cfg)
    ensures var st := After(cfg, actions);
            && Folds(cfg.table, st.queue) && Coherent(cfg.table, st)
            && (st.queue == [] ==> st == FRESH)
    decreases |actions|
  {
    hide Act, Folds, Fits;
    FoldedEmpty(cfg.table);
    if actions == [] {
      FreshFolds(cfg.table);
    } else {
      CacheAgrees(cfg, Init(actions));
      ActCoherent(cfg, After(cfg, Init(actions)), Last(actions));
    }
  }

  lemma FreshFolds(t: Table)
    ensures Folds(t, []) && Coherent(t, FRESH)
  {
  }

  ghost predicate AlwaysCoherent(cfg: Config) {
    forall actions :: Coherent(cfg.table, After(cfg, actions))
  }

  /** For which tables the cache can be trusted in every run, exactly. */
  lemma CacheAgreesExactly(cfg: Config)
    requires NewLetter(cfg.table)
    ensures AlwaysCoherent(cfg) <==> Fits(cfg)
  {
    hide Coherent, After, Fits;
    if Fits(cfg) {
      forall actions ensures Coherent(cfg.table, After(cfg, actions)) {
        CacheAgrees(cfg, actions);
      }
    } else {
      var actions := StaleRun(cfg);
    }
  }

  /** A table with a result that combines in reverse: three keys after which the cache shows
      a letter that the queue does not mean. */
  lemma StaleRun(cfg: Config) returns (actions: seq<Action>)
    requires NewLetter(cfg.table) && !Fits(cfg)
    ensures !Coherent(cfg.table, After(cfg, actions))
  {
    hide Combine, Coherent, Add3, Turned;
    var t := cfg.table;
    var a, b :| SameKind(a, b) && Combine(t, a, b).Some? && !Unturned(t, Combine(t, a, b).value);
    var x :| Turned(t, Combine(t, a, b).value, x).Some?;
    var sa, sb, sx := Stroke(a, DEFAULT_META), Stroke(b, DEFAULT_META), Stroke(x, DEFAULT_META);
    actions := [Type(sa), Type(sb), Type(sx)];
    var u, v := Add3(t, true, FRESH, sa).st, Add3(t, true, Add3(t, true, FRESH, sa).st, sb).st;
    TwoTyped(t, a, b);
    ThirdTurns(t, v, a, b, x);
    assert actions == [Type(sa), Type(sb)] + [Type(sx)];
    PerformAppend(cfg, FRESH, [Type(sa), Type(sb)], [Type(sx)]);
    PerformTwo(cfg, FRESH, Type(sa), Type(sb));
    PerformOne(cfg, v, Type(sx));
  }

  /** A pair of the table typed in its order from a fresh composer. */
  lemma TwoTyped(t: Table, a: JamoEnum, b: JamoEnum)
    requires SameKind(a, b) && Combine(t, a, b).Some?
    ensures var sa, sb := Stroke(a, DEFAULT_META), Stroke(b, DEFAULT_META);
            var v := Add3(t, true, Add3(t, true, FRESH, sa).st, sb).st;
            && Coherent(t, v) && v.queue == [sa] + [sb]
            && v.cur == SetRegion(EMPTY, Combine(t, a, b).value)
  {
    hide Folded, AddWith, Combine, Head, Render;
    var sa, sb := Stroke(a, DEFAULT_META), Stroke(b, DEFAULT_META);
    FoldedEmpty(t);
    FoldedSingle(t, sa);
    AddToEmptyQueue(ThreeBul, t, EMPTY, sa);
    var u := AddWith(ThreeBul, t, FRESH, sa).st;
    assert Add3(t, true, FRESH, sa).st == u;
    PairKinds(t, a, b);
    assert Reversed(t, u, b).None?;
    AddWithCoherent(ThreeBul, t, u, sb);
    SameKindAllowed(sa, sb, u.cur);
    FoldedSnoc(t, [sa], sb);
  }

  lemma PairKinds(t: Table, a: JamoEnum, b: JamoEnum)
    requires Combine(t, a, b).Some?
    ensures (a, b) in t && SameKind(Combine(t, a, b).value, a)
  {
  }

  lemma SameKindAllowed(sa: Stroke, sb: Stroke, h: HangulChar)
    requires SameKind(sa.jamo, sb.jamo)
    ensures !Violates(ThreeBul, [sa] + [sb], h)
  {
  }

  lemma ThirdTurns(t: Table, v: State, a: JamoEnum, b: JamoEnum, x: JamoEnum)
    requires NewLetter(t) && SameKind(a, b) && Combine(t, a, b).Some? && Coherent(t, v)
    requires v.queue == [Stroke(a, DEFAULT_META)] + [Stroke(b, DEFAULT_META)]
             && v.cur == SetRegion(EMPTY, Combine(t, a, b).value)
    requires Turned(t, Combine(t, a, b).value, x).Some?
    ensures !Coherent(t, Add3(t, true, v, Stroke(x, DEFAULT_META)).st)
  {
    hide Combine, Coherent, Add3, Phonemes;
    PairKinds(t, a, b);
    var sa, sb := Stroke(a, DEFAULT_META), Stroke(b, DEFAULT_META);
    PhonemesSnoc(KindOf(x), [], sa);
    PhonemesSnoc(KindOf(x), [sa], sb);
    assert [] + [sa] == [sa];
    ReversalExactlySafe(t, v, Stroke(x, DEFAULT_META));
  }

  // ---------- a single run ----------

  /** The key combines in reverse with a region of more than one letter. */
  predicate Crowds(cfg: Config, st: State, a: Action) {
    && cfg.Three? && cfg.bidirectional && a.Type?
    && Reversed(cfg.table, st, a.s.jamo).Some?
    && |Phonemes(KindOf(a.s.jamo), st.queue)| != 1
  }

  lemma ActCoherentExactly(cfg: Config, st: State, a: Action)
    requires NewLetter(cfg.table) && Coherent(cfg.table, st)
    ensures Coherent(cfg.table, Act(cfg, st, a).st) <==> !Crowds(cfg, st, a)
  {
    hide Coherent, AddWith, Add2, Force, Remove, Reversed, Phonemes;
    match a {
      case Erase => RemoveCoherent(cfg.table, st);
      case Close => ForceCoherent(cfg.table, st); ClosedState(cfg.table, st);
      case Type(s) =>
        if cfg.Two? || !cfg.bidirectional {
          AddCoherent(cfg, st, s);
        } else if s.jamo.Special? {
          IgnoresSpecial(cfg.table, st, s);
        } else if Reversed(cfg.table, st, s.jamo).Some? {
          ReversalExactlySafe(cfg.table, st, s);
        } else {
          AddWithCoherent(ThreeBul, cfg.table, st, s);
        }
    }
  }

  ghost predicate CoherentThroughout(cfg: Config, actions: seq<Action>) {
    forall n | 0 <= n <= |actions| :: Coherent(cfg.table, After(cfg, actions[..n]))
  }

  ghost predicate NeverCrowds(cfg: Config, actions: seq<Action>) {
    forall n | 0 <= n < |actions| :: !Crowds(cfg, After(cfg, actions[..n]), actions[n])
  }

  /** In any single run, with any table, the cache is right throughout if and only if no
      reversal ever meets a region of more than one letter. */
  lemma {:induction false} RunAgreesExactly(cfg: Config, actions: seq<Action>)
    requires NewLetter(cfg.table)
    ensures CoherentThroughout(cfg, actions) <==> NeverCrowds(cfg, actions)
    decreases |actions|
  {
    hide Coherent, Act, Crowds, Perform;
    if actions == [] {
      FreshFolds(cfg.table);
      AfterNothing(cfg);
      assert actions[..0] == [];
    } else {
      var front, n := Init(actions), |actions| - 1;
      RunAgreesExactly(cfg, front);
      assert actions[..n] == front && actions[..|actions|] == actions;
      assert forall k | 0 <= k <= n :: front[..k] == actions[..k];
      AfterSnoc(cfg, actions);
      assert front[..n] == front;
      if Coherent(cfg.table, After(cfg, front)) {
        ActCoherentExactly(cfg, After(cfg, front), Last(actions));
      }
      assert CoherentThroughout(cfg, actions)
        <==> CoherentThroughout(cfg, front) && Coherent(cfg.table, After(cfg, actions));
      assert NeverCrowds(cfg, actions) <==> NeverCrowds(cfg, front) && !Crowds(cfg, After(cfg, front), actions[n]);
    }
  }

  lemma AfterNothing(cfg: Config)
    ensures After(cfg, []) == FRESH
  {
  }

  lemma AfterSnoc(cfg: Config, actions: seq<Action>)
    requires actions != []
    ensures After(cfg, actions) == Act(cfg, After(cfg, Init(actions)), Last(actions)).st
  {
    hide Act;
  }

  /** In every run the two-set recursion terminates: the state it starts from is always safe. */
  lemma AlwaysSafe(t: Table, actions: seq<Action>)
    ensures Safe(After(Two(t), actions))
  {
    hide Coherent, Safe, Perform;
    CacheAgrees(Two(t), actions);
    CoherentIsSafe(t, After(Two(t), actions));
  }

  // ---------- no syllable is discarded ----------

  /** Only initials and vowels are typed. */
  predicate TwoSetTyping(actions: seq<Action>) {
    forall a <- actions :: a.Type? ==> a.s.jamo.Cho? || a.s.jamo.Jung?
  }

  /** In every run of initials, vowels, backspaces and commits, every queued final came from
      an initial and can open a syllable again. */
  lemma {:induction false} AlwaysLiftable(t: Table, actions: seq<Action>)
    requires TwoSetTyping(actions)
    ensures Liftable(After(Two(t), actions).queue)
    decreases |actions|
  {
    hide Add2, Liftable, Act;
    if actions == [] {
      AfterNothing(Two(t));
      NothingLiftable();
    } else {
      assert Last(actions) in actions && forall a <- Init(actions) :: a in actions;
      AlwaysLiftable(t, Init(actions));
      AfterSnoc(Two(t), actions);
      LiftableAct(t, After(Two(t), Init(actions)), Last(actions));
    }
  }

  lemma NothingLiftable()
    ensures Liftable([])
  {
  }

  lemma LiftableAct(t: Table, st: State, a: Action)
    requires Liftable(st.queue) && (a.Type? ==> a.s.jamo.Cho? || a.s.jamo.Jung?)
    ensures Liftable(Act(Two(t), st, a).st.queue)
  {
    hide Add2, Recompose, GetSyllable, ToCho;
    if a.Type? {
      LiftableStep(t, st, a.s);
    } else if a.Erase? && st.queue != [] {
      assert forall s <- Init(st.queue) :: s in st.queue;
    }
  }

  /** So in every such run a vowel that carries a final over hands the syllable before it
      over too, exactly as a commit would: the branch that drops it is never taken. */
  lemma NoSyllableDiscarded(t: Table, actions: seq<Action>, s: Stroke)
    requires TwoSetTyping(actions) && (s.jamo.Cho? || s.jamo.Jung?)
    ensures var st := After(Two(t), actions);
            Carried(st, s.jamo).Some? ==>
              && ToCho(Carried(st, s.jamo).value).Some?
              && Folded(t, Init(st.queue)).Some?
              && Add2(t, st, s).out == if |st.queue| == 1 then None else GetSyllable(Folded(t, Init(st.queue)).value)
  {
    hide Add2, Folded, GetSyllable, ToCho, Perform;
    var st := After(Two(t), actions);
    CacheAgrees(Two(t), actions);
    AlwaysLiftable(t, actions);
    if Carried(st, s.jamo).Some? {
      assert Last(st.queue) in st.queue;
      CarryCoherent(t, st, s);
    }
  }

  // ---------- backspace ----------

  /** The letter that key `s` queues. */
  function Queued(cfg: Config, st: State, s: Stroke): Stroke {
    if cfg.Two? && FinalFor(st, s.jamo).Some? then Stroke(Jong(FinalFor(st, s.jamo).value), DEFAULT_META) else s
  }

  function LayoutFor(cfg: Config): Layout {
    if cfg.Two? then TwoBul else ThreeBul
  }

  /** The key joins the syllable being composed: nothing is carried over, nothing is combined
      in reverse, no rule is broken and every region still combines. */
  predicate Joins(cfg: Config, st: State, s: Stroke) {
    && (cfg.Two? ==> Carried(st, s.jamo).None?)
    && (cfg.Three? && cfg.bidirectional ==> Reversed(cfg.table, st, s.jamo).None?)
    && !Violates(LayoutFor(cfg), st.queue + [Queued(cfg, st, s)], st.cur)
    && Folded(cfg.table, st.queue + [Queued(cfg, st, s)]).Some?
  }

  /** What the queue is after one key. */
  lemma QueueAfter(cfg: Config, st: State, s: Stroke)
    requires Coherent(cfg.table, st) && !s.jamo.Special?
    ensures var q := Add(cfg, st, s).st.queue;
            && q != []
            && (Joins(cfg, st, s) ==> q == st.queue + [Queued(cfg, st, s)])
            && (Joins(cfg, st, s) ==> Coherent(cfg.table, Add(cfg, st, s).st))
            && (!Joins(cfg, st, s) ==> Init(q) != st.queue)
  {
    hide Folded, AddWith, Force, Violates, ToCho, ToJong, Combine;
    match cfg {
      case Two(t) =>
        if Carried(st, s.jamo).Some? {
          if ToCho(Carried(st, s.jamo).value).Some? {
            CarryCoherent(t, st, s);
          } else {
            LostCarry(t, st, s);
          }
        } else {
          PlainQueue(TwoBul, t, st, Queued(cfg, st, s));
        }
      case Three(t, b) =>
        if b && Reversed(t, st, s.jamo).Some? {
          ReversedResult(t, st, s);
          assert |Add3(t, true, st, s).st.queue| == |st.queue|;
        } else {
          PlainQueue(ThreeBul, t, st, s);
        }
    }
  }

  lemma PlainQueue(lay: Layout, t: Table, st: State, s: Stroke)
    requires Coherent(t, st) && !s.jamo.Special?
    ensures var q := AddWith(lay, t, st, s).st.queue;
            && Coherent(t, AddWith(lay, t, st, s).st)
            && if !Violates(lay, st.queue + [s], st.cur) && Folded(t, st.queue + [s]).Some?
            then q == st.queue + [s] && Init(q) == st.queue
            else q == [s] && Init(q) == [] && st.queue != []
  {
    hide Folded, AddWith, Violates;
    AddWithCoherent(lay, t, st, s);
  }

  /** Backspace right after a key restores the previous state, queue and cached syllable, if
      and only if the key joined the syllable being composed: with either keyboard and any
      table. */
  lemma BackspaceUndoesExactly(cfg: Config, st: State, s: Stroke)
    requires Coherent(cfg.table, st) && !s.jamo.Special?
    ensures Remove(cfg.table, Add(cfg, st, s).st) == st <==> Joins(cfg, st, s)
  {
    hide Folded, Add, Recompose, Joins;
    var next := Add(cfg, st, s).st;
    QueueAfter(cfg, st, s);
    if Joins(cfg, st, s) {
      RemoveCoherent(cfg.table, next);
    }
    assert Init(st.queue + [Queued(cfg, st, s)]) == st.queue;
  }

  // ---------- what a commit adds ----------

  /** A letter in the queue is a letter in the syllable. */
  lemma {:induction false} SomethingFilled(t: Table, q: seq<Stroke>)
    requires Folded(t, q).Some? && q != [] && !Last(q).jamo.Special?
    ensures Folded(t, q).value != EMPTY
  {
    hide Folded;
    assert q == Init(q) + [Last(q)];
    FoldedSnoc(t, Init(q), Last(q));
  }

  lemma ShownLetters(h: HangulChar)
    requires ProperChar(h) && h != EMPTY
    ensures CompatString(h) != ""
    ensures GetSyllable(h).None? ==> |CompatString(h)| >= 2
  {
  }

  /** A commit adds exactly what the composition line shows if and only if the line shows a
      single character; otherwise it adds nothing and the line is lost. */
  lemma CommitsWhatIsShown(t: Table, st: State)
    requires Coherent(t, st) && st.queue != [] && !Last(st.queue).jamo.Special? && ProperChar(st.cur)
    ensures Emit(Force(t, st).out) == Display(st.cur) <==> |Display(st.cur)| == 1
    ensures |Display(st.cur)| != 1 ==> Force(t, st).out == None
  {
    hide Folded, GetSyllable, CompatString;
    SomethingFilled(t, st.queue);
    ShownLetters(st.cur);
    ForceCoherent(t, st);
  }
}
