/** What two-set typing shows: exactly when the composer writes what the reading means. */
module TwoBulText {
  import opened Wrappers
  import opened Jamo
  import opened HangulChars
  import opened Fold
  import opened Automaton
  import opened TwoBulParser
  import opened TwoBulSound

  function Groups(t: Table, w: seq<TwoSetKey>): seq<Group> { Parse(t, NOTHING, w).groups }

  /** Committed text plus what a commit right now would add, from a fresh composer. */
  function Text2(t: Table, w: seq<TwoSetKey>): string { TextOf(Two(t), FRESH, Keys(w)) }

  lemma VowelsPrefix(t: Table, vs: seq<Medial>, n: nat)
    requires n <= |vs| && FoldVowels(t, vs).Some? && n > 0
    ensures FoldVowels(t, vs[..n]).Some?
  {
    if n < |vs| {
      VowelsPrefix(t, Init(vs), n);
      assert Init(vs)[..n] == vs[..n];
    } else {
      assert vs[..n] == vs;
    }
  }

  lemma FinalsPrefix(t: Table, fs: seq<Initial>, n: nat)
    requires n <= |fs| && FoldFinals(t, fs).Some? && n > 0
    ensures FoldFinals(t, fs[..n]).Some? && ToJong(fs[n - 1]).Some?
  {
    if n < |fs| {
      FinalsPrefix(t, Init(fs), n);
      assert Init(fs)[..n] == fs[..n];
    } else {
      assert fs[..n] == fs;
    }
  }

  lemma {:induction false} WrittenConcat(t: Table, a: seq<Group>, b: seq<Group>)
    ensures WrittenAll(t, a + b) == WrittenAll(t, a) + WrittenAll(t, b)
  {
    if a == [] {
      assert a + b == b;
    } else {
      assert (a + b)[1..] == a[1..] + b;
      WrittenConcat(t, a[1..], b);
    }
  }

  lemma WrittenSingle(t: Table, g: Group)
    ensures WrittenAll(t, [g]) == Written(t, g)
  {
  }

  lemma WrittenLast(t: Table, gs: seq<Group>)
    requires gs != []
    ensures WrittenAll(t, gs) == WrittenAll(t, Init(gs)) + Written(t, Last(gs))
  {
    assert gs == Init(gs) + [Last(gs)];
    WrittenConcat(t, Init(gs), [Last(gs)]);
    WrittenSingle(t, Last(gs));
  }

  lemma {:induction false} OneCharacterEach(t: Table, gs: seq<Group>)
    requires ProperTable(t) && Grouping(t, gs)
    ensures |WrittenAll(t, gs)| == |gs|
    ensures forall i | 0 <= i < |gs| :: Written(t, gs[i]) == [WrittenAll(t, gs)[i]]
  {
    hide Written;
    if gs != [] {
      OneCharacter(t, gs[0]);
      assert gs[0] in gs && forall g <- gs[1..] :: g in gs;
      OneCharacterEach(t, gs[1..]);
      forall i | 0 < i < |gs| ensures Written(t, gs[i]) == [WrittenAll(t, gs)[i]] {
        assert gs[i] == gs[1..][i - 1];
      }
    }
  }

  /** Committing the pending group writes it, also when it waits as a lone final. */
  lemma PendingText(t: Table, st: State, g: Group)
    requires WellFormed(t, g) && g != NOTHING && At(t, st, g)
    ensures Emit(Force(t, st).out) == Written(t, g)
  {
    hide Folded;
    BlockIsFolded(t, g);
    LastQueued(g);
    ForceCoherent(t, st);
    if st.queue != Queue(g) {
      var c := g.initial.value;
      FoldedSingle(t, Lifted(c));
      LiftedFinalLooksAlike(c);
    }
  }

  /** On clean keys the text on screen is the reading, character by character. */
  lemma ReadText(t: Table, w: seq<TwoSetKey>)
    requires NoInitialPairs(t) && ProperTable(t) && Parse(t, NOTHING, w).clean
    ensures Text2(t, w) == WrittenAll(t, Groups(t, w))
    ensures |Text2(t, w)| == |Groups(t, w)|
  {
    hide Coherent, Feed, Force, WellFormed, Queue, Written, Parse;
    FreshAt(t);
    ParseSound(t, FRESH, NOTHING, w);
    ParseSegments(t, NOTHING, w);
    var gs := Groups(t, w);
    OneCharacterEach(t, gs);
    var r := Feed(Two(t), FRESH, Keys(w));
    if gs == [] {
      ForceNothing(t, r.st);
    } else {
      assert Last(gs) in gs;
      PendingText(t, r.st, Last(gs));
      WrittenLast(t, gs);
    }
  }

  lemma FreshAt(t: Table)
    ensures At(t, FRESH, NOTHING) && WellFormed(t, NOTHING) && Queue(NOTHING) == [] && NOTHING.finals == []
  {
  }

  lemma ForceNothing(t: Table, st: State)
    requires st.queue == []
    ensures Force(t, st).out == None
  {
  }

  // ---------- clean is exactly when ----------

  /** Cutting the keys short keeps every decision that does not look past the cut. */
  lemma Cut(t: Table, g: Group, w: seq<TwoSetKey>, n: nat)
    requires 1 <= n <= |w| && (n == 1 && |w| > 1 && w[0].Cho? ==> w[1].Cho?)
    ensures w[..n][0] == w[0] && w[..n][1..] == w[1..][..n - 1]
    ensures Next(t, g, w[..n]) == Next(t, g, w)
    ensures Breaks(t, g, w[..n]) <==> Breaks(t, g, w)
    ensures Jams(t, g, w[..n]) <==> n >= 2 && Jams(t, g, w)
  {
  }

  lemma {:induction false} CleanPrefix(t: Table, g: Group, w: seq<TwoSetKey>, n: nat)
    requires n <= |w| && Parse(t, g, w).clean
    ensures Parse(t, g, w[..n]).clean
    decreases |w|
  {
    hide Next, Breaks, Jams;
    if n == 1 {
      LastKeyClean(t, g, w[..1]);
    } else if n >= 2 {
      Cut(t, g, w, n);
      CleanPrefix(t, Next(t, g, w), w[1..], n - 1);
    }
  }

  lemma LastKeyClean(t: Table, g: Group, w: seq<TwoSetKey>)
    requires |w| == 1
    ensures Parse(t, g, w).clean
  {
  }

  /** Position `i` is the first jam, at group `h`: before it everything is clean, and its
      two consonants read as two characters of their own. */
  predicate FirstJam(t: Table, g: Group, w: seq<TwoSetKey>, i: nat, h: Group) {
    && i + 1 < |w| && w[i].Cho? && w[i + 1].Cho?
    && WellFormed(t, h) && MayClose(h, w[i].cho) && !FinalFits(t, h, w[i].cho)
    && var before := Parse(t, g, w[..i]);
       && before.clean && before.groups != [] && Last(before.groups) == h
       && Parse(t, g, w[..i + 2]).groups
          == before.groups + [Group(Some(w[i].cho), [], []), Group(Some(w[i + 1].cho), [], [])]
  }

  lemma FirstJamShift(t: Table, g: Group, w: seq<TwoSetKey>, i: nat, h: Group)
    requires w != [] && !Jams(t, g, w) && FirstJam(t, Next(t, g, w), w[1..], i, h)
    ensures FirstJam(t, g, w, i + 1, h)
  {
    hide WellFormed, Jams, Next, Breaks, Parse, MayClose, FinalFits;
    Cut(t, g, w, i + 1);
    Cut(t, g, w, i + 3);
    Unfold(t, g, w[..i + 1]);
    Unfold(t, g, w[..i + 3]);
  }

  lemma {:induction false} FindJam(t: Table, g: Group, w: seq<TwoSetKey>) returns (i: nat, h: Group)
    requires WellFormed(t, g) && !Parse(t, g, w).clean && (g.finals != [] && w != [] ==> w[0].Cho?)
    ensures FirstJam(t, g, w, i, h)
    decreases |w|
  {
    hide WellFormed, Jams, Next, Breaks, Parse, MayClose, FinalFits;
    Unfold(t, g, w);
    if Jams(t, g, w) {
      JamHeads(t, g, w);
      JamReads(t, g, w[..2]);
      Unfold(t, g, []);
      assert w[..0] == [];
      return 0, g;
    }
    NextWellFormed(t, g, w);
    i, h := FindJam(t, Next(t, g, w), w[1..]);
    FirstJamShift(t, g, w, i, h);
    i := i + 1;
  }

  lemma JamHeads(t: Table, g: Group, w: seq<TwoSetKey>)
    requires w != [] && Jams(t, g, w)
    ensures |w| > 1 && w[0].Cho? && w[1].Cho? && g != NOTHING
    ensures MayClose(g, w[0].cho) && !FinalFits(t, g, w[0].cho)
  {
  }

  lemma JamReads(t: Table, g: Group, w: seq<TwoSetKey>)
    requires |w| == 2 && w[0].Cho? && w[1].Cho? && MayClose(g, w[0].cho) && !FinalFits(t, g, w[0].cho)
    ensures g != NOTHING
    ensures Parse(t, g, w).groups == [g] + [Group(Some(w[0].cho), [], []), Group(Some(w[1].cho), [], [])]
  {
    var c, d := Group(Some(w[0].cho), [], []), Group(Some(w[1].cho), [], []);
    assert w[1..] == [w[1]] && w[1..][1..] == [];
    assert Parse(t, d, []).groups == [d];
    assert Next(t, c, w[1..]) == d && Breaks(t, c, w[1..]);
    assert Parse(t, c, w[1..]).groups == [c] + [d];
    assert Next(t, g, w) == c && Breaks(t, g, w);
  }

  /** Two consonants in a jam leave nothing to commit: final before initial, no vowel. */
  lemma JamLosesKeys(t: Table, st: State, g: Group, c: Initial, d: Initial, w: seq<TwoSetKey>)
    requires NoInitialPairs(t) && ProperTable(t) && WellFormed(t, g) && At(t, st, g)
    requires MayClose(g, c) && !FinalFits(t, g, c) && w == [Cho(c), Cho(d)]
    ensures TextOf(Two(t), st, Keys(w)) == Written(t, g)
  {
    hide Coherent, Queue, WellFormed, Render, Written, Add2, Force, FinalFits, ToJong;
    var step := Add2(t, st, Key(Cho(c)));
    assert w[1] == Cho(d) && d >= 0;
    FeedCons(t, st, w);
    FeedCons(t, step.st, w[1..]);
    assert w[1..][0] == Cho(d);
    assert Feed(Two(t), Add2(t, step.st, Key(Cho(d))).st, Keys(w[1..][1..]))
      == Run(Add2(t, step.st, Key(Cho(d))).st, "");
    NotLone(t, st, g);
    StepBreak(t, st, g, c);
    OneCharacter(t, g);
    WrittenAsClosed(t, g);
    JamStep(t, step.st, c, d);
  }

  lemma NotLone(t: Table, st: State, g: Group)
    requires At(t, st, g) && g.vowels != []
    ensures st.queue == Queue(g) && Coherent(t, st)
  {
  }

  lemma WrittenAsClosed(t: Table, g: Group)
    requires Render(Block(t, g)) == GetSyllable(Block(t, g))
    ensures Emit(Render(Block(t, g))) == Written(t, g)
  {
  }

  lemma NoRuleForJam(f: Stroke, d: Initial, h: HangulChar)
    requires f.jamo.Jong?
    ensures !Violates(TwoBul, [f] + [Key(Cho(d))], h)
  {
  }

  lemma JamStep(t: Table, st: State, c: Initial, d: Initial)
    requires Coherent(t, st) && ToJong(c).Some? && st.queue == [Lifted(c)] && d >= 0
    ensures var r := Add2(t, st, Key(Cho(d)));
            r.out == None && Force(t, r.st).out == None
  {
    hide Folded, AddWith, ToJong, Force, Violates, GetSyllable;
    JamFolds(t, c, d);
    AddWithCoherent(TwoBul, t, st, Key(Cho(d)));
    NoRuleForJam(Lifted(c), d, st.cur);
    ForceCoherent(t, AddWith(TwoBul, t, st, Key(Cho(d))).st);
  }

  /** A lone final and an initial: letters, but no syllable. */
  lemma JamFolds(t: Table, c: Initial, d: Initial)
    requires ToJong(c).Some? && d >= 0
    ensures Folded(t, [Lifted(c)]) == Some(HangulChar(None, None, ToJong(c)))
    ensures Folded(t, [Lifted(c)] + [Key(Cho(d))]) == Some(HangulChar(Some(d), None, ToJong(c)))
    ensures GetSyllable(HangulChar(Some(d), None, ToJong(c))) == None
  {
    hide Folded, ToJong, Combine;
    FoldedSingle(t, Lifted(c));
    FoldedSnoc(t, [Lifted(c)], Key(Cho(d)));
  }

  /** The text on screen is the reading after every keystroke. */
  ghost predicate AlwaysFaithful(t: Table, w: seq<TwoSetKey>) {
    forall n | 0 <= n <= |w| :: Text2(t, w[..n]) == WrittenAll(t, Groups(t, w[..n]))
  }

  /** The composer is faithful after every keystroke if and only if no consonant jams. */
  lemma FaithfulExactlyWhenClean(t: Table, w: seq<TwoSetKey>)
    requires NoInitialPairs(t) && ProperTable(t)
    ensures AlwaysFaithful(t, w) <==> Parse(t, NOTHING, w).clean
  {
    hide Parse, Feed, Force, At, WellFormed, Written, Jams;
    FreshAt(t);
    if Parse(t, NOTHING, w).clean {
      forall n | 0 <= n <= |w| ensures Text2(t, w[..n]) == WrittenAll(t, Groups(t, w[..n])) {
        CleanPrefix(t, NOTHING, w, n);
        ReadText(t, w[..n]);
      }
    } else {
      var i, h := FindJam(t, NOTHING, w);
      Unfaithful(t, w, i, h);
    }
  }

  lemma Unfaithful(t: Table, w: seq<TwoSetKey>, i: nat, h: Group)
    requires NoInitialPairs(t) && ProperTable(t)
    requires FirstJam(t, NOTHING, w, i, h)
    ensures Text2(t, w[..i + 2]) != WrittenAll(t, Groups(t, w[..i + 2]))
  {
    hide Parse, Feed, TextOf, At, WellFormed, Written, FinalFits, MayClose;
    FreshAt(t);
    var gs := Groups(t, w[..i]);
    var c, d := w[i].cho, w[i + 1].cho;
    ParseSound(t, FRESH, NOTHING, w[..i]);
    ParseSegments(t, NOTHING, w[..i]);
    ParseSegments(t, NOTHING, w[..i + 2]);
    var st := Feed(Two(t), FRESH, Keys(w[..i])).st;
    JamLosesKeys(t, st, h, c, d, [w[i], w[i + 1]]);
    assert Keys(w[..i + 2]) == Keys(w[..i]) + Keys([w[i], w[i + 1]]);
    TextAppend(Two(t), FRESH, Keys(w[..i]), Keys([w[i], w[i + 1]]));
    WrittenLast(t, gs);
    OneCharacterEach(t, gs);
    OneCharacterEach(t, Groups(t, w[..i + 2]));
  }
}
