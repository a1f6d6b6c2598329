/** The two-set composer follows the reading, key by key. */
module TwoBulSound {
  import opened Wrappers
  import opened Jamo
  import opened HangulChars
  import opened Fold
  import opened Automaton
  import opened TwoBulParser

  // ---------- one key at a group ----------

  /** The composer is at group `g`; a lone consonant may be queued as a final. */
  predicate At(t: Table, st: State, g: Group) {
    Coherent(t, st) && (st.queue == Queue(g) || LoneFinal(st, g))
  }

  predicate LoneFinal(st: State, g: Group) {
    && g.initial.Some? && g.vowels == [] && g.finals == []
    && ToJong(g.initial.value).Some?
    && st.queue == [Lifted(g.initial.value)]
  }

  lemma VowelAbsorbed(t: Table, g: Group, v: Medial)
    requires WellFormed(t, g) && g.finals == [] && v >= 0
    ensures Absorb(t, Block(t, g), true, Jung(v)).Some? <==> VowelFits(t, g, v)
    ensures VowelFits(t, g, v) ==> WellFormed(t, g.(vowels := g.vowels + [v]))
    ensures !VowelFits(t, g, v) ==> g != NOTHING
  {
    hide Combine, FoldFinals;
    assert Init(g.vowels + [v]) == g.vowels;
  }

  /** No rule is broken by a vowel that does not follow a final, and none carries it over. */
  lemma VowelAllowed(st: State, g: Group, v: Medial)
    requires st.queue == Queue(g) && g.finals == []
    ensures !Violates(TwoBul, st.queue + [Key(Jung(v))], st.cur)
    ensures Carried(st, Jung(v)).None?
  {
    hide Queue;
    LastQueued(g);
  }

  /** A vowel typed at a group without finals. */
  lemma StepVowel(t: Table, st: State, g: Group, v: Medial)
    requires WellFormed(t, g) && Coherent(t, st) && st.queue == Queue(g) && g.finals == [] && v >= 0
    ensures var r := Add2(t, st, Key(Jung(v)));
            && Coherent(t, r.st)
            && if VowelFits(t, g, v)
               then WellFormed(t, g.(vowels := g.vowels + [v]))
                 && r.out == None && r.st.queue == Queue(g.(vowels := g.vowels + [v]))
               else g != NOTHING && r.out == Render(Block(t, g)) && r.st.queue == Queue(Group(None, [v], []))
  {
    hide Folded, AddWith, Render, Absorb, Block, WellFormed, VowelFits, Violates, Carried, Head, Queue;
    BlockIsFolded(t, g);
    VowelAbsorbed(t, g, v);
    VowelAllowed(st, g, v);
    WithVowel(g, v);
    AloneVowel(v);
    AddWithCoherent(TwoBul, t, st, Key(Jung(v)));
    FoldedSnoc(t, Queue(g), Key(Jung(v)));
  }

  lemma AloneVowel(v: Medial)
    ensures Queue(Group(None, [v], [])) == [Key(Jung(v))]
  {
  }

  lemma FinalAbsorbed(t: Table, g: Group, c: Initial)
    requires WellFormed(t, g) && MayClose(g, c)
    ensures Lifted(c).jamo == Jong(ToJong(c).value)
    ensures Absorb(t, Block(t, g), true, Lifted(c).jamo).Some? <==> FinalFits(t, g, c)
    ensures FinalFits(t, g, c) ==> WellFormed(t, g.(finals := g.finals + [c]))
  {
    hide Combine, ToJong, FoldVowels;
    assert Init(g.finals + [c]) == g.finals;
  }

  /** Which letter a consonant is queued as, and that a final breaks no rule there. */
  lemma ConsonantQueued(t: Table, st: State, g: Group, c: Initial)
    requires WellFormed(t, g) && st.queue == Queue(g) && st.cur == Block(t, g)
    ensures Add2(t, st, Key(Cho(c))) == AddWith(TwoBul, t, st, if MayClose(g, c) then Lifted(c) else Key(Cho(c)))
    ensures MayClose(g, c) ==> !Violates(TwoBul, st.queue + [Lifted(c)], st.cur)
  {
    hide ToJong, AddWith, Queue, FoldFinals;
  }

  /** A consonant that cannot close the group breaks a rule or does not combine. */
  lemma InitialRefused(t: Table, st: State, g: Group, c: Initial)
    requires WellFormed(t, g) && NoInitialPairs(t) && st.queue == Queue(g) && st.cur == Block(t, g) && g != NOTHING
    ensures Violates(TwoBul, st.queue + [Key(Cho(c))], st.cur) || Absorb(t, st.cur, true, Cho(c)).None?
  {
    hide FoldVowels, FoldFinals, Queue, Combine;
    LastQueued(g);
  }

  /** A consonant that stays in its group as a final. */
  lemma StepFinal(t: Table, st: State, g: Group, c: Initial)
    requires WellFormed(t, g) && Coherent(t, st) && st.queue == Queue(g) && FinalFits(t, g, c)
    ensures var r := Add2(t, st, Key(Cho(c)));
            && Coherent(t, r.st) && r.out == None
            && WellFormed(t, g.(finals := g.finals + [c]))
            && r.st.queue == Queue(g.(finals := g.finals + [c]))
  {
    hide Folded, AddWith, Add2, Render, ToJong, Queue, Block, Absorb, Violates, WellFormed, Lifted, Head;
    BlockIsFolded(t, g);
    FinalAbsorbed(t, g, c);
    ConsonantQueued(t, st, g, c);
    WithFinal(g, c);
    AddWithCoherent(TwoBul, t, st, Lifted(c));
    FoldedSnoc(t, Queue(g), Lifted(c));
  }

  /** A consonant that closes its group: it waits as an initial, or as a lone final if it
      was tried as a final first. */
  lemma StepBreak(t: Table, st: State, g: Group, c: Initial)
    requires WellFormed(t, g) && NoInitialPairs(t) && Coherent(t, st) && st.queue == Queue(g)
    requires g != NOTHING && !FinalFits(t, g, c)
    ensures var r := Add2(t, st, Key(Cho(c)));
            && Coherent(t, r.st) && r.out == Render(Block(t, g))
            && r.st.queue == [if MayClose(g, c) then Lifted(c) else Key(Cho(c))]
  {
    hide Folded, AddWith, Add2, Render, ToJong, Queue, Block, Absorb, Violates, WellFormed, Lifted, Head, FinalFits,
      MayClose;
    BlockIsFolded(t, g);
    ConsonantQueued(t, st, g, c);
    if MayClose(g, c) {
      FinalAbsorbed(t, g, c);
      AddWithCoherent(TwoBul, t, st, Lifted(c));
      FoldedSnoc(t, Queue(g), Lifted(c));
    } else {
      InitialRefused(t, st, g, c);
      AddWithCoherent(TwoBul, t, st, Key(Cho(c)));
      FoldedSnoc(t, Queue(g), Key(Cho(c)));
    }
  }

  /** A consonant on an empty composer. */
  lemma StepOpen(t: Table, st: State, c: Initial)
    requires Coherent(t, st) && st.queue == []
    ensures var r := Add2(t, st, Key(Cho(c)));
            Coherent(t, r.st) && r.out == None && r.st.queue == Queue(Group(Some(c), [], []))
  {
    hide Folded, AddWith, Render, ToJong;
    FoldedEmpty(t);
    AddToEmptyQueue(TwoBul, t, st.cur, Key(Cho(c)));
    LastQueued(Group(Some(c), [], []));
  }

  /** The vowel that follows a swallowed or lone final: the final becomes an initial. */
  lemma StepCarry(t: Table, st: State, q: seq<Stroke>, c: Initial, v: Medial)
    requires Coherent(t, st) && ToJong(c).Some? && st.queue == q + [Lifted(c)]
    ensures var r := Add2(t, st, Key(Jung(v)));
            && Coherent(t, r.st) && r.st.queue == Queue(Group(Some(c), [v], []))
            && Folded(t, q).Some?
            && r.out == if q == [] then None else GetSyllable(Folded(t, q).value)
  {
    hide Coherent, Folded, Add2, GetSyllable, Queue;
    assert Init(st.queue) == q && Last(st.queue) == Lifted(c);
    CarriedBack(st, c, v);
    CarryCoherent(t, st, Key(Jung(v)));
    SyllableQueue(c, v);
  }

  lemma CarriedBack(st: State, c: Initial, v: Medial)
    requires ToJong(c).Some? && st.queue != [] && Last(st.queue) == Lifted(c)
    ensures Carried(st, Jung(v)) == ToJong(c) && ToCho(ToJong(c).value) == Some(c)
  {
  }

  lemma SyllableQueue(c: Initial, v: Medial)
    ensures Queue(Group(Some(c), [v], [])) == [Key(Cho(c)), Key(Jung(v))]
  {
    var g := Group(Some(c), [], []);
    WithVowel(g, v);
    LastQueued(g);
    assert g.(vowels := g.vowels + [v]) == Group(Some(c), [v], []);
  }

  // ---------- the composer follows the reading ----------

  lemma WrittenInit(t: Table, g: Group, gs: seq<Group>)
    requires gs != []
    ensures WrittenAll(t, Init([g] + gs)) == Written(t, g) + WrittenAll(t, Init(gs))
    ensures Last([g] + gs) == Last(gs)
  {
    assert Init([g] + gs) == [g] + Init(gs);
  }

  /** The composer has read `w` as `gs`: all but the last group committed, the last pending. */
  ghost predicate Follows(t: Table, r: Run, gs: seq<Group>) {
    if gs == [] then r.text == "" && r.st.queue == [] && Coherent(t, r.st)
    else r.text == WrittenAll(t, Init(gs)) && At(t, r.st, Last(gs))
  }

  lemma FeedCons(t: Table, st: State, w: seq<TwoSetKey>)
    requires w != []
    ensures var step := Add2(t, st, Key(w[0]));
            var rest := Feed(Two(t), step.st, Keys(w[1..]));
            Feed(Two(t), st, Keys(w)) == Run(rest.st, Emit(step.out) + rest.text)
  {
    hide Add2;
    assert Keys(w)[1..] == Keys(w[1..]);
  }

  /** Typing refines reading: on every clean key sequence the composer, which has no
      lookahead, commits exactly the groups of the one-key-lookahead reading, and holds the
      last group in its queue. */
  lemma {:induction false} ParseSound(t: Table, st: State, g: Group, w: seq<TwoSetKey>)
    requires NoInitialPairs(t) && ProperTable(t) && WellFormed(t, g) && At(t, st, g)
    requires Parse(t, g, w).clean
    requires w != [] && st.queue != Queue(g) ==> w[0].Jung?
    requires w != [] && g.finals != [] ==> w[0].Cho?
    ensures Follows(t, Feed(Two(t), st, Keys(w)), Parse(t, g, w).groups)
    decreases |w|, 2
  {
    hide Add2, Coherent, Render, WellFormed, ToJong, Queue;
    if w == [] {
      StartsEmpty(t, st, g);
    } else {
      FeedCons(t, st, w);
      if w[0].Jung? {
        SoundVowel(t, st, g, w);
      } else {
        SoundConsonant(t, st, g, w);
      }
    }
  }

  lemma StartsEmpty(t: Table, st: State, g: Group)
    requires At(t, st, g)
    ensures Follows(t, Run(st, ""), if g == NOTHING then [] else [g])
  {
  }

  lemma SoundVowel(t: Table, st: State, g: Group, w: seq<TwoSetKey>)
    requires NoInitialPairs(t) && ProperTable(t) && WellFormed(t, g) && At(t, st, g)
    requires w != [] && w[0].Jung? && Parse(t, g, w).clean && g.finals == []
    ensures Follows(t, Feed(Two(t), st, Keys(w)), Parse(t, g, w).groups)
    decreases |w|, 0
  {
    hide Add2, Coherent, Render, ToJong, Queue, Feed, Parse, Next, Breaks, Jams;
    FeedCons(t, st, w);
    Kept(t, g, w);
    VowelStep(t, g, w);
    var v := w[0].jung;
    var h := Next(t, g, w);
    var step := Add2(t, st, Key(w[0]));
    if st.queue == Queue(g) {
      StepVowel(t, st, g, v);
      NextWellFormed(t, g, w);
      ParseSound(t, step.st, h, w[1..]);
      if Breaks(t, g, w) {
        Broken(t, step.out, g, w);
      }
    } else {
      var c := g.initial.value;
      assert [] + [Lifted(c)] == [Lifted(c)];
      StepCarry(t, st, [], c, v);
      SingleVowel(t, v);
      assert g.vowels + [v] == [v];
      ParseSound(t, step.st, Group(Some(c), [v], []), w[1..]);
    }
  }

  /** Reassembling the text when the group `g` is closed by the key `w[0]`. */
  lemma Broken(t: Table, out: Option<char>, g: Group, w: seq<TwoSetKey>)
    requires ProperTable(t) && WellFormed(t, g) && w != [] && (g.finals != [] ==> w[0].Cho?)
    requires Breaks(t, g, w) && out == Render(Block(t, g))
    ensures Emit(out) == Written(t, g)
    ensures var rest := Parse(t, Next(t, g, w), w[1..]).groups;
            && rest != []
            && Parse(t, g, w).groups == [g] + rest
            && WrittenAll(t, Init([g] + rest)) == Written(t, g) + WrittenAll(t, Init(rest))
            && Last([g] + rest) == Last(rest)
  {
    hide Next, Breaks, Jams, Render, WellFormed, GetSyllable;
    NextWellFormed(t, g, w);
    OneCharacter(t, g);
    ParseSegments(t, Next(t, g, w), w[1..]);
    WrittenInit(t, g, Parse(t, Next(t, g, w), w[1..]).groups);
  }

  lemma SoundConsonant(t: Table, st: State, g: Group, w: seq<TwoSetKey>)
    requires NoInitialPairs(t) && ProperTable(t) && WellFormed(t, g) && At(t, st, g)
    requires w != [] && w[0].Cho? && Parse(t, g, w).clean && st.queue == Queue(g)
    ensures Follows(t, Feed(Two(t), st, Keys(w)), Parse(t, g, w).groups)
    decreases |w|, 1
  {
    hide Add2, Coherent, Render, ToJong, Feed, Parse, Next, Breaks, FinalFits, FoldVowels, Queue;
    FeedCons(t, st, w);
    Kept(t, g, w);
    ConsonantStep(t, g, w);
    NextWellFormed(t, g, w);
    var c := w[0].cho;
    var step := Add2(t, st, Key(w[0]));
    LastQueued(Group(Some(c), [], []));
    if g == NOTHING {
      LastQueued(g);
      StepOpen(t, st, c);
      ParseSound(t, step.st, Next(t, g, w), w[1..]);
    } else if FinalFits(t, g, c) {
      StepFinal(t, st, g, c);
      if VowelNext(w) {
        SoundSwallowed(t, st, g, w);
      } else {
        ParseSound(t, step.st, Next(t, g, w), w[1..]);
      }
    } else {
      StepBreak(t, st, g, c);
      ParseSound(t, step.st, Next(t, g, w), w[1..]);
      Broken(t, step.out, g, w);
    }
  }

  /** The consonant is swallowed as a final and handed back by the vowel after it. */
  lemma SoundSwallowed(t: Table, st: State, g: Group, w: seq<TwoSetKey>)
    requires NoInitialPairs(t) && ProperTable(t) && WellFormed(t, g) && g != NOTHING
    requires Coherent(t, st) && st.queue == Queue(g)
    requires w != [] && w[0].Cho? && VowelNext(w) && FinalFits(t, g, w[0].cho) && Parse(t, g, w).clean
    ensures Follows(t, Feed(Two(t), st, Keys(w)), Parse(t, g, w).groups)
    decreases |w|, 0
  {
    hide Add2, Coherent, Render, ToJong, Queue, Feed, Parse, Next, Breaks, Jams, FinalFits;
    var c, v := w[0].cho, w[1].jung;
    var step := Add2(t, st, Key(w[0]));
    FeedCons(t, st, w);
    FeedCons(t, step.st, w[1..]);
    assert w[1..][0] == w[1] && w[1..][1..] == w[2..];
    ConsonantStep(t, g, w);
    Kept(t, g, w);
    StepFinal(t, st, g, c);
    WithFinal(g, c);
    StepCarry(t, step.st, Queue(g), c, v);
    BlockIsFolded(t, g);
    LastQueued(g);
    OneCharacter(t, g);
    Broken(t, Render(Block(t, g)), g, w);
    var alone := Group(Some(c), [], []);
    VowelStep(t, alone, w[1..]);
    Kept(t, alone, w[1..]);
    SingleVowel(t, v);
    assert alone.vowels + [v] == [v];
    ParseSound(t, Add2(t, step.st, Key(w[1])).st, Group(Some(c), [v], []), w[2..]);
  }
}
