/** Two-set typing of any keys at all. A consonant that is tried as a final and refused waits
    as a lone final; if another consonant follows, the final stays ahead of it. Reading such
    early finals too, the text is known for every key sequence. */
module TotalReading {
  import opened Wrappers
  import opened Jamo
  import opened HangulChars
  import opened Fold
  import opened Automaton
  import opened TwoBulParser
  import opened TwoBulSound
  import opened TwoBulText

  /** A group, and a final that was refused by the group before it and stayed ahead. */
  datatype Cell = Cell(early: Option<Initial>, g: Group)

  const START := Cell(None, NOTHING)

  /** A refused final waiting alone. */
  predicate IsRefused(x: Cell) { x.early.Some? && x.g.initial.None? }

  /** A jam: the refused final, then a consonant. It writes nothing. */
  predicate IsJam(x: Cell) { x.early.Some? && x.g.initial.Some? && x.g.vowels == [] }

  /** A jam that vowels have turned into one syllable. */
  predicate IsJammed(x: Cell) { x.early.Some? && x.g.vowels != [] }

  function Early(x: Cell): seq<Initial> {
    match x.early case Some(c) => [c] case None => []
  }

  /** The group with the early final among its finals, first. */
  function Whole(x: Cell): Group {
    x.g.(finals := Early(x) + x.g.finals)
  }

  predicate Formed(t: Table, x: Cell) {
    && (x.g.initial.Some? ==> x.g.initial.value >= 0)
    && (forall v <- x.g.vowels :: v >= 0)
    && (x.g.vowels != [] ==> FoldVowels(t, x.g.vowels).Some?)
    && (Whole(x).finals != [] ==> FoldFinals(t, Whole(x).finals).Some?)
    && (x.g.finals != [] ==> x.g.initial.Some? && x.g.vowels != [])
    && (x.early.Some? && x.g.vowels != [] ==> x.g.initial.Some?)
  }

  /** The composer's queue while it is at a cell. */
  function CellQueue(x: Cell): seq<Stroke> {
    (match x.early case Some(c) => [Lifted(c)] case None => []) + Queue(x.g)
  }

  /** The keys that type a cell. */
  function CellLetters(x: Cell): seq<JamoEnum> {
    InitialKeys(Early(x)) + Letters(x.g)
  }

  // ---------- the reading ----------

  predicate CellVowelFits(t: Table, x: Cell, v: Medial) {
    !IsRefused(x) && VowelFits(t, x.g, v)
  }

  function NextCell(t: Table, x: Cell, w: seq<TwoSetKey>): Cell
    requires w != []
  {
    if w[0].Jung? then
      if IsRefused(x) then Cell(None, Group(x.early, [w[0].jung], []))
      else if CellVowelFits(t, x, w[0].jung) then x.(g := x.g.(vowels := x.g.vowels + [w[0].jung]))
      else Cell(None, Group(None, [w[0].jung], []))
    else if IsRefused(x) then x.(g := Group(Some(w[0].cho), [], []))
    else if !MayClose(x.g, w[0].cho) || (FinalFits(t, Whole(x), w[0].cho) && VowelNext(w))
      then Cell(None, Group(Some(w[0].cho), [], []))
    else if FinalFits(t, Whole(x), w[0].cho) then x.(g := x.g.(finals := x.g.finals + [w[0].cho]))
    else Cell(Some(w[0].cho), NOTHING)
  }

  /** Whether key `w[0]` leaves the cell behind. */
  predicate BreaksCell(t: Table, x: Cell, w: seq<TwoSetKey>)
    requires w != []
  {
    && x != START && !IsRefused(x)
    && if w[0].Jung? then !CellVowelFits(t, x, w[0].jung) else !FinalFits(t, Whole(x), w[0].cho) || VowelNext(w)
  }

  /** Reading `w` when `x` has been read so far. */
  function Cells(t: Table, x: Cell, w: seq<TwoSetKey>): seq<Cell>
    decreases |w|
  {
    if w == [] then (if x == START then [] else [x])
    else (if BreaksCell(t, x, w) then [x] else []) + Cells(t, NextCell(t, x, w), w[1..])
  }

  lemma SingleFinal(t: Table, c: Initial)
    ensures FoldFinals(t, [c]) == ToJong(c)
  {
    assert Init([c]) == [] && FoldFinals(t, []) == None;
  }

  /** An early final is one that can close a syllable. */
  lemma EarlyLifts(t: Table, x: Cell)
    requires Formed(t, x) && x.early.Some?
    ensures ToJong(x.early.value).Some? && x.early.value >= 0
  {
    FinalsPrefix(t, Whole(x).finals, 1);
  }

  lemma NextFormed(t: Table, x: Cell, w: seq<TwoSetKey>)
    requires Formed(t, x) && w != [] && (x.g.finals != [] ==> w[0].Cho?)
    ensures var h := NextCell(t, x, w);
            && Formed(t, h) && h != START && (h.g.finals != [] && |w| > 1 ==> w[1].Cho?)
  {
    hide Formed, FinalFits, CellVowelFits;
    if w[0].Jung? {
      if IsRefused(x) {
        OpenedFormed(t, x, w[0].jung);
      } else if CellVowelFits(t, x, w[0].jung) {
        VowelFormed(t, x, w[0].jung);
      } else {
        VowelAloneFormed(t, w[0].jung);
      }
    } else {
      InitialFormed(t, x, w[0].cho);
      if FinalFits(t, Whole(x), w[0].cho) {
        FinalFormed(t, x, w[0].cho);
      } else if MayClose(x.g, w[0].cho) {
        EarlyFormed(t, x.g, w[0].cho);
      }
    }
  }

  lemma OpenedFormed(t: Table, x: Cell, v: Medial)
    requires Formed(t, x) && IsRefused(x) && v >= 0
    ensures Formed(t, Cell(None, Group(x.early, [v], [])))
  {
    hide FoldFinals;
    EarlyLifts(t, x);
    SingleVowel(t, v);
  }

  lemma VowelFormed(t: Table, x: Cell, v: Medial)
    requires Formed(t, x) && CellVowelFits(t, x, v) && v >= 0
    ensures Formed(t, x.(g := x.g.(vowels := x.g.vowels + [v])))
  {
    hide FoldFinals, FoldVowels;
  }

  lemma VowelAloneFormed(t: Table, v: Medial)
    requires v >= 0
    ensures Formed(t, Cell(None, Group(None, [v], [])))
  {
    SingleVowel(t, v);
  }

  lemma InitialFormed(t: Table, x: Cell, c: Initial)
    requires Formed(t, x) && c >= 0
    ensures Formed(t, Cell(None, Group(Some(c), [], [])))
    ensures IsRefused(x) ==> Formed(t, x.(g := Group(Some(c), [], [])))
  {
    hide FoldFinals, FoldVowels, ToJong;
  }

  lemma FinalFormed(t: Table, x: Cell, c: Initial)
    requires Formed(t, x) && FinalFits(t, Whole(x), c)
    ensures Formed(t, x.(g := x.g.(finals := x.g.finals + [c])))
  {
    hide FoldFinals, FoldVowels, ToJong;
    assert Early(x) + (x.g.finals + [c]) == Whole(x).finals + [c];
  }

  lemma EarlyFormed(t: Table, g: Group, c: Initial)
    requires MayClose(g, c)
    ensures Formed(t, Cell(Some(c), NOTHING))
  {
    hide FoldFinals, ToJong;
    SingleFinal(t, c);
    assert [c] + [] == [c];
  }

  lemma UnfoldCells(t: Table, x: Cell, w: seq<TwoSetKey>)
    requires Formed(t, x) && (x.g.finals != [] && w != [] ==> w[0].Cho?)
    ensures w == [] ==> Cells(t, x, w) == if x == START then [] else [x]
    ensures w != [] ==>
      var h := NextCell(t, x, w);
      && Formed(t, h) && h != START && (h.g.finals != [] && |w| > 1 ==> w[1].Cho?)
      && Cells(t, x, w) == (if BreaksCell(t, x, w) then [x] else []) + Cells(t, h, w[1..])
      && (BreaksCell(t, x, w) ==> x != START)
  {
    hide NextCell, CellVowelFits, FinalFits, Formed;
    if w != [] {
      NextFormed(t, x, w);
    }
  }

  // ---------- no key is lost ----------

  function CellsLetters(xs: seq<Cell>): seq<JamoEnum> {
    if xs == [] then [] else CellLetters(xs[0]) + CellsLetters(xs[1..])
  }

  /** The cells are well formed and their keys, end to end, are the keys typed. */
  lemma {:induction false} CellsCover(t: Table, x: Cell, w: seq<TwoSetKey>)
    requires Formed(t, x) && (x.g.finals != [] && w != [] ==> w[0].Cho?)
    ensures forall y <- Cells(t, x, w) :: Formed(t, y) && y != START
    ensures Cells(t, x, w) == [] <==> x == START && w == []
    ensures CellsLetters(Cells(t, x, w)) == CellLetters(x) + w
    decreases |w|
  {
    hide NextCell, BreaksCell, Formed, CellLetters, Cells;
    UnfoldCells(t, x, w);
    if w == [] {
      LettersOfOne(x);
    } else {
      var rest := Cells(t, NextCell(t, x, w), w[1..]);
      CellsCover(t, NextCell(t, x, w), w[1..]);
      CellStepLetters(t, x, w);
      assert w == [w[0]] + w[1..];
      assert ([x] + rest)[1..] == rest;
      if !BreaksCell(t, x, w) {
        assert [] + rest == rest;
      }
    }
  }

  lemma LettersOfOne(x: Cell)
    ensures CellsLetters([x]) == CellLetters(x) + []
    ensures CellsLetters([]) == [] && CellLetters(START) == []
  {
    hide Letters;
    assert CellsLetters([x][1..]) == [];
    assert Letters(NOTHING) == [] by { NoLetters(); }
  }

  lemma NoLetters()
    ensures Letters(NOTHING) == []
  {
  }

  lemma CellStepLetters(t: Table, x: Cell, w: seq<TwoSetKey>)
    requires Formed(t, x) && w != [] && (x.g.finals != [] ==> w[0].Cho?)
    ensures CellLetters(NextCell(t, x, w)) == (if BreaksCell(t, x, w) then [] else CellLetters(x)) + [w[0]]
  {
    hide FoldVowels, FoldFinals, ToJong, Letters;
    NoLetters();
    if w[0].Jung? {
      LettersVowel(x.g, w[0].jung);
      SingleVowel(t, w[0].jung);
      if x.early.Some? { OpenedLetters(x.early.value, w[0].jung); }
    } else {
      LettersFinal(x.g, w[0].cho);
      SingleInitial(w[0].cho);
    }
  }

  lemma OpenedLetters(c: Initial, v: Medial)
    ensures Letters(Group(Some(c), [v], [])) == [Cho(c), Jung(v)]
    ensures InitialKeys([c]) + [Jung(v)] == [Cho(c), Jung(v)]
  {
    assert VowelKeys([v]) == [Jung(v)];
  }

  // ---------- cells as queues ----------

  lemma QueueVowel(x: Cell, v: Medial)
    requires x.g.finals == []
    ensures CellQueue(x.(g := x.g.(vowels := x.g.vowels + [v]))) == CellQueue(x) + [Key(Jung(v))]
  {
    hide Queue;
    WithVowel(x.g, v);
  }

  lemma QueueFinal(x: Cell, c: Initial)
    ensures CellQueue(x.(g := x.g.(finals := x.g.finals + [c]))) == CellQueue(x) + [Lifted(c)]
  {
    hide Queue;
    WithFinal(x.g, c);
  }

  lemma LastOfQueue(x: Cell)
    ensures x.g.finals != [] ==> CellQueue(x) != [] && Last(CellQueue(x)) == Lifted(Last(x.g.finals))
    ensures x.g.finals == [] && x.g.vowels != [] ==> CellQueue(x) != [] && Last(CellQueue(x)).jamo.Jung?
    ensures x.g.finals == [] && x.g.vowels == [] && x.g.initial.Some?
            ==> CellQueue(x) != [] && Last(CellQueue(x)).jamo.Cho?
    ensures x.early.Some? && x.g == NOTHING ==> CellQueue(x) == [Lifted(x.early.value)]
    ensures CellQueue(x) == [] <==> x == START
  {
    LastQueued(x.g);
  }

  lemma JoinsFinal(t: Table, g: Group, c: Initial)
    requires FoldFinals(t, g.finals + [c]).Some?
    ensures ToJong(c).Some? && Lifted(c).jamo == Jong(ToJong(c).value)
    ensures g.finals == [] || FoldFinals(t, g.finals).Some?
    ensures Absorb(t, Block(t, g), true, Lifted(c).jamo) == Some(Block(t, g.(finals := g.finals + [c])))
  {
    hide Combine, ToJong, FoldVowels;
    assert Init(g.finals + [c]) == g.finals;
  }

  lemma JoinsVowel(t: Table, g: Group, v: Medial)
    requires g.vowels != [] ==> FoldVowels(t, g.vowels).Some?
    ensures FoldVowels(t, g.vowels + [v]).Some?
            ==> Absorb(t, Block(t, g), true, Jung(v)) == Some(Block(t, g.(vowels := g.vowels + [v])))
    ensures FoldVowels(t, g.vowels + [v]).None? ==> Absorb(t, Block(t, g), true, Jung(v)).None? && g.vowels != []
  {
    hide Combine, FoldFinals;
    assert Init(g.vowels + [v]) == g.vowels;
  }

  /** The cell without its last final. */
  lemma WithoutFinal(t: Table, x: Cell) returns (y: Cell, c: Initial)
    requires Formed(t, x) && x.g.finals != []
    ensures Formed(t, y) && c == Last(x.g.finals) && FoldFinals(t, Whole(y).finals + [c]).Some?
    ensures y.(g := y.g.(finals := y.g.finals + [c])) == x && |y.g.finals| < |x.g.finals| && y.g.vowels == x.g.vowels
    ensures Whole(y).(finals := Whole(y).finals + [c]) == Whole(x)
  {
    hide Combine, FoldVowels;
    c := Last(x.g.finals);
    y := x.(g := x.g.(finals := Init(x.g.finals)));
    assert Init(x.g.finals) + [c] == x.g.finals;
    assert Whole(y).finals + [c] == Whole(x).finals;
    assert Init(Whole(x).finals) == Whole(y).finals;
  }

  /** The cell without its last vowel, when no final follows. */
  lemma WithoutVowel(t: Table, x: Cell) returns (y: Cell, v: Medial)
    requires Formed(t, x) && x.g.finals == [] && x.g.vowels != []
    ensures Formed(t, y) && v == Last(x.g.vowels) && FoldVowels(t, y.g.vowels + [v]).Some?
    ensures y.(g := y.g.(vowels := y.g.vowels + [v])) == x && y.g.finals == [] && |y.g.vowels| < |x.g.vowels|
    ensures Whole(y).(vowels := Whole(y).vowels + [v]) == Whole(x)
  {
    hide Combine, FoldFinals, FoldVowels, Formed;
    v := Last(x.g.vowels);
    y := x.(g := x.g.(vowels := Init(x.g.vowels)));
    assert Init(x.g.vowels) + [v] == x.g.vowels;
    FormedVowels(t, x);
    FewerVowels(t, x);
  }

  lemma FewerVowels(t: Table, x: Cell)
    requires Formed(t, x) && x.g.finals == [] && x.g.vowels != []
    ensures Formed(t, x.(g := x.g.(vowels := Init(x.g.vowels))))
  {
    hide Combine, FoldFinals, FoldVowels;
    assert forall u <- Init(x.g.vowels) :: u in x.g.vowels;
    ShorterVowels(t, x.g.vowels);
  }

  /** The queue of a cell folds to the cell's letters. */
  lemma {:induction false} CellFolds(t: Table, x: Cell)
    requires Formed(t, x)
    ensures Folded(t, CellQueue(x)) == Some(Block(t, Whole(x))) && Head(CellQueue(x))
    decreases |x.g.vowels| + |x.g.finals|
  {
    hide Folded, Head, Absorb, Block, FoldVowels, FoldFinals, CellQueue, Whole, Formed;
    if x.g.finals != [] {
      var y, c := WithoutFinal(t, x);
      JoinsFinal(t, Whole(y), c);
      CellFolds(t, y);
      QueueFinal(y, c);
      FoldedSnoc(t, CellQueue(y), Lifted(c));
    } else if x.g.vowels != [] {
      var y, v := WithoutVowel(t, x);
      FormedVowels(t, y);
      JoinsVowel(t, Whole(y), v);
      CellFolds(t, y);
      QueueVowel(y, v);
      FoldedSnoc(t, CellQueue(y), Key(Jung(v)));
    } else {
      BareCell(t, x);
    }
  }

  lemma FormedVowels(t: Table, x: Cell)
    requires Formed(t, x)
    ensures Whole(x).vowels == x.g.vowels && Whole(x).initial == x.g.initial
    ensures x.g.vowels != [] ==> FoldVowels(t, x.g.vowels).Some?
  {
  }

  lemma ShorterVowels(t: Table, vs: seq<Medial>)
    requires vs != [] && FoldVowels(t, vs).Some?
    ensures |vs| > 1 ==> FoldVowels(t, Init(vs)).Some?
  {
  }

  lemma BareCell(t: Table, x: Cell)
    requires Formed(t, x) && x.g.finals == [] && x.g.vowels == []
    ensures Folded(t, CellQueue(x)) == Some(Block(t, Whole(x))) && Head(CellQueue(x))
  {
    hide Folded, ToJong, Absorb;
    LastQueued(x.g);
    if x.early.Some? {
      var f := x.early.value;
      EarlyLifts(t, x);
      FoldedSingle(t, Lifted(f));
      EarlyBlock(t, f, x.g.initial);
      assert Whole(x) == Group(x.g.initial, [], [f]);
      if x.g.initial.Some? {
        FoldedSnoc(t, [Lifted(f)], Key(Cho(x.g.initial.value)));
      } else {
        assert CellQueue(x) == [Lifted(f)];
      }
    } else {
      assert Whole(x) == x.g && CellQueue(x) == Queue(x.g);
      BareBlock(t, x.g);
      FoldedEmpty(t);
      if x.g.initial.Some? {
        FoldedSingle(t, Key(Cho(x.g.initial.value)));
      }
    }
  }

  lemma EarlyBlock(t: Table, f: Initial, c: Option<Initial>)
    requires ToJong(f).Some?
    ensures var h := HangulChar(None, None, ToJong(f));
            && Absorb(t, EMPTY, true, Lifted(f).jamo) == Some(h)
            && Block(t, Group(c, [], [f])) == h.(cho := c)
            && (c.Some? ==> Absorb(t, h, true, Cho(c.value)) == Some(h.(cho := c)))
  {
    hide ToJong;
    SingleFinal(t, f);
  }

  // ---------- one key ----------

  /** A vowel where no final is last: it joins if the vowels combine, else it starts over. */
  lemma TakeVowel(t: Table, st: State, g: Group, v: Medial)
    requires Coherent(t, st) && Head(st.queue) && st.cur == Block(t, g)
             && (g.vowels != [] ==> FoldVowels(t, g.vowels).Some?)
    requires st.queue == [] || !Last(st.queue).jamo.Jong?
    ensures var r := Add2(t, st, Key(Jung(v)));
            && Coherent(t, r.st)
            && if FoldVowels(t, g.vowels + [v]).Some? then r.out == None && r.st.queue == st.queue + [Key(Jung(v))]
               else r.out == Render(st.cur) && r.st.queue == [Key(Jung(v))]
  {
    hide Folded, AddWith, Render, Absorb, Block, FoldVowels, Head, Violates;
    JoinsVowel(t, g, v);
    VowelNeverViolates(st, v);
    AddWithCoherent(TwoBul, t, st, Key(Jung(v)));
    FoldedSnoc(t, st.queue, Key(Jung(v)));
  }

  lemma VowelNeverViolates(st: State, v: Medial)
    requires st.queue == [] || !Last(st.queue).jamo.Jong?
    ensures !Violates(TwoBul, st.queue + [Key(Jung(v))], st.cur)
  {
  }

  /** A consonant that may close the group: it joins as a final, or is refused and waits as
      a lone final. */
  lemma TakeFinal(t: Table, st: State, g: Group, c: Initial)
    requires Coherent(t, st) && Head(st.queue) && st.cur == Block(t, g) && MayClose(g, c)
             && FoldVowels(t, g.vowels).Some?
    requires g.finals != [] ==> FoldFinals(t, g.finals).Some?
    ensures var r := Add2(t, st, Key(Cho(c)));
            && Coherent(t, r.st)
            && if FinalFits(t, g, c) then r.out == None && r.st.queue == st.queue + [Lifted(c)]
               else r.out == Render(st.cur) && r.st.queue == [Lifted(c)]
  {
    hide Folded, AddWith, Render, Absorb, FoldVowels, Head, Violates, ToJong, FoldFinals;
    FinalQueued(t, st, g, c);
    FinalTaken(t, g, c);
    AddWithCoherent(TwoBul, t, st, Lifted(c));
    FoldedSnoc(t, st.queue, Lifted(c));
  }

  lemma FinalQueued(t: Table, st: State, g: Group, c: Initial)
    requires st.cur == Block(t, g) && MayClose(g, c) && FoldVowels(t, g.vowels).Some?
    ensures Add2(t, st, Key(Cho(c))) == AddWith(TwoBul, t, st, Lifted(c)) && Lifted(c).jamo == Jong(ToJong(c).value)
    ensures !Violates(TwoBul, st.queue + [Lifted(c)], st.cur)
  {
    hide ToJong, AddWith, FoldVowels, FoldFinals;
  }

  lemma FinalTaken(t: Table, g: Group, c: Initial)
    requires MayClose(g, c) && (g.finals != [] ==> FoldFinals(t, g.finals).Some?)
    ensures Absorb(t, Block(t, g), true, Lifted(c).jamo).Some? <==> FinalFits(t, g, c)
  {
    hide Combine, ToJong, FoldVowels;
    assert Init(g.finals + [c]) == g.finals;
  }

  /** Any other consonant closes the cell. */
  lemma TakeInitial(t: Table, st: State, g: Group, c: Initial)
    requires NoInitialPairs(t) && Coherent(t, st) && Head(st.queue) && st.cur == Block(t, g) && !MayClose(g, c)
    requires g.vowels != [] ==> FoldVowels(t, g.vowels).Some?
    requires g.initial.Some? || (st.queue != [] && Last(st.queue).jamo.Jung?)
    ensures var r := Add2(t, st, Key(Cho(c)));
            Coherent(t, r.st) && r.out == Render(st.cur) && r.st.queue == [Key(Cho(c))]
  {
    hide Folded, AddWith, Render, Head, ToJong, FoldFinals, Violates, Absorb;
    InitialQueued(t, st, g, c);
    AddWithCoherent(TwoBul, t, st, Key(Cho(c)));
    FoldedSnoc(t, st.queue, Key(Cho(c)));
  }

  lemma InitialQueued(t: Table, st: State, g: Group, c: Initial)
    requires NoInitialPairs(t) && st.cur == Block(t, g) && !MayClose(g, c)
    requires g.vowels != [] ==> FoldVowels(t, g.vowels).Some?
    requires g.initial.Some? || (st.queue != [] && Last(st.queue).jamo.Jung?)
    ensures Add2(t, st, Key(Cho(c))) == AddWith(TwoBul, t, st, Key(Cho(c)))
    ensures Violates(TwoBul, st.queue + [Key(Cho(c))], st.cur) || Absorb(t, st.cur, Head(st.queue), Cho(c)).None?
  {
    hide ToJong, AddWith, FoldFinals, Combine, Head;
  }

  /** A consonant after a lone final stays behind it. */
  lemma TakeAfterRefused(t: Table, st: State, f: Initial, c: Initial)
    requires Coherent(t, st) && ToJong(f).Some? && st.queue == [Lifted(f)]
    ensures var r := Add2(t, st, Key(Cho(c)));
            Coherent(t, r.st) && r.out == None && r.st.queue == [Lifted(f)] + [Key(Cho(c))]
  {
    hide Folded, AddWith, ToJong, Combine, Violates, Render;
    FoldedSingle(t, Lifted(f));
    FoldedSnoc(t, [Lifted(f)], Key(Cho(c)));
    AddWithCoherent(TwoBul, t, st, Key(Cho(c)));
    NoRuleForJam(Lifted(f), c, st.cur);
  }

  // ---------- what a cell writes ----------

  function WrittenCells(t: Table, xs: seq<Cell>): string {
    if xs == [] then "" else Written(t, Whole(xs[0])) + WrittenCells(t, xs[1..])
  }

  lemma {:induction false} WrittenCellsConcat(t: Table, a: seq<Cell>, b: seq<Cell>)
    ensures WrittenCells(t, a + b) == WrittenCells(t, a) + WrittenCells(t, b)
  {
    hide Written;
    if a == [] {
      assert a + b == b;
    } else {
      assert (a + b)[1..] == a[1..] + b;
      WrittenCellsConcat(t, a[1..], b);
    }
  }

  lemma WrittenCell(t: Table, x: Cell)
    ensures WrittenCells(t, [x]) == Written(t, Whole(x))
  {
    assert WrittenCells(t, []) == "";
  }

  lemma WrittenCellsLast(t: Table, xs: seq<Cell>)
    requires xs != []
    ensures WrittenCells(t, xs) == WrittenCells(t, Init(xs)) + Written(t, Whole(Last(xs)))
  {
    hide Written;
    assert xs == Init(xs) + [Last(xs)];
    WrittenCellsConcat(t, Init(xs), [Last(xs)]);
    WrittenCell(t, Last(xs));
  }

  /** A jam writes nothing; every other cell writes one character, the same whether a key or
      a commit closes it. */
  lemma CellCharacter(t: Table, x: Cell)
    requires ProperTable(t) && Formed(t, x) && x != START
    ensures Emit(Render(Block(t, Whole(x)))) == Written(t, Whole(x))
    ensures |Written(t, Whole(x))| == if IsJam(x) then 0 else 1
    ensures IsJammed(x) ==> IsSyllable(Written(t, Whole(x))[0])
    ensures x.g.initial.None? ==> !IsSyllable(Written(t, Whole(x))[0])
  {
    VowelsProper(t, x.g.vowels);
    FinalsProper(t, Whole(x).finals);
    var b := Block(t, Whole(x));
    CompatRange(if b.cho.Some? then b.cho.value else 0,
                if b.jung.Some? then b.jung.value else 0,
                if b.jong.Some? then b.jong.value else 0);
  }

  // ---------- the composer follows the total reading ----------

  ghost predicate AtCell(t: Table, st: State, x: Cell) {
    Coherent(t, st) && st.queue == CellQueue(x)
  }

  /** All but the last cell committed, the last one pending. */
  ghost predicate FollowsCells(t: Table, r: Run, xs: seq<Cell>) {
    if xs == [] then r.text == "" && AtCell(t, r.st, START)
    else r.text == WrittenCells(t, Init(xs)) && AtCell(t, r.st, Last(xs))
  }

  lemma AtCellFacts(t: Table, st: State, x: Cell)
    requires Formed(t, x) && AtCell(t, st, x)
    ensures Head(st.queue) && st.cur == Block(t, Whole(x))
  {
    hide Folded, Block, CellQueue, Formed;
    CellFolds(t, x);
  }

  /** One key at a cell, when the consonant it may be is not about to be handed back. */
  lemma CellStep(t: Table, st: State, x: Cell, w: seq<TwoSetKey>)
    requires NoInitialPairs(t) && ProperTable(t) && Formed(t, x) && AtCell(t, st, x) && w != []
    requires x.g.finals != [] ==> w[0].Cho?
    requires w[0].Cho? && VowelNext(w) ==> !FinalFits(t, Whole(x), w[0].cho)
    ensures var r := Add2(t, st, Key(w[0]));
            && AtCell(t, r.st, NextCell(t, x, w))
            && Emit(r.out) == if BreaksCell(t, x, w) then Written(t, Whole(x)) else ""
  {
    hide Folded, Add2, Render, Block, Written, FoldVowels, FoldFinals, ToJong, Head, Queue, Lifted, CellQueue;
    AtCellFacts(t, st, x);
    LastOfQueue(x);
    if x != START {
      CellCharacter(t, x);
    }
    if w[0].Jung? {
      VowelCell(t, st, x, w);
    } else if IsRefused(x) {
      RefusedCell(t, st, x, w[0].cho);
    } else if x == START {
      StartCell(t, st, w[0].cho);
    } else if MayClose(x.g, w[0].cho) {
      TakeFinal(t, st, Whole(x), w[0].cho);
      QueueFinal(x, w[0].cho);
      LastOfQueue(Cell(Some(w[0].cho), NOTHING));
    } else {
      TakeInitial(t, st, Whole(x), w[0].cho);
      AloneInitial(w[0].cho);
    }
  }

  lemma AloneInitial(c: Initial)
    ensures CellQueue(Cell(None, Group(Some(c), [], []))) == [Key(Cho(c))]
  {
    LastQueued(Group(Some(c), [], []));
  }

  lemma StartCell(t: Table, st: State, c: Initial)
    requires AtCell(t, st, START)
    ensures var r := Add2(t, st, Key(Cho(c)));
            r.out == None && AtCell(t, r.st, Cell(None, Group(Some(c), [], [])))
  {
    hide Add2, Coherent;
    LastOfQueue(START);
    LastQueued(Group(Some(c), [], []));
    StepOpen(t, st, c);
  }

  lemma RefusedCell(t: Table, st: State, x: Cell, c: Initial)
    requires Formed(t, x) && IsRefused(x) && AtCell(t, st, x)
    ensures var r := Add2(t, st, Key(Cho(c)));
            r.out == None && AtCell(t, r.st, x.(g := Group(Some(c), [], [])))
  {
    hide Add2, Coherent, FoldFinals, ToJong;
    EarlyLifts(t, x);
    LastOfQueue(x);
    assert x.g == NOTHING;
    TakeAfterRefused(t, st, x.early.value, c);
    LastQueued(Group(Some(c), [], []));
  }

  lemma VowelCell(t: Table, st: State, x: Cell, w: seq<TwoSetKey>)
    requires ProperTable(t) && Formed(t, x) && AtCell(t, st, x) && w != [] && w[0].Jung? && x.g.finals == []
    ensures var r := Add2(t, st, Key(w[0]));
            && AtCell(t, r.st, NextCell(t, x, w))
            && Emit(r.out) == if BreaksCell(t, x, w) then Written(t, Whole(x)) else ""
  {
    hide Folded, Add2, Render, Block, Written, FoldVowels, FoldFinals, ToJong, Head, Queue, Lifted, CellQueue;
    var v := w[0].jung;
    AtCellFacts(t, st, x);
    LastOfQueue(x);
    if IsRefused(x) {
      var c := x.early.value;
      EarlyLifts(t, x);
      assert x.g == NOTHING && [] + [Lifted(c)] == [Lifted(c)];
      StepCarry(t, st, [], c, v);
      PlainQueue(Group(Some(c), [v], []));
    } else {
      TakeVowel(t, st, Whole(x), v);
      QueueVowel(x, v);
      AloneCell(v);
      if x == START {
        SingleVowel(t, v);
        assert [] + [v] == [v];
      } else {
        CellCharacter(t, x);
      }
    }
  }

  lemma PlainQueue(g: Group)
    ensures CellQueue(Cell(None, g)) == Queue(g)
  {
  }

  lemma AloneCell(v: Medial)
    ensures CellQueue(Cell(None, Group(None, [v], []))) == [Key(Jung(v))]
  {
    AloneVowel(v);
  }

  lemma FollowsBroken(t: Table, out: Option<char>, x: Cell, breaks: bool, r: Run, xs: seq<Cell>)
    requires xs != [] && FollowsCells(t, r, xs) && Emit(out) == if breaks then Written(t, Whole(x)) else ""
    ensures FollowsCells(t, Run(r.st, Emit(out) + r.text), (if breaks then [x] else []) + xs)
  {
    hide Written, AtCell, WrittenCells, Whole;
    if breaks {
      assert Init([x] + xs) == [x] + Init(xs) && Last([x] + xs) == Last(xs);
      WrittenCellsConcat(t, [x], Init(xs));
      WrittenCell(t, x);
    } else {
      assert [] + xs == xs && "" + r.text == r.text;
    }
  }

  /** For every key sequence whatever: the composer commits all cells but the last, and holds
      the last. */
  lemma {:induction false} CellsSound(t: Table, st: State, x: Cell, w: seq<TwoSetKey>)
    requires NoInitialPairs(t) && ProperTable(t) && Formed(t, x) && AtCell(t, st, x)
    requires x.g.finals != [] && w != [] ==> w[0].Cho?
    ensures FollowsCells(t, Feed(Two(t), st, Keys(w)), Cells(t, x, w))
    decreases |w|, 1
  {
    hide Add2, AtCell, Formed, NextCell, BreaksCell, Cells, FinalFits, Feed;
    UnfoldCells(t, x, w);
    if w == [] {
      FedNothing(t, st);
      OnlyCell(t, st, x);
    } else if w[0].Cho? && VowelNext(w) && FinalFits(t, Whole(x), w[0].cho) {
      CellSwallowed(t, st, x, w);
    } else {
      CellStep(t, st, x, w);
      FeedCons(t, st, w);
      var step := Add2(t, st, Key(w[0]));
      var rest := Cells(t, NextCell(t, x, w), w[1..]);
      CellsSound(t, step.st, NextCell(t, x, w), w[1..]);
      CellsCover(t, NextCell(t, x, w), w[1..]);
      FollowsBroken(t, step.out, x, BreaksCell(t, x, w), Feed(Two(t), step.st, Keys(w[1..])), rest);
    }
  }

  lemma FedNothing(t: Table, st: State)
    ensures Feed(Two(t), st, Keys([])) == Run(st, "")
  {
  }

  lemma OnlyCell(t: Table, st: State, x: Cell)
    requires AtCell(t, st, x)
    ensures FollowsCells(t, Run(st, ""), if x == START then [] else [x])
  {
    hide Coherent, CellQueue;
  }

  /** The consonant swallowed and the vowel that hands it back, at the composer. */
  lemma SwallowStep(t: Table, st: State, x: Cell, w: seq<TwoSetKey>)
    requires NoInitialPairs(t) && ProperTable(t) && Formed(t, x) && AtCell(t, st, x)
    requires w != [] && w[0].Cho? && VowelNext(w) && FinalFits(t, Whole(x), w[0].cho)
    ensures var step := Add2(t, st, Key(w[0])); var second := Add2(t, step.st, Key(w[1]));
            && step.out == None && Emit(second.out) == Written(t, Whole(x))
            && AtCell(t, second.st, Cell(None, Group(Some(w[0].cho), [w[1].jung], [])))
  {
    hide Add2, Formed, Coherent, CellQueue, Folded, Written, Block, Render, FinalFits;
    var c, v := w[0].cho, w[1].jung;
    var step := Add2(t, st, Key(w[0]));
    SwallowFacts(t, x, w);
    AtCellFacts(t, st, x);
    TakeFinal(t, st, Whole(x), c);
    StepCarry(t, step.st, CellQueue(x), c, v);
    CellFolds(t, x);
    LastOfQueue(x);
    CellCharacter(t, x);
    PlainQueue(Group(Some(c), [v], []));
  }

  /** The consonant is swallowed as a final and handed back by the vowel after it. */
  lemma CellSwallowed(t: Table, st: State, x: Cell, w: seq<TwoSetKey>)
    requires NoInitialPairs(t) && ProperTable(t) && Formed(t, x) && AtCell(t, st, x)
    requires w != [] && w[0].Cho? && VowelNext(w) && FinalFits(t, Whole(x), w[0].cho)
    ensures FollowsCells(t, Feed(Two(t), st, Keys(w)), Cells(t, x, w))
    decreases |w|, 0
  {
    hide Add2, Formed, NextCell, BreaksCell, Cells, Feed, AtCell, Written, FinalFits, FollowsCells;
    var c, v := w[0].cho, w[1].jung;
    var step := Add2(t, st, Key(w[0]));
    var second := Add2(t, step.st, Key(w[1]));
    var alone, next := Cell(None, Group(Some(c), [], [])), Cell(None, Group(Some(c), [v], []));
    FeedCons(t, st, w);
    FeedCons(t, step.st, w[1..]);
    assert w[1..][0] == w[1] && w[1..][1..] == w[2..];
    SwallowFacts(t, x, w);
    SwallowStep(t, st, x, w);
    UnfoldCells(t, x, w);
    UnfoldCells(t, alone, w[1..]);
    CellsSound(t, second.st, next, w[2..]);
    CellsCover(t, next, w[2..]);
    assert [] + Cells(t, next, w[2..]) == Cells(t, next, w[2..]);
    var rest := Feed(Two(t), second.st, Keys(w[2..]));
    FollowsBroken(t, second.out, x, true, rest, Cells(t, next, w[2..]));
    assert "" + (Emit(second.out) + rest.text) == Emit(second.out) + rest.text;
  }

  /** What swallowing means for the reading, and that the cell shows its character. */
  lemma SwallowFacts(t: Table, x: Cell, w: seq<TwoSetKey>)
    requires ProperTable(t) && Formed(t, x) && w != [] && w[0].Cho? && VowelNext(w) && FinalFits(t, Whole(x), w[0].cho)
    ensures var alone, next := Cell(None, Group(Some(w[0].cho), [], [])),
            Cell(None, Group(Some(w[0].cho), [w[1].jung], []));
            && NextCell(t, x, w) == alone && BreaksCell(t, x, w)
            && NextCell(t, alone, w[1..]) == next && !BreaksCell(t, alone, w[1..])
            && Formed(t, alone) && Formed(t, next)
    ensures GetSyllable(Block(t, Whole(x))) == Render(Block(t, Whole(x)))
    ensures x != START && MayClose(Whole(x), w[0].cho) && FoldVowels(t, Whole(x).vowels).Some?
    ensures Whole(x).finals != [] ==> FoldFinals(t, Whole(x).finals).Some?
  {
    hide FoldFinals, FoldVowels, ToJong, Combine, GetSyllable, Render;
    SingleVowel(t, w[1].jung);
    assert [] + [w[1].jung] == [w[1].jung];
    SwallowerShows(t, x, w[0].cho);
  }

  /** A cell that a consonant could close writes one character. */
  lemma SwallowerShows(t: Table, x: Cell, c: Initial)
    requires ProperTable(t) && Formed(t, x) && FinalFits(t, Whole(x), c)
    ensures GetSyllable(Block(t, Whole(x))) == Render(Block(t, Whole(x)))
  {
    hide FoldFinals, ToJong, Combine;
  }

  /** The cells of all the keys typed since a fresh composer. */
  function AllCells(t: Table, w: seq<TwoSetKey>): seq<Cell> { Cells(t, START, w) }

  lemma StartsHere(t: Table)
    ensures Formed(t, START) && AtCell(t, FRESH, START) && CellQueue(START) == []
  {
    FoldedEmpty(t);
  }

  /** The text on screen, for every key sequence: the cells, one after another. */
  lemma TotalText(t: Table, w: seq<TwoSetKey>)
    requires NoInitialPairs(t) && ProperTable(t)
    ensures Text2(t, w) == WrittenCells(t, AllCells(t, w))
  {
    hide Coherent, Feed, Force, Formed, Written, Cells, Block, Render, GetSyllable, CellQueue;
    StartsHere(t);
    CellsSound(t, FRESH, START, w);
    CellsCover(t, START, w);
    var xs := AllCells(t, w);
    var r := Feed(Two(t), FRESH, Keys(w));
    if xs == [] {
      ForceNothing(t, r.st);
    } else {
      assert Last(xs) in xs;
      PendingCell(t, r.st, Last(xs));
      WrittenCellsLast(t, xs);
    }
  }

  lemma PendingCell(t: Table, st: State, x: Cell)
    requires ProperTable(t) && Formed(t, x) && x != START && AtCell(t, st, x)
    ensures Emit(Force(t, st).out) == Written(t, Whole(x))
  {
    hide Folded, Recompose, Block, CellQueue;
    AtCellFacts(t, st, x);
    LastOfQueue(x);
    ForceCoherent(t, st);
  }

  // ---------- on clean keys the two readings agree ----------

  /** The group a cell should be: a refused final is the consonant that was typed. */
  function Meant(x: Cell): Group {
    if IsRefused(x) then Group(x.early, [], []) else x.g
  }

  function MeantAll(xs: seq<Cell>): (gs: seq<Group>)
    ensures |gs| == |xs|
    ensures forall i | 0 <= i < |xs| :: gs[i] == Meant(xs[i])
  {
    seq(|xs|, i requires 0 <= i < |xs| => Meant(xs[i]))
  }

  /** No final stays ahead of another consonant. */
  predicate InOrder(x: Cell) {
    x.early.Some? ==> x.g == NOTHING
  }

  lemma {:induction false} CleanCells(t: Table, x: Cell, w: seq<TwoSetKey>)
    requires Formed(t, x) && InOrder(x) && (x.g.finals != [] && w != [] ==> w[0].Cho?)
    requires x.early.Some? && w != [] ==> w[0].Jung?
    requires Parse(t, Meant(x), w).clean
    ensures MeantAll(Cells(t, x, w)) == Parse(t, Meant(x), w).groups
    ensures forall y <- Cells(t, x, w) :: InOrder(y)
    decreases |w|
  {
    hide Formed, NextCell, BreaksCell, Cells, Next, Breaks, Jams, Parse;
    UnfoldCells(t, x, w);
    Unfold(t, Meant(x), w);
    if w == [] {
      MeantStart();
    } else {
      CleanStep(t, x, w);
      CleanCells(t, NextCell(t, x, w), w[1..]);
    }
  }

  lemma MeantStart()
    ensures forall x | InOrder(x) :: Meant(x) == NOTHING <==> x == START
  {
  }

  lemma CleanStep(t: Table, x: Cell, w: seq<TwoSetKey>)
    requires Formed(t, x) && InOrder(x) && w != [] && (x.g.finals != [] ==> w[0].Cho?)
    requires (x.early.Some? ==> w[0].Jung?) && !Jams(t, Meant(x), w)
    ensures var h := NextCell(t, x, w);
            && InOrder(h) && Meant(h) == Next(t, Meant(x), w) && (h.early.Some? && |w| > 1 ==> w[1].Jung?)
            && (BreaksCell(t, x, w) <==> Breaks(t, Meant(x), w))
  {
    hide FoldFinals, ToJong;
    if w[0].Jung? {
      SingleVowel(t, w[0].jung);
      assert [] + [w[0].jung] == [w[0].jung];
    }
    if x.early.None? {
      assert Whole(x) == x.g;
    }
  }
}
