/** Two-set typing judged by the final text alone: a text whose keys jam never comes out right
    in the end. */
module FinalText {
  import opened Wrappers
  import opened Jamo
  import opened HangulChars
  import opened Fold
  import opened TwoBulParser
  import opened TwoBulText
  import opened Tables
  import opened TotalReading
  import opened SplitPoint

  /** No three final keys make a final. */
  ghost predicate ShortFinals(t: Table) {
    forall fs: seq<Initial> | |fs| >= 3 :: FoldFinals(t, fs).None?
  }

  lemma ClusterStops(f: Final, c: Final, d: Final)
    requires Combine(STD, Jong(f), Jong(c)).Some?
    ensures Combine(STD, Combine(STD, Jong(f), Jong(c)).value, Jong(d)).None?
  {
    hide Combine;
    ClusterResult(f, c);
    ClusterFirst(Combine(STD, Jong(f), Jong(c)).value.jong, d);
  }

  predicate IsCluster(f: Final) {
    f == 2 || f == 3 || f == 5 || f == 6 || 9 <= f <= 15 || f == 18 || f == 20
  }

  lemma ClusterResult(f: Final, c: Final)
    requires Combine(STD, Jong(f), Jong(c)).Some?
    ensures IsCluster(Combine(STD, Jong(f), Jong(c)).value.jong)
  {
  }

  lemma ClusterFirst(f: Final, d: Final)
    requires IsCluster(f)
    ensures Combine(STD, Jong(f), Jong(d)).None?
  {
  }

  lemma {:induction false} StdLong(fs: seq<Initial>)
    requires |fs| >= 3
    ensures FoldFinals(STD, fs).None?
  {
    hide Combine, ToJong;
    var b := Init(fs);
    if |fs| > 3 {
      StdLong(b);
    } else if FoldFinals(STD, b).Some? && FoldFinals(STD, fs).Some? {
      FinalsPrefix(STD, fs, 1);
      FinalsPrefix(STD, fs, 2);
      FinalsPrefix(STD, fs, 3);
      assert Init(b) == fs[..1] && fs[..2] == b && fs[..3] == fs;
      ClusterStops(FoldFinals(STD, fs[..1]).value, ToJong(fs[1]).value, ToJong(fs[2]).value);
      assert false;
    }
  }

  lemma StdShort()
    ensures ShortFinals(STD)
  {
    forall fs: seq<Initial> | |fs| >= 3 ensures FoldFinals(STD, fs).None? {
      StdLong(fs);
    }
  }

  // ---------- how far the composer is behind the reading ----------

  /** Where the composer's cell and the group of the reading stand: together, at a jam, after
      the vowels of a jam, or apart because only one of them took a final. */
  datatype Drift = Together | AtJam | AfterJam | OnlyCellTook | OnlyGroupTook | GroupTookTwo

  predicate Drifts(k: Drift, x: Cell, g: Group) {
    match k
    case Together => InOrder(x) && g == Meant(x)
    case AtJam => IsJam(x) && x.g.finals == [] && g == Group(x.g.initial, [], [])
    case AfterJam => IsJammed(x) && x.g.initial.Some? && g.initial == x.g.initial && g.vowels == x.g.vowels
    case OnlyCellTook => IsJammed(x) && x.g.finals != [] && g.initial.Some? && g == Group(g.initial, [], [])
    case OnlyGroupTook => IsRefused(x) && x.g == NOTHING && g.initial.Some? && g.vowels != [] && g.finals != []
    case GroupTookTwo => IsJam(x) && x.g.finals == [] && g.initial.Some? && g.vowels != [] && |g.finals| >= 2
  }

  /** How many characters the reading is ahead. */
  function Ahead(k: Drift): nat {
    match k case AtJam => 1 case AfterJam => 1 case OnlyCellTook => 2 case _ => 0
  }

  /** No vowel follows a final that was taken. */
  predicate NoVowelNow(k: Drift, x: Cell, g: Group, w: seq<TwoSetKey>) {
    w != [] && (x.g.finals != [] || g.finals != [] || k.OnlyCellTook? || k.OnlyGroupTook? || k.GroupTookTwo?)
    ==> w[0].Cho?
  }

  /** The characters that key `w[0]` closes. */
  function Closed(t: Table, x: Cell, w: seq<TwoSetKey>): nat
    requires w != []
  {
    if BreaksCell(t, x, w) && !IsJam(x) then 1 else 0
  }

  function ClosedGroups(t: Table, g: Group, w: seq<TwoSetKey>): nat
    requires w != []
  {
    if Breaks(t, g, w) then 1 else 0
  }

  /** One key keeps the composer behind. */
  predicate StepsTo(t: Table, k: Drift, k': Drift, x: Cell, g: Group, w: seq<TwoSetKey>)
    requires w != []
  {
    var h, n := NextCell(t, x, w), Next(t, g, w);
    && Drifts(k', h, n) && NoVowelNow(k', h, n, w[1..])
    && Closed(t, x, w) + Ahead(k') <= ClosedGroups(t, g, w) + Ahead(k)
  }

  lemma StepTogether(t: Table, x: Cell, g: Group, w: seq<TwoSetKey>) returns (k: Drift)
    requires Formed(t, x) && w != [] && Drifts(Together, x, g) && NoVowelNow(Together, x, g, w)
    ensures StepsTo(t, Together, k, x, g, w)
  {
    hide FoldFinals, ToJong;
    k := if IsRefused(x) && w[0].Cho? then AtJam else Together;
    if w[0].Jung? {
      SingleVowel(t, w[0].jung);
      assert [] + [w[0].jung] == [w[0].jung];
    }
    if x.early.None? {
      assert Whole(x) == x.g;
    }
  }

  lemma StepAtJam(t: Table, x: Cell, g: Group, w: seq<TwoSetKey>) returns (k: Drift)
    requires Formed(t, x) && w != [] && Drifts(AtJam, x, g) && NoVowelNow(AtJam, x, g, w)
    ensures StepsTo(t, AtJam, k, x, g, w)
  {
    hide FoldFinals, FoldVowels, ToJong;
    k := if w[0].Jung? then AfterJam else Together;
    if w[0].Jung? {
      SingleVowel(t, w[0].jung);
      assert [] + [w[0].jung] == [w[0].jung];
    }
  }

  lemma StepAfterJam(t: Table, x: Cell, g: Group, w: seq<TwoSetKey>) returns (k: Drift)
    requires Formed(t, x) && w != [] && Drifts(AfterJam, x, g) && NoVowelNow(AfterJam, x, g, w)
    ensures StepsTo(t, AfterJam, k, x, g, w)
  {
    hide FoldFinals, FoldVowels, ToJong;
    if w[0].Jung? {
      k := if VowelFits(t, g, w[0].jung) && VowelFits(t, x.g, w[0].jung) then AfterJam else Together;
    } else {
      var c := w[0].cho;
      var cell, group := FinalFits(t, Whole(x), c) && !VowelNext(w), FinalFits(t, g, c) && !VowelNext(w);
      k := if cell && group then AfterJam
           else if cell then OnlyCellTook
           else if group then OnlyGroupTook
           else Together;
    }
  }

  lemma StepOnlyCellTook(t: Table, x: Cell, g: Group, w: seq<TwoSetKey>) returns (k: Drift)
    requires Formed(t, x) && w != [] && Drifts(OnlyCellTook, x, g) && NoVowelNow(OnlyCellTook, x, g, w)
    ensures StepsTo(t, OnlyCellTook, k, x, g, w)
  {
    hide FoldFinals, FoldVowels, ToJong;
    k := if FinalFits(t, Whole(x), w[0].cho) && !VowelNext(w) then OnlyCellTook else Together;
  }

  lemma StepOnlyGroupTook(t: Table, x: Cell, g: Group, w: seq<TwoSetKey>) returns (k: Drift)
    requires Formed(t, x) && w != [] && Drifts(OnlyGroupTook, x, g) && NoVowelNow(OnlyGroupTook, x, g, w)
    ensures StepsTo(t, OnlyGroupTook, k, x, g, w)
  {
    hide FoldFinals, FoldVowels, ToJong;
    k := if FinalFits(t, g, w[0].cho) && !VowelNext(w) then GroupTookTwo else AtJam;
  }

  lemma StepGroupTookTwo(t: Table, x: Cell, g: Group, w: seq<TwoSetKey>) returns (k: Drift)
    requires ShortFinals(t)
    requires Formed(t, x) && w != [] && Drifts(GroupTookTwo, x, g) && NoVowelNow(GroupTookTwo, x, g, w)
    ensures StepsTo(t, GroupTookTwo, k, x, g, w)
  {
    hide FoldFinals, FoldVowels, ToJong;
    k := Together;
    assert FoldFinals(t, g.finals + [w[0].cho]).None?;
  }

  lemma StepBehind(t: Table, k: Drift, x: Cell, g: Group, w: seq<TwoSetKey>) returns (k': Drift)
    requires ShortFinals(t) && Formed(t, x) && w != [] && Drifts(k, x, g) && NoVowelNow(k, x, g, w)
    ensures StepsTo(t, k, k', x, g, w)
  {
    hide Formed, Drifts, StepsTo, NoVowelNow, ShortFinals;
    match k {
      case Together => k' := StepTogether(t, x, g, w);
      case AtJam => k' := StepAtJam(t, x, g, w);
      case AfterJam => k' := StepAfterJam(t, x, g, w);
      case OnlyCellTook => k' := StepOnlyCellTook(t, x, g, w);
      case OnlyGroupTook => k' := StepOnlyGroupTook(t, x, g, w);
      case GroupTookTwo => k' := StepGroupTookTwo(t, x, g, w);
    }
  }

  lemma Finals(k: Drift, x: Cell, g: Group, w: seq<TwoSetKey>)
    requires NoVowelNow(k, x, g, w) && w != []
    ensures x.g.finals != [] ==> w[0].Cho?
  {
  }

  /** The text is never more than that many characters longer than the reading. */
  lemma {:induction false} NeverAhead(t: Table, k: Drift, x: Cell, g: Group, w: seq<TwoSetKey>)
    requires ProperTable(t) && ShortFinals(t) && Formed(t, x) && Drifts(k, x, g) && NoVowelNow(k, x, g, w)
    ensures |CellText(t, x, w)| <= |Parse(t, g, w).groups| + Ahead(k)
    decreases |w|
  {
    hide Formed, NextCell, BreaksCell, CellText, Cells, Next, Breaks, Jams, Parse, Written, ShortFinals, ProperTable,
      Drifts, NoVowelNow;
    Unfold(t, g, w);
    if w == [] {
      LastPending(t, k, x, g);
      CellTextStep(t, x, w);
    } else {
      Finals(k, x, g, w);
      CellTextStep(t, x, w);
      var k' := StepBehind(t, k, x, g, w);
      NeverAhead(t, k', NextCell(t, x, w), Next(t, g, w), w[1..]);
      ClosedWrites(t, x, w);
    }
  }

  lemma LastPending(t: Table, k: Drift, x: Cell, g: Group)
    requires ProperTable(t) && Formed(t, x) && Drifts(k, x, g)
    ensures |if x == START then "" else Written(t, Whole(x))| <= (if g == NOTHING then 0 else 1) + Ahead(k)
  {
    hide Formed, Written;
    if x != START {
      CellCharacter(t, x);
    }
  }

  lemma ClosedWrites(t: Table, x: Cell, w: seq<TwoSetKey>)
    requires ProperTable(t) && Formed(t, x) && w != []
    ensures |if BreaksCell(t, x, w) then Written(t, Whole(x)) else ""| == Closed(t, x, w)
  {
    hide Formed, Written, CellVowelFits, FinalFits;
    if BreaksCell(t, x, w) {
      CellCharacter(t, x);
    }
  }

  // ---------- a jam shows in the final text ----------

  /** From the jam on the texts differ: at its first character if a vowel follows, else in
      length. */
  lemma JamDiffers(t: Table, c: Initial, v: seq<TwoSetKey>)
    requires ProperTable(t) && ShortFinals(t) && Formed(t, Cell(Some(c), NOTHING)) && v != [] && v[0].Cho?
    requires WellFormed(t, Group(Some(c), [], []))
    ensures CellText(t, Cell(Some(c), NOTHING), v) != WrittenAll(t, Parse(t, Group(Some(c), [], []), v).groups)
  {
    hide Formed, CellText, Cells, Parse, Written, ShortFinals, ProperTable, NextCell, BreaksCell, Next, Breaks,
      WellFormed;
    var x, g := Cell(Some(c), NOTHING), Group(Some(c), [], []);
    var jam, h, rest := Cell(Some(c), Group(Some(v[0].cho), [], [])), Group(Some(v[0].cho), [], []), v[1..];
    JamStarts(t, c, v);
    CellTextStep(t, x, v);
    Unfold(t, g, v);
    NextWellFormed(t, g, v);
    assert CellText(t, x, v) == CellText(t, jam, rest) by {
      assert "" + CellText(t, jam, rest) == CellText(t, jam, rest);
    }
    var gs := Parse(t, h, rest).groups;
    WrittenFirst(t, g, gs);
    OneCharacter(t, g);
    if rest == [] {
      CellTextStep(t, jam, rest);
      JamSilent(t, jam);
    } else if rest[0].Jung? {
      VowelShows(t, jam, rest);
    } else {
      ConsonantShortens(t, jam, h, rest);
      ParseSegments(t, h, rest);
      OneCharacterEach(t, gs);
    }
  }

  lemma JamStarts(t: Table, c: Initial, v: seq<TwoSetKey>)
    requires v != [] && v[0].Cho?
    ensures var x, g := Cell(Some(c), NOTHING), Group(Some(c), [], []);
            && NextCell(t, x, v) == Cell(Some(c), Group(Some(v[0].cho), [], [])) && !BreaksCell(t, x, v)
            && Next(t, g, v) == Group(Some(v[0].cho), [], []) && Breaks(t, g, v) && g != NOTHING
            && !(g.initial.Some? && g.vowels != [])
  {
  }

  lemma WrittenFirst(t: Table, g: Group, gs: seq<Group>)
    ensures WrittenAll(t, [g] + gs) == Written(t, g) + WrittenAll(t, gs)
  {
    hide Written;
    assert ([g] + gs)[1..] == gs;
  }

  lemma JamSilent(t: Table, jam: Cell)
    requires ProperTable(t) && Formed(t, jam) && IsJam(jam)
    ensures Written(t, Whole(jam)) == ""
  {
    hide Formed, Written;
    CellCharacter(t, jam);
  }

  lemma VowelShows(t: Table, jam: Cell, rest: seq<TwoSetKey>)
    requires ProperTable(t) && Formed(t, jam) && IsJam(jam) && jam.g.finals == [] && rest != [] && rest[0].Jung?
    ensures CellText(t, jam, rest) != "" && IsSyllable(CellText(t, jam, rest)[0])
  {
    hide Formed, CellText, Cells, Written, NextCell, BreaksCell;
    CellTextStep(t, jam, rest);
    JamNext(t, jam, rest);
    var h := NextCell(t, jam, rest);
    SteadyText(t, h, rest[1..]);
    assert "" + CellText(t, h, rest[1..]) == CellText(t, h, rest[1..]);
  }

  lemma ConsonantShortens(t: Table, jam: Cell, h: Group, rest: seq<TwoSetKey>)
    requires ProperTable(t) && ShortFinals(t) && Formed(t, jam) && Drifts(AtJam, jam, h)
    requires rest != [] && rest[0].Cho?
    ensures |CellText(t, jam, rest)| <= |Parse(t, h, rest).groups|
  {
    hide Formed, CellText, Cells, Written, NextCell, BreaksCell, Next, Breaks, Parse, ShortFinals, ProperTable;
    CellTextStep(t, jam, rest);
    JamSilent(t, jam);
    Unfold(t, h, rest);
    BothOpen(t, jam, h, rest);
    NeverAhead(t, Together, NextCell(t, jam, rest), Next(t, h, rest), rest[1..]);
  }

  lemma BothOpen(t: Table, jam: Cell, h: Group, rest: seq<TwoSetKey>)
    requires Drifts(AtJam, jam, h) && rest != [] && rest[0].Cho?
    ensures var y, g := NextCell(t, jam, rest), Next(t, h, rest);
            Drifts(Together, y, g) && Breaks(t, h, rest) && NoVowelNow(Together, y, g, rest[1..])
  {
  }

  /** As long as nothing jams both write the same; the first jam makes the difference. */
  lemma {:induction false} UncleanDiffers(t: Table, x: Cell, w: seq<TwoSetKey>)
    requires ProperTable(t) && ShortFinals(t) && Formed(t, x) && InOrder(x) && WellFormed(t, Meant(x))
    requires (x.g.finals != [] && w != [] ==> w[0].Cho?) && (x.early.Some? && w != [] ==> w[0].Jung?)
    requires !Parse(t, Meant(x), w).clean
    ensures CellText(t, x, w) != WrittenAll(t, Parse(t, Meant(x), w).groups)
    decreases |w|
  {
    hide Formed, CellText, Cells, Written, NextCell, BreaksCell, Next, Breaks, Jams, Parse, ShortFinals, ProperTable,
      WellFormed, Whole;
    var g := Meant(x);
    Unfold(t, g, w);
    CellTextStep(t, x, w);
    NextWellFormed(t, g, w);
    SameFirst(t, x, w);
    var h, n, rest := NextCell(t, x, w), Next(t, g, w), w[1..];
    var gs := Parse(t, n, rest).groups;
    if Jams(t, g, w) {
      JamHere(t, x, w);
      JamDiffers(t, w[0].cho, rest);
    } else {
      CleanStep(t, x, w);
      UncleanDiffers(t, h, rest);
    }
    WrittenFirst(t, g, gs);
    assert [] + gs == gs;
    SamePrefix(if Breaks(t, g, w) then Written(t, g) else "", CellText(t, h, rest), WrittenAll(t, gs));
  }

  /** A cell in order closes together with its group and writes the same. */
  lemma SameFirst(t: Table, x: Cell, w: seq<TwoSetKey>)
    requires InOrder(x) && w != [] && (x.early.Some? ==> w[0].Jung?)
    ensures BreaksCell(t, x, w) <==> Breaks(t, Meant(x), w)
    ensures BreaksCell(t, x, w) ==> Whole(x) == Meant(x)
  {
    hide FoldFinals, ToJong;
    if w[0].Jung? {
      SingleVowel(t, w[0].jung);
      assert [] + [w[0].jung] == [w[0].jung];
    }
    if x.early.None? {
      assert Whole(x) == x.g;
    }
  }

  lemma JamHere(t: Table, x: Cell, w: seq<TwoSetKey>)
    requires InOrder(x) && w != [] && (x.early.Some? ==> w[0].Jung?) && Jams(t, Meant(x), w)
    ensures w[0].Cho?
    ensures NextCell(t, x, w) == Cell(Some(w[0].cho), NOTHING) && Next(t, Meant(x), w) == Group(Some(w[0].cho), [], [])
    ensures w[1..] != [] && w[1..][0].Cho?
  {
    hide FoldFinals, ToJong;
    if x.early.None? {
      assert Whole(x) == x.g;
    }
  }

  /** The text in the end is the reading if and only if no consonant jams. */
  lemma FinalTextExactly(t: Table, w: seq<TwoSetKey>)
    requires NoInitialPairs(t) && ProperTable(t) && ShortFinals(t)
    ensures Text2(t, w) == WrittenAll(t, Groups(t, w)) <==> Parse(t, NOTHING, w).clean
  {
    hide Text2, Parse, CellText, Cells, Formed, WellFormed, ShortFinals, WrittenCells;
    TotalText(t, w);
    TextIs(t, START, w);
    StartsTogether(t);
    if Parse(t, NOTHING, w).clean {
      ReadText(t, w);
    } else {
      UncleanDiffers(t, START, w);
    }
  }

  lemma StartsTogether(t: Table)
    ensures Formed(t, START) && WellFormed(t, NOTHING) && Meant(START) == NOTHING && InOrder(START)
  {
  }

  /** So it is on the standard layout. */
  lemma StandardFinalText(w: seq<TwoSetKey>)
    ensures Text2(STD, w) == WrittenAll(STD, Groups(STD, w)) <==> Parse(STD, NOTHING, w).clean
  {
    hide *;
    StdFits();
    StdShort();
    FinalTextExactly(STD, w);
  }
}
