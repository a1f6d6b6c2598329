/** Where a typed text can be cut: the keys of its last character. */
module SplitPoint {
  import opened Wrappers
  import opened Jamo
  import opened HangulChars
  import opened Fold
  import opened TwoBulParser
  import opened RoundTrip
  import opened TotalReading

  /** A final key more is a different character. */
  lemma FinalChangesCharacter(t: Table, g: Group, c: Initial)
    requires ProperTable(t) && Progressing(t) && WellFormed(t, g) && FinalFits(t, g, c)
    ensures WellFormed(t, g.(finals := g.finals + [c]))
    ensures Written(t, g.(finals := g.finals + [c])) != Written(t, g)
  {
    var h := g.(finals := g.finals + [c]);
    assert Init(h.finals) == g.finals;
    VowelsProper(t, g.vowels);
    FinalsProper(t, g.finals);
    FinalsProper(t, h.finals);
    var a, b := Block(t, g), Block(t, h);
    var f := if a.jong.Some? then a.jong.value else 0;
    assert b.jong.value != f;
    SyllablesDiffer(a.cho.value, a.jung.value, f, b.jong.value);
  }

  // ---------- which cells write ----------

  /** A cell that goes on writing its character whatever is typed next. */
  predicate Steady(x: Cell) {
    x != START && (x.early.None? || IsJammed(x))
  }

  /** The text of the keys `w` when `x` has been read so far. */
  function CellText(t: Table, x: Cell, w: seq<TwoSetKey>): string {
    WrittenCells(t, Cells(t, x, w))
  }

  lemma TextIs(t: Table, x: Cell, w: seq<TwoSetKey>)
    ensures CellText(t, x, w) == WrittenCells(t, Cells(t, x, w))
  {
  }

  lemma CellTextStep(t: Table, x: Cell, w: seq<TwoSetKey>)
    requires Formed(t, x) && (x.g.finals != [] && w != [] ==> w[0].Cho?)
    ensures w == [] ==> CellText(t, x, w) == if x == START then "" else Written(t, Whole(x))
    ensures w != [] ==>
      var h := NextCell(t, x, w);
      && Formed(t, h) && h != START && (h.g.finals != [] && |w| > 1 ==> w[1].Cho?)
      && CellText(t, x, w) == (if BreaksCell(t, x, w) then Written(t, Whole(x)) else "") + CellText(t, h, w[1..])
      && Cells(t, x, w) == (if BreaksCell(t, x, w) then [x] else []) + Cells(t, h, w[1..])
  {
    hide NextCell, BreaksCell, Formed, Cells, Written;
    UnfoldCells(t, x, w);
    WrittenCell(t, x);
    if w != [] {
      WrittenCellsConcat(t, [x], Cells(t, NextCell(t, x, w), w[1..]));
      assert [] + Cells(t, NextCell(t, x, w), w[1..]) == Cells(t, NextCell(t, x, w), w[1..]);
    }
  }

  /** The first cell stays what it is: its character, its early final or none, and whether it
      is a syllable. */
  lemma {:induction false} SteadyFirst(t: Table, x: Cell, w: seq<TwoSetKey>)
    requires ProperTable(t) && Formed(t, x) && Steady(x) && (x.g.finals != [] && w != [] ==> w[0].Cho?)
    ensures var xs := Cells(t, x, w);
            && xs != [] && Steady(xs[0]) && xs[0].early == x.early
            && (x.g.initial.None? ==> xs[0].g.initial.None?)
    decreases |w|
  {
    hide Formed, NextCell, BreaksCell, Cells;
    UnfoldCells(t, x, w);
    if w != [] && BreaksCell(t, x, w) {
      assert ([x] + Cells(t, NextCell(t, x, w), w[1..]))[0] == x;
    } else if w != [] {
      SteadyNext(t, x, w);
      SteadyFirst(t, NextCell(t, x, w), w[1..]);
      assert [] + Cells(t, NextCell(t, x, w), w[1..]) == Cells(t, NextCell(t, x, w), w[1..]);
    }
  }

  lemma SteadyNext(t: Table, x: Cell, w: seq<TwoSetKey>)
    requires Formed(t, x) && Steady(x) && w != [] && !BreaksCell(t, x, w)
    ensures var h := NextCell(t, x, w);
            Steady(h) && h.early == x.early && (x.g.initial.None? ==> h.g.initial.None?)
  {
    hide FoldVowels, FoldFinals, ToJong;
  }

  /** The text of a steady cell starts with that cell's character. */
  lemma SteadyText(t: Table, x: Cell, w: seq<TwoSetKey>)
    requires ProperTable(t) && Formed(t, x) && Steady(x) && (x.g.finals != [] && w != [] ==> w[0].Cho?)
    ensures CellText(t, x, w) != ""
    ensures IsJammed(x) ==> IsSyllable(CellText(t, x, w)[0])
    ensures x.g.initial.None? ==> !IsSyllable(CellText(t, x, w)[0])
  {
    hide Formed, Written, Cells;
    SteadyFirst(t, x, w);
    CellsCover(t, x, w);
    var xs := Cells(t, x, w);
    assert xs[0] in xs;
    CellCharacter(t, xs[0]);
    FormedJam(t, xs[0]);
    FormedJam(t, x);
  }

  lemma FormedJam(t: Table, x: Cell)
    requires Formed(t, x)
    ensures IsJammed(x) ==> x.g.initial.Some?
  {
  }

  /** The last cell that writes, jams aside, is a jammed syllable. */
  predicate EndsJammed(xs: seq<Cell>)
    decreases |xs|
  {
    xs != [] && if IsJam(Last(xs)) then EndsJammed(Init(xs)) else IsJammed(Last(xs))
  }

  /** Cells after the first that write nothing are jams. */
  lemma {:induction false} SilentAreJams(t: Table, xs: seq<Cell>)
    requires ProperTable(t) && (forall x <- xs :: Formed(t, x) && x != START)
    ensures WrittenCells(t, xs) == "" <==> forall x <- xs :: IsJam(x)
  {
    hide Formed, Written;
    if xs != [] {
      assert xs[0] in xs && forall x <- xs[1..] :: x in xs;
      CellCharacter(t, xs[0]);
      SilentAreJams(t, xs[1..]);
      assert forall x <- xs :: x == xs[0] || x in xs[1..];
    }
  }

  lemma {:induction false} EndsWithJams(a: seq<Cell>, b: seq<Cell>)
    ensures (forall x <- b :: IsJam(x)) ==> EndsJammed(a + b) == EndsJammed(a)
    ensures b != [] && !IsJam(Last(b)) ==> EndsJammed(a + b) == IsJammed(Last(b))
    decreases |b|
  {
    if b == [] {
      assert a + b == a;
    } else {
      assert Init(a + b) == a + Init(b) && Last(a + b) == Last(b);
      assert forall x <- Init(b) :: x in b;
      EndsWithJams(a, Init(b));
    }
  }

  /** What comes before cells that write something does not matter. */
  lemma {:induction false} EndsLater(t: Table, a: seq<Cell>, b: seq<Cell>)
    requires ProperTable(t) && (forall x <- b :: Formed(t, x) && x != START) && WrittenCells(t, b) != ""
    ensures EndsJammed(a + b) == EndsJammed(b)
    decreases |b|
  {
    hide Formed, Written;
    SilentAreJams(t, b);
    assert Init(a + b) == a + Init(b) && Last(a + b) == Last(b);
    if IsJam(Last(b)) {
      assert forall x <- Init(b) :: x in b;
      WrittenCellsLast(t, b);
      assert Last(b) in b;
      CellCharacter(t, Last(b));
      EndsLater(t, a, Init(b));
    }
  }

  /** A steady cell that is all the text there is. */
  lemma SteadyEnds(t: Table, x: Cell, w: seq<TwoSetKey>)
    requires ProperTable(t) && Formed(t, x) && Steady(x) && (x.g.finals != [] && w != [] ==> w[0].Cho?)
    requires |CellText(t, x, w)| == 1
    ensures EndsJammed(Cells(t, x, w)) <==> IsJammed(x)
    ensures !IsJam(Last(Cells(t, x, w))) ==> |Cells(t, x, w)| == 1
  {
    hide Formed, Cells, EndsJammed, WrittenCells, IsJam, IsJammed, Steady;
    SteadyFirst(t, x, w);
    CellsCover(t, x, w);
    OnlyJamsFollow(t, Cells(t, x, w));
    SteadyKind(t, x);
    SteadyKind(t, Cells(t, x, w)[0]);
  }

  lemma OnlyJamsFollow(t: Table, xs: seq<Cell>)
    requires ProperTable(t) && (forall x <- xs :: Formed(t, x) && x != START) && xs != [] && Steady(xs[0])
    requires |WrittenCells(t, xs)| == 1
    ensures EndsJammed(xs) <==> IsJammed(xs[0])
    ensures !IsJam(Last(xs)) ==> |xs| == 1
  {
    hide Formed, EndsJammed, WrittenCells, IsJam, IsJammed, Steady;
    assert xs[0] in xs && forall y <- xs[1..] :: y in xs;
    OneShows(t, xs);
    SilentAreJams(t, xs[1..]);
    assert xs == [xs[0]] + xs[1..];
    EndsWithJams([xs[0]], xs[1..]);
    OneEnds(xs[0]);
    if |xs| > 1 {
      assert Last(xs) in xs[1..];
    }
  }

  /** When the first cell writes the only character, the cells after it write nothing. */
  lemma OneShows(t: Table, xs: seq<Cell>)
    requires ProperTable(t) && xs != [] && Formed(t, xs[0]) && Steady(xs[0]) && |WrittenCells(t, xs)| == 1
    ensures WrittenCells(t, xs[1..]) == ""
  {
    hide Formed, Written;
    SteadyKind(t, xs[0]);
    CellCharacter(t, xs[0]);
  }

  lemma SteadyKind(t: Table, x: Cell)
    requires Steady(x)
    ensures x != START && !IsJam(x) && (IsJammed(x) <==> x.early.Some?)
  {
  }

  lemma OneEnds(x: Cell)
    requires Steady(x)
    ensures EndsJammed([x]) <==> IsJammed(x)
  {
  }

  // ---------- the cut ----------

  /** Cutting the keys short keeps every decision that does not look past the cut. */
  lemma CutCells(t: Table, x: Cell, w: seq<TwoSetKey>, n: nat)
    requires 1 <= n <= |w| && (n == 1 && |w| > 1 && w[0].Cho? ==> w[1].Cho?)
    ensures w[..n][0] == w[0] && w[..n][1..] == w[1..][..n - 1]
    ensures NextCell(t, x, w[..n]) == NextCell(t, x, w)
    ensures BreaksCell(t, x, w[..n]) <==> BreaksCell(t, x, w)
  {
    hide FinalFits, CellVowelFits, MayClose;
  }

  /** The first `n` keys write all the characters but the last, and every longer proper
      prefix writes something else. */
  ghost predicate CutsLast(t: Table, x: Cell, w: seq<TwoSetKey>, n: nat) {
    && n <= |w| && CellText(t, x, w) != ""
    && CellText(t, x, w[..n]) == Init(CellText(t, x, w))
    && forall i | n < i < |w| :: CellText(t, x, w[..i]) != Init(CellText(t, x, w))
  }

  /** The keys from `n` on, typed afresh, give the last character unless that is a jammed
      syllable; they are the last cell's keys if that cell writes. */
  ghost predicate Replays(t: Table, x: Cell, w: seq<TwoSetKey>, n: nat)
    requires n <= |w| && CellText(t, x, w) != ""
  {
    var xs := Cells(t, x, w);
    && xs != []
    && (CellText(t, START, w[n..]) == [Last(CellText(t, x, w))] <==> !EndsJammed(xs))
    && (!IsJam(Last(xs)) && !EndsJammed(xs) ==> w[n..] == CellLetters(Last(xs)))
  }

  /** For every key sequence with two characters or more there is such a cut. */
  lemma {:induction false} CutAtLast(t: Table, x: Cell, w: seq<TwoSetKey>) returns (n: nat)
    requires NoInitialPairs(t) && ProperTable(t) && Progressing(t) && Formed(t, x)
    requires (x.g.finals != [] && w != [] ==> w[0].Cho?) && |CellText(t, x, w)| >= 2
    ensures CutsLast(t, x, w, n) && n < |w| && Replays(t, x, w, n)
    ensures n == 0 ==> BreaksCell(t, x, w)
    decreases |w|
  {
    hide Formed, NextCell, BreaksCell, Cells, Written, CellText, CutsLast, Replays;
    CellTextStep(t, x, w);
    if w == [] {
      TooShort(t, x);
    } else {
      var h, rest := NextCell(t, x, w), w[1..];
      if |CellText(t, h, rest)| >= 2 {
        var m := CutAtLast(t, h, rest);
        n := m + 1;
        PairStays(t, x, w, m);
        CutLater(t, x, w, n);
      } else {
        OneEach(t, x, w);
        if IsRefused(h) && |w| > 1 && w[1].Cho? {
          n := 2;
          CutAfterJam(t, x, w);
        } else {
          n := 0;
          CutBefore(t, x, w);
        }
      }
    }
  }

  lemma TooShort(t: Table, x: Cell)
    requires ProperTable(t) && Formed(t, x)
    ensures |CellText(t, x, [])| <= 1
  {
    hide Formed, Written;
    if x != START {
      CellCharacter(t, x);
      WrittenCell(t, x);
    }
  }

  /** Two characters, at most one of them after the first key: the key closes a cell that
      writes one, and the rest writes one. */
  lemma OneEach(t: Table, x: Cell, w: seq<TwoSetKey>)
    requires ProperTable(t) && Formed(t, x) && w != [] && (x.g.finals != [] ==> w[0].Cho?)
    requires |CellText(t, x, w)| >= 2 && |CellText(t, NextCell(t, x, w), w[1..])| < 2
    ensures BreaksCell(t, x, w) && x != START && |Written(t, Whole(x))| == 1
            && |CellText(t, NextCell(t, x, w), w[1..])| == 1
    ensures CellText(t, x, w) == Written(t, Whole(x)) + CellText(t, NextCell(t, x, w), w[1..])
  {
    hide Formed, NextCell, CellVowelFits, FinalFits, Cells, Written, CellText;
    CellTextStep(t, x, w);
    if x != START {
      CellCharacter(t, x);
    }
  }

  /** A consonant and the vowel after it are never cut apart. */
  lemma PairStays(t: Table, x: Cell, w: seq<TwoSetKey>, m: nat)
    requires w != [] && (m == 0 ==> w[1..] != [] && BreaksCell(t, NextCell(t, x, w), w[1..]))
    ensures m == 0 && |w| > 1 && w[0].Cho? ==> w[1].Cho?
  {
    hide FoldFinals, ToJong;
  }

  lemma CutLater(t: Table, x: Cell, w: seq<TwoSetKey>, n: nat)
    requires Formed(t, x) && w != [] && (x.g.finals != [] ==> w[0].Cho?) && ProperTable(t)
    requires 1 <= n < |w| && (n == 1 && |w| > 1 && w[0].Cho? ==> w[1].Cho?)
    requires CutsLast(t, NextCell(t, x, w), w[1..], n - 1) && Replays(t, NextCell(t, x, w), w[1..], n - 1)
    ensures CutsLast(t, x, w, n) && Replays(t, x, w, n)
  {
    hide Formed, NextCell, BreaksCell, Cells, Written, CellText, CellLetters;
    CellTextStep(t, x, w);
    var h, rest := NextCell(t, x, w), w[1..];
    var pre := if BreaksCell(t, x, w) then Written(t, Whole(x)) else "";
    var tail := CellText(t, h, rest);
    assert Init(pre + tail) == pre + Init(tail) && Last(pre + tail) == Last(tail);
    PrefixText(t, x, w, n);
    forall i | n < i < |w| ensures CellText(t, x, w[..i]) != pre + Init(tail) {
      PrefixText(t, x, w, i);
      assert CellText(t, h, rest[..i - 1]) != Init(tail);
      SamePrefix(pre, CellText(t, h, rest[..i - 1]), Init(tail));
    }
    assert w[1..][n - 1..] == w[n..];
    var before := if BreaksCell(t, x, w) then [x] else [];
    CellsCover(t, h, rest);
    TextIs(t, h, rest);
    EndsLater(t, before, Cells(t, h, rest));
    assert Last(before + Cells(t, h, rest)) == Last(Cells(t, h, rest));
  }

  /** The text of a prefix, from the text of the tail's prefix. */
  lemma PrefixText(t: Table, x: Cell, w: seq<TwoSetKey>, i: nat)
    requires Formed(t, x) && w != [] && (x.g.finals != [] ==> w[0].Cho?)
    requires 1 <= i <= |w| && (i == 1 && |w| > 1 && w[0].Cho? ==> w[1].Cho?)
    ensures CellText(t, x, w[..i]) == (if BreaksCell(t, x, w) then Written(t, Whole(x)) else "")
            + CellText(t, NextCell(t, x, w), w[1..][..i - 1])
  {
    hide Formed, NextCell, BreaksCell, Cells, Written, CellText;
    CutCells(t, x, w, i);
    CellTextStep(t, x, w[..i]);
  }

  /** A key that closes a cell opens one with just that key. */
  lemma OpensWith(t: Table, x: Cell, w: seq<TwoSetKey>)
    requires Formed(t, x) && w != [] && (x.g.finals != [] ==> w[0].Cho?) && BreaksCell(t, x, w)
    ensures CellLetters(NextCell(t, x, w)) == [w[0]] && NextCell(t, x, w).g.finals == []
    ensures IsRefused(NextCell(t, x, w)) || Steady(NextCell(t, x, w))
    ensures IsRefused(NextCell(t, x, w)) ==> w[0].Cho? && NextCell(t, x, w) == Cell(Some(w[0].cho), NOTHING)
    ensures !IsRefused(NextCell(t, x, w))
            ==> NextCell(t, x, w).early.None? && NextCell(t, START, w) == NextCell(t, x, w)
    ensures !BreaksCell(t, START, w)
  {
    hide FoldFinals, ToJong, CellLetters;
    CellStepLetters(t, x, w);
    if w[0].Jung? {
      assert [] + [w[0].jung] == [w[0].jung];
      SingleVowel(t, w[0].jung);
    }
  }

  /** The only decision a cut can change: a consonant whose vowel it removes becomes a final. */
  lemma CutSwallows(t: Table, x: Cell, w: seq<TwoSetKey>, i: nat)
    requires 0 < i < |w| && BreaksCell(t, x, w) && !BreaksCell(t, x, w[..i])
    ensures i == 1 && w[0].Cho? && FinalFits(t, Whole(x), w[0].cho)
    ensures NextCell(t, x, w[..i]) == x.(g := x.g.(finals := x.g.finals + [w[0].cho]))
  {
    hide FoldFinals, FoldVowels, ToJong;
  }

  /** Nothing is jammed: the cut is right before the key that opens the last character. */
  lemma CutBefore(t: Table, x: Cell, w: seq<TwoSetKey>)
    requires NoInitialPairs(t) && ProperTable(t) && Progressing(t) && Formed(t, x) && w != []
             && (x.g.finals != [] ==> w[0].Cho?)
    requires BreaksCell(t, x, w) && x != START && |Written(t, Whole(x))| == 1
    requires |CellText(t, NextCell(t, x, w), w[1..])| == 1
    requires !(IsRefused(NextCell(t, x, w)) && |w| > 1 && w[1].Cho?)
    ensures CutsLast(t, x, w, 0) && Replays(t, x, w, 0)
  {
    hide Formed, NextCell, BreaksCell, Cells, Written, CellText, CellLetters, EndsJammed;
    CellTextStep(t, x, w);
    CellTextStep(t, x, []);
    assert w[..0] == [] && w[0..] == w;
    var c, tail := Written(t, Whole(x)), CellText(t, NextCell(t, x, w), w[1..]);
    assert Init(c + tail) == c && Last(c + tail) == tail[0] && tail == [tail[0]];
    forall i | 0 < i < |w| ensures CellText(t, x, w[..i]) != c {
      LongerBefore(t, x, w, i);
    }
    ReplayBefore(t, x, w);
  }

  lemma LongerBefore(t: Table, x: Cell, w: seq<TwoSetKey>, i: nat)
    requires ProperTable(t) && Progressing(t) && Formed(t, x) && 0 < i < |w| && (x.g.finals != [] ==> w[0].Cho?)
    requires BreaksCell(t, x, w) && x != START && |Written(t, Whole(x))| == 1
    requires !(IsRefused(NextCell(t, x, w)) && |w| > 1 && w[1].Cho?)
    ensures CellText(t, x, w[..i]) != Written(t, Whole(x))
  {
    hide Formed, NextCell, BreaksCell, Cells, Written, CellText, CellLetters, FinalFits;
    var v := w[..i];
    CellTextStep(t, x, v);
    if BreaksCell(t, x, v) {
      OpensWith(t, x, v);
      OpensWith(t, x, w);
      RefusedAlike(t, x, w, i);
      OpenedText(t, NextCell(t, x, v), v[1..]);
    } else {
      CutSwallows(t, x, w, i);
      var h := x.(g := x.g.(finals := x.g.finals + [w[0].cho]));
      assert v[1..] == [];
      CellTextStep(t, h, []);
      SwallowedDiffers(t, x, w[0].cho);
    }
  }

  /** Whether a final is refused does not depend on what follows. */
  lemma RefusedAlike(t: Table, x: Cell, w: seq<TwoSetKey>, i: nat)
    requires 0 < i < |w| && BreaksCell(t, x, w) && BreaksCell(t, x, w[..i])
    ensures IsRefused(NextCell(t, x, w[..i])) ==> IsRefused(NextCell(t, x, w))
  {
    hide FoldFinals, FoldVowels, ToJong;
  }

  /** A cell just opened writes something, unless a consonant follows a refused final. */
  lemma OpenedText(t: Table, h: Cell, v: seq<TwoSetKey>)
    requires ProperTable(t) && Formed(t, h) && h != START && h.g.finals == []
    requires Steady(h) || (IsRefused(h) && h.g == NOTHING && (v == [] || v[0].Jung?))
    ensures CellText(t, h, v) != ""
  {
    hide Formed, NextCell, BreaksCell, Cells, Written, CellText;
    CellTextStep(t, h, v);
    CellCharacter(t, h);
    if Steady(h) {
      SteadyText(t, h, v);
    } else if v != [] {
      RefusedOpens(t, h, v);
      SteadyText(t, NextCell(t, h, v), v[1..]);
    }
  }

  lemma RefusedOpens(t: Table, h: Cell, v: seq<TwoSetKey>)
    requires v != [] && v[0].Jung? && IsRefused(h) && h.g == NOTHING
    ensures NextCell(t, h, v) == Cell(None, Group(h.early, [v[0].jung], [])) && Steady(NextCell(t, h, v))
    ensures !BreaksCell(t, h, v)
  {
  }

  lemma SwallowedDiffers(t: Table, x: Cell, c: Initial)
    requires ProperTable(t) && Progressing(t) && Formed(t, x) && FinalFits(t, Whole(x), c)
    ensures Written(t, Whole(x.(g := x.g.(finals := x.g.finals + [c])))) != Written(t, Whole(x))
  {
    hide FoldFinals, Written;
    assert Early(x) + (x.g.finals + [c]) == Whole(x).finals + [c];
    WholeFormed(t, x);
    FinalChangesCharacter(t, Whole(x), c);
  }

  lemma WholeFormed(t: Table, x: Cell)
    requires Formed(t, x) && x.g.initial.Some? && x.g.vowels != []
    ensures WellFormed(t, Whole(x))
  {
  }

  /** Typed afresh, the keys from the opening key on write the same. */
  lemma ReplayBefore(t: Table, x: Cell, w: seq<TwoSetKey>)
    requires NoInitialPairs(t) && ProperTable(t) && Formed(t, x) && w != [] && (x.g.finals != [] ==> w[0].Cho?)
    requires BreaksCell(t, x, w) && x != START && |CellText(t, NextCell(t, x, w), w[1..])| == 1
    requires !(IsRefused(NextCell(t, x, w)) && |w| > 1 && w[1].Cho?)
    ensures CellText(t, START, w) == CellText(t, NextCell(t, x, w), w[1..])
    ensures var xs := Cells(t, x, w);
            xs != [] && !EndsJammed(xs) && (!IsJam(Last(xs)) ==> w == CellLetters(Last(xs)))
  {
    hide Formed, NextCell, BreaksCell, Cells, Written, CellText, CellLetters, EndsJammed, IsJam;
    var h, rest := NextCell(t, x, w), w[1..];
    CellTextStep(t, x, w);
    StartFormed(t);
    CellTextStep(t, START, w);
    OpensWith(t, x, w);
    CellsCover(t, h, rest);
    var ys := Cells(t, h, rest);
    if IsRefused(h) {
      RefusedReplay(t, h, w);
    } else {
      SteadyEnds(t, h, rest);
    }
    TextIs(t, h, rest);
    EndsLater(t, [x], ys);
    assert Last([x] + ys) == Last(ys);
    if !IsJam(Last(ys)) {
      assert ys == [ys[0]];
      OneLetters(ys[0]);
      assert [w[0]] + rest == w;
    }
  }

  lemma StartFormed(t: Table)
    ensures Formed(t, START)
  {
  }

  lemma OneLetters(x: Cell)
    ensures CellsLetters([x]) == CellLetters(x)
  {
    hide CellLetters;
    assert CellsLetters([x][1..]) == [];
    assert CellLetters(x) + [] == CellLetters(x);
  }

  /** A refused final that is alone, or that a vowel follows, is an initial after all. */
  lemma RefusedReplay(t: Table, h: Cell, w: seq<TwoSetKey>)
    requires ProperTable(t) && Formed(t, h) && IsRefused(h) && w != [] && w[0].Cho?
             && h == Cell(Some(w[0].cho), NOTHING)
    requires (|w| == 1 || w[1].Jung?) && |CellText(t, h, w[1..])| == 1
    ensures CellText(t, START, w) == CellText(t, h, w[1..])
    ensures var ys := Cells(t, h, w[1..]);
            ys != [] && !EndsJammed(ys) && (!IsJam(Last(ys)) ==> |ys| == 1)
  {
    hide Formed, Cells, Written, CellText, FoldFinals, ToJong;
    var c, rest := w[0].cho, w[1..];
    var alone := Cell(None, Group(Some(c), [], []));
    StartFormed(t);
    CellTextStep(t, START, w);
    assert NextCell(t, START, w) == alone && !BreaksCell(t, START, w);
    CellTextStep(t, alone, rest);
    CellTextStep(t, h, rest);
    if rest == [] {
      LoneLooksAlike(t, c, h);
      assert [] + [] == alone.g.finals && Whole(alone) == alone.g;
      UnfoldCells(t, h, rest);
      RefusedEnds(h);
    } else {
      assert [] + [w[1].jung] == [w[1].jung] && rest[0] == w[1];
      SingleVowel(t, w[1].jung);
      RefusedOpens(t, h, rest);
      assert NextCell(t, alone, rest) == NextCell(t, h, rest) && !BreaksCell(t, alone, rest);
      SteadyEnds(t, NextCell(t, h, rest), rest[1..]);
      assert [] + Cells(t, NextCell(t, h, rest), rest[1..]) == Cells(t, NextCell(t, h, rest), rest[1..]);
      CellsCover(t, h, rest);
    }
  }

  lemma RefusedEnds(h: Cell)
    requires IsRefused(h) && h.g == NOTHING
    ensures !EndsJammed([h])
  {
  }

  lemma LoneLooksAlike(t: Table, c: Initial, h: Cell)
    requires ProperTable(t) && Formed(t, h) && h == Cell(Some(c), NOTHING)
    ensures Written(t, Group(Some(c), [], [])) == Written(t, Whole(h))
  {
    EarlyLifts(t, h);
    SingleFinal(t, c);
    LiftedFinalLooksAlike(c);
    assert Whole(h) == Group(None, [], [c]);
  }

  /** After a jam the cut is behind it: the keys of the jam write nothing. */
  lemma CutAfterJam(t: Table, x: Cell, w: seq<TwoSetKey>)
    requires NoInitialPairs(t) && ProperTable(t) && Formed(t, x) && |w| > 1 && (x.g.finals != [] ==> w[0].Cho?)
    requires BreaksCell(t, x, w) && x != START && |Written(t, Whole(x))| == 1
    requires |CellText(t, NextCell(t, x, w), w[1..])| == 1 && IsRefused(NextCell(t, x, w)) && w[1].Cho?
    ensures CutsLast(t, x, w, 2) && 2 < |w| && Replays(t, x, w, 2)
  {
    hide Formed, NextCell, BreaksCell, Cells, Written, CellText, CellLetters, EndsJammed, IsJam;
    var h, rest := NextCell(t, x, w), w[1..];
    CellTextStep(t, x, w);
    OpensWith(t, x, w);
    var jam := Cell(h.early, Group(Some(w[1].cho), [], []));
    JamStepFacts(t, h, rest);
    CellTextStep(t, h, rest);
    assert rest[1..] == w[2..];
    CellTextStep(t, jam, w[2..]);
    CellCharacter(t, jam);
    IsAJam(jam);
    var c, tail := Written(t, Whole(x)), CellText(t, jam, w[2..]);
    assert Init(c + tail) == c && Last(c + tail) == tail[0] && tail == [tail[0]];
    JamPrefix(t, x, w, 2);
    CellTextStep(t, jam, []);
    assert w[2..][..0] == [];
    forall i | 2 < i < |w| ensures CellText(t, x, w[..i]) != c {
      JamPrefix(t, x, w, i);
      JamGrows(t, jam, w[2..][..i - 2]);
    }
    ReplayAfterJam(t, x, w, jam);
  }

  lemma IsAJam(jam: Cell)
    requires jam.early.Some? && jam.g.initial.Some? && jam.g.vowels == []
    ensures IsJam(jam)
  {
  }

  lemma JamStepFacts(t: Table, h: Cell, v: seq<TwoSetKey>)
    requires v != [] && v[0].Cho? && IsRefused(h)
    ensures NextCell(t, h, v) == Cell(h.early, Group(Some(v[0].cho), [], [])) && !BreaksCell(t, h, v)
  {
  }

  /** The prefix that ends inside or right after a jam. */
  lemma JamPrefix(t: Table, x: Cell, w: seq<TwoSetKey>, i: nat)
    requires Formed(t, x) && 2 <= i <= |w| && (x.g.finals != [] ==> w[0].Cho?)
    requires BreaksCell(t, x, w) && IsRefused(NextCell(t, x, w)) && w[1].Cho?
    ensures CellText(t, x, w[..i])
         == Written(t, Whole(x))
           + CellText(t, Cell(NextCell(t, x, w).early, Group(Some(w[1].cho), [], [])), w[2..][..i - 2])
  {
    hide Formed, NextCell, BreaksCell, Cells, Written, CellText;
    var h, rest := NextCell(t, x, w), w[1..];
    CellTextStep(t, x, w);
    PrefixText(t, x, w, i);
    JamStepFacts(t, h, rest[..i - 1]);
    CellTextStep(t, h, rest[..i - 1]);
    assert rest[..i - 1][0] == w[1] && rest[..i - 1][1..] == w[2..][..i - 2];
    assert "" + CellText(t, NextCell(t, h, rest[..i - 1]), rest[..i - 1][1..])
      == CellText(t, NextCell(t, h, rest[..i - 1]), rest[..i - 1][1..]);
  }

  /** Whatever follows a jam writes something. */
  lemma JamGrows(t: Table, jam: Cell, v: seq<TwoSetKey>)
    requires ProperTable(t) && Formed(t, jam) && IsJam(jam) && jam.g.finals == [] && v != []
    ensures CellText(t, jam, v) != ""
  {
    hide Formed, Cells, Written, CellText, NextCell, BreaksCell;
    CellTextStep(t, jam, v);
    JamNext(t, jam, v);
    SteadyText(t, NextCell(t, jam, v), v[1..]);
  }

  lemma JamNext(t: Table, jam: Cell, v: seq<TwoSetKey>)
    requires IsJam(jam) && jam.g.finals == [] && v != []
    ensures var h := NextCell(t, jam, v);
            && Steady(h)
            && (v[0].Jung? ==> IsJammed(h) && !BreaksCell(t, jam, v))
            && (v[0].Cho? ==> h == Cell(None, Group(Some(v[0].cho), [], [])) && BreaksCell(t, jam, v))
  {
    hide FoldFinals, ToJong;
    if v[0].Jung? {
      SingleVowel(t, v[0].jung);
      assert [] + [v[0].jung] == [v[0].jung];
    }
  }

  /** A jam and one character more: the keys after the jam, typed afresh, give it exactly
      when no vowel has joined the jam. */
  lemma ReplayAfterJam(t: Table, x: Cell, w: seq<TwoSetKey>, jam: Cell)
    requires ProperTable(t) && |w| > 1
    requires Formed(t, jam) && IsJam(jam) && jam.g.finals == [] && jam != START
    requires Cells(t, x, w) == [x] + Cells(t, jam, w[2..]) && |CellText(t, jam, w[2..])| == 1
    ensures |w| > 2
    ensures var xs := Cells(t, x, w);
            && xs != [] && (CellText(t, START, w[2..]) == CellText(t, jam, w[2..]) <==> !EndsJammed(xs))
            && (!IsJam(Last(xs)) && !EndsJammed(xs) ==> w[2..] == CellLetters(Last(xs)))
  {
    hide Formed, Cells, Written, CellText, CellLetters, EndsJammed, IsJam;
    var v := w[2..];
    CellTextStep(t, jam, v);
    CellCharacter(t, jam);
    CellsCover(t, jam, v);
    TextIs(t, jam, v);
    EndsLater(t, [x], Cells(t, jam, v));
    assert Last([x] + Cells(t, jam, v)) == Last(Cells(t, jam, v));
    if v[0].Jung? {
      VowelAfterJam(t, jam, v);
    } else {
      ConsonantAfterJam(t, jam, v);
    }
  }

  lemma VowelAfterJam(t: Table, jam: Cell, v: seq<TwoSetKey>)
    requires ProperTable(t) && Formed(t, jam) && IsJam(jam) && jam.g.finals == [] && v != [] && v[0].Jung?
    requires |CellText(t, jam, v)| == 1
    ensures EndsJammed(Cells(t, jam, v)) && CellText(t, START, v) != CellText(t, jam, v)
  {
    hide Formed, Cells, Written, CellText, NextCell, BreaksCell, EndsJammed, IsJam;
    CellTextStep(t, jam, v);
    JamNext(t, jam, v);
    var h, rest := NextCell(t, jam, v), v[1..];
    assert [] + Cells(t, h, rest) == Cells(t, h, rest) && "" + CellText(t, h, rest) == CellText(t, h, rest);
    SteadyEnds(t, h, rest);
    SteadyText(t, h, rest);
    StartFormed(t);
    CellTextStep(t, START, v);
    VowelFirst(t, v);
    SteadyText(t, NextCell(t, START, v), rest);
    assert "" + CellText(t, NextCell(t, START, v), rest) == CellText(t, NextCell(t, START, v), rest);
  }

  lemma ConsonantAfterJam(t: Table, jam: Cell, v: seq<TwoSetKey>)
    requires ProperTable(t) && Formed(t, jam) && IsJam(jam) && jam.g.finals == [] && v != [] && v[0].Cho?
             && jam != START
    requires |CellText(t, jam, v)| == 1
    ensures var xs := Cells(t, jam, v);
            && xs != [] && !EndsJammed(xs) && CellText(t, START, v) == CellText(t, jam, v)
            && (!IsJam(Last(xs)) ==> v == CellLetters(Last(xs)))
  {
    hide Formed, Cells, Written, CellText, CellLetters, NextCell, BreaksCell, EndsJammed, IsJam, Steady;
    CellTextStep(t, jam, v);
    CellCharacter(t, jam);
    JamNext(t, jam, v);
    var h, rest := NextCell(t, jam, v), v[1..];
    StartFormed(t);
    CellTextStep(t, START, v);
    ConsonantFirst(t, v);
    assert "" + CellText(t, h, rest) == CellText(t, h, rest);
    AfterJam(t, jam, h, rest);
    CellStepLetters(t, jam, v);
    assert [v[0]] + rest == v;
  }

  /** The cells that a plain cell after a jam leads to, when they write one character. */
  lemma AfterJam(t: Table, jam: Cell, h: Cell, rest: seq<TwoSetKey>)
    requires ProperTable(t) && Formed(t, h) && Steady(h) && h.early.None? && h.g.finals == []
    requires |CellText(t, h, rest)| == 1
    ensures var ys := Cells(t, h, rest);
            && ys != [] && Last([jam] + ys) == Last(ys) && !EndsJammed([jam] + ys)
            && (!IsJam(Last(ys)) ==> CellLetters(Last(ys)) == CellLetters(h) + rest)
  {
    hide Formed, Cells, Written, CellText, CellLetters, EndsJammed, IsJam, IsJammed, WrittenCells;
    CellsCover(t, h, rest);
    TextIs(t, h, rest);
    var ys := Cells(t, h, rest);
    SteadyEnds(t, h, rest);
    EndsLater(t, [jam], ys);
    PlainIsNotJammed(h);
    if !IsJam(Last(ys)) {
      assert ys == [ys[0]];
      OneLetters(ys[0]);
    }
  }

  lemma PlainIsNotJammed(h: Cell)
    requires h.early.None?
    ensures !IsJammed(h)
  {
  }

  lemma VowelFirst(t: Table, v: seq<TwoSetKey>)
    requires v != [] && v[0].Jung?
    ensures var h := NextCell(t, START, v); Steady(h) && h.g.initial.None? && !BreaksCell(t, START, v)
  {
    SingleVowel(t, v[0].jung);
    assert [] + [v[0].jung] == [v[0].jung];
  }

  lemma ConsonantFirst(t: Table, v: seq<TwoSetKey>)
    requires v != [] && v[0].Cho?
    ensures NextCell(t, START, v) == Cell(None, Group(Some(v[0].cho), [], [])) && !BreaksCell(t, START, v)
  {
  }

  /** The keys of one group alone read as that group. */
  lemma ReadAlone(t: Table, g: Group, w: seq<TwoSetKey>)
    requires WellFormed(t, g) && g != NOTHING && w == Letters(g)
    ensures Parse(t, NOTHING, w) == Reading([g], true)
  {
    hide FoldVowels, FoldFinals, Parse;
    Unfold(t, g, []);
    if g.initial.Some? {
      var alone := Group(g.initial, [], []);
      assert w[1..] == VowelKeys(g.vowels) + InitialKeys(g.finals) + [];
      ReadGroup(t, g, w[1..], []);
      ConsonantStep(t, NOTHING, w);
      Kept(t, NOTHING, w);
    } else {
      assert w == VowelKeys(g.vowels) + InitialKeys(g.finals) + [];
      ReadGroup(t, g, w, []);
    }
  }
}
