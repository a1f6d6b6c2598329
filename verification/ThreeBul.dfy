/** The three-set composer (src/hangul/composer_with_3bul.rs): initials, vowels and finals
    on separate keys, optionally combined in either order. */
module ThreeBulComposer {
  import opened Wrappers
  import opened Jamo
  import opened Fold
  import opened Automaton
  import opened Composer

  class HangulComposer3Bul {
    const base: BaseHangulComposer
    const bidirectional: bool

    constructor (table: Table, bidirectionalCombine: bool)
      ensures base.Synced() && View() == FRESH && fresh(base)
      ensures base.combinedJamo == table && bidirectional == bidirectionalCombine
    {
      base := new BaseHangulComposer(table);
      bidirectional := bidirectionalCombine;
    }

    ghost function View(): State
      requires base.Synced()
      reads this, base
    {
      base.View()
    }

    /** Replace the last queued letter by the reversed combination with `jamo`, if the
        table has no forward one. */
    method CombineReversed(jamo: JamoEnum, meta: JamoMeta) returns (done: bool)
      requires base.Synced() && base.jamoQueue != [] && SameKind(jamo, Last(base.jamoQueue))
      modifies base
      ensures base.Synced()
      ensures done == Reversed(base.combinedJamo, old(View()), jamo).Some?
      ensures !done ==> View() == old(View())
      ensures done ==>
        var c := Reversed(base.combinedJamo, old(View()), jamo).value;
        View() == State(Init(old(View()).queue) + [Stroke(c, meta)], SetRegion(old(View()).cur, c))
    {
      assert Last(base.Strokes()).jamo == Last(base.jamoQueue);
      var existing := InRegion(base.current, jamo);
      if existing.None? || (existing.value, jamo) in base.combinedJamo {
        return false;
      }
      var combined := Combine(base.combinedJamo, jamo, existing.value);
      if combined.None? {
        return false;
      }
      var _ := base.PopBackSynced();
      base.PushBackSynced(combined.value, meta);
      base.current := SetRegion(base.current, combined.value);
      done := true;
    }

    method AddJamoWithMeta(jamo: JamoEnum, meta: JamoMeta) returns (out: Option<char>)
      requires base.Synced()
      modifies base
      ensures base.Synced()
      ensures Outcome(View(), out) == Add3(base.combinedJamo, bidirectional, old(View()), Stroke(jamo, meta))
    {
      hide AddWith;
      if jamo.Special? {
        assert AddWith(ThreeBul, base.combinedJamo, View(), Stroke(jamo, meta)) == Outcome(View(), None) by {
          SpecialIgnored(base.combinedJamo, View(), Stroke(jamo, meta));
        }
        return None;
      }
      if bidirectional && base.jamoQueue != [] && SameKind(jamo, Last(base.jamoQueue)) {
        var done := CombineReversed(jamo, meta);
        if done {
          return None;
        }
      } else if base.jamoQueue != [] {
        assert Last(base.Strokes()).jamo == Last(base.jamoQueue);
      }
      out := base.AddJamoWith(ThreeBul, jamo, meta);
    }

    method AddJamo(jamo: JamoEnum) returns (out: Option<char>)
      requires base.Synced()
      modifies base
      ensures base.Synced()
      ensures Outcome(View(), out) == Add3(base.combinedJamo, bidirectional, old(View()), Stroke(jamo, DEFAULT_META))
    {
      out := AddJamoWithMeta(jamo, DEFAULT_META);
    }
  }

  lemma SpecialIgnored(t: Table, st: State, s: Stroke)
    requires s.jamo.Special?
    ensures AddWith(ThreeBul, t, st, s) == Outcome(st, None)
  {
  }
}
