/** The two-set composer (src/hangul/composer_with_2bul.rs): an initial after initial+vowel
    becomes a final, and a final before a vowel moves to the next syllable. */
module TwoBulComposer {
  import opened Wrappers
  import opened Jamo
  import opened HangulChars
  import opened Fold
  import opened Automaton
  import opened Composer

  /** Nesting depth still possible below a call that adds `j`. */
  function Depth(st: State, j: JamoEnum): nat {
    if j.Jung? && Carried(st, j).Some? then 2 else if j.Cho? then 1 else 0
  }

  /** Adding any letter leaves a state in which the recursion terminates. */
  lemma AddWithSafe(lay: Layout, t: Table, st: State, s: Stroke)
    requires !s.jamo.Special?
    ensures Safe(AddWith(lay, t, st, s).st)
    ensures st.queue == [] ==> AddWith(lay, t, st, s).st.queue == [s]
  {
    hide Recompose, Render, Folded;
    assert [] + [s] == [s];
    FoldedSingle(t, s);
    SingleFolds(t, s);
    RecomposeSound(t, [s], EMPTY);
    RecomposeSound(t, [s], st.cur);
  }

  lemma Add2Safe(t: Table, st: State, s: Stroke)
    requires Safe(st)
    ensures Safe(Add2(t, st, s).st)
  {
    hide AddWith, Force, Safe, ToCho;
    if !s.jamo.Special? {
      if Carried(st, s.jamo).None? {
        if FinalFor(st, s.jamo).Some? {
          AddWithSafe(TwoBul, t, st, Stroke(Jong(FinalFor(st, s.jamo).value), DEFAULT_META));
        } else {
          AddWithSafe(TwoBul, t, st, s);
        }
      } else {
        var closed := Force(t, State(Init(st.queue), st.cur));
        match ToCho(Carried(st, s.jamo).value) {
          case Some(c) =>
            AddWithSafe(TwoBul, t, AddPlain2(t, closed.st, Stroke(Cho(c), DEFAULT_META)).st,
              Stroke(s.jamo, DEFAULT_META));
          case None =>
            AddWithSafe(TwoBul, t, closed.st, s);
        }
      }
    }
  }

  /** After a carried final is popped and the rest is closed, the final opens a fresh queue. */
  lemma LiftedQueue(t: Table, st: State, c: Initial)
    requires Safe(st) && st.queue != [] && Last(st.queue).jamo.Jong?
    ensures var closed := Force(t, State(Init(st.queue), st.cur)).st;
            var a := Stroke(Cho(c), DEFAULT_META);
            && Safe(closed)
            && AddPlain2(t, closed, a) == AddWith(TwoBul, t, closed, a)
            && AddWith(TwoBul, t, closed, a).st.queue == [a]
  {
    hide AddWith, Recompose, GetSyllable;
    AddWithSafe(TwoBul, t, Force(t, State(Init(st.queue), st.cur)).st, Stroke(Cho(c), DEFAULT_META));
  }

  /** Every queued final can open a syllable again. */
  predicate Liftable(q: seq<Stroke>) {
    forall s <- q :: s.jamo.Jong? ==> ToCho(s.jamo.jong).Some?
  }

  lemma AddWithLiftable(t: Table, st: State, s: Stroke)
    requires Liftable(st.queue) && Liftable([s])
    ensures Liftable(AddWith(TwoBul, t, st, s).st.queue)
  {
  }

  /** An initial or a vowel keeps every queued final able to open a syllable. */
  lemma LiftableStep(t: Table, st: State, s: Stroke)
    requires Liftable(st.queue) && (s.jamo.Cho? || s.jamo.Jung?)
    ensures Liftable(Add2(t, st, s).st.queue)
    ensures Carried(st, s.jamo).Some? ==>
              Add2(t, st, s).out == Force(t, State(Init(st.queue), st.cur)).out
  {
    hide AddWith, Force, ToCho, ToJong;
    if Carried(st, s.jamo).Some? {
      assert Last(st.queue) in st.queue;
      var closed := Force(t, State(Init(st.queue), st.cur)).st;
      var c := ToCho(Carried(st, s.jamo).value).value;
      assert Liftable(closed.queue) by { ForcedQueue(t, State(Init(st.queue), st.cur)); }
      PlainLiftable(t, closed, Stroke(Cho(c), DEFAULT_META));
      AddWithLiftable(t, AddPlain2(t, closed, Stroke(Cho(c), DEFAULT_META)).st, Stroke(s.jamo, DEFAULT_META));
    } else {
      PlainLiftable(t, st, s);
    }
  }

  lemma ForcedQueue(t: Table, st: State)
    ensures Force(t, st).st.queue == []
  {
  }

  lemma PlainLiftable(t: Table, st: State, s: Stroke)
    requires Liftable(st.queue) && (s.jamo.Cho? || s.jamo.Jung?)
    ensures Liftable(AddPlain2(t, st, s).st.queue)
  {
    hide AddWith, ToCho;
    match FinalFor(st, s.jamo) {
      case Some(f) => AddWithLiftable(t, st, Stroke(Jong(f), DEFAULT_META));
      case None => AddWithLiftable(t, st, s);
    }
  }

  class HangulComposer2Bul {
    const base: BaseHangulComposer

    constructor (table: Table)
      ensures Valid() && View() == FRESH && base.combinedJamo == table && fresh(base)
    {
      base := new BaseHangulComposer(table);
    }

    ghost predicate Valid()
      reads this, base
    {
      base.Synced() && Safe(base.View())
    }

    ghost function View(): State
      requires base.Synced()
      reads this, base
    {
      base.View()
    }

    method HandleDokkaebiEffect(jamo: JamoEnum) returns (r: Option<Option<char>>)
      requires Valid()
      modifies base
      decreases Depth(View(), jamo), 0
      ensures Valid()
      ensures match Carried(old(View()), jamo)
              case None => r.None? && View() == old(View())
              case Some(f) =>
                var closed := Force(base.combinedJamo, State(Init(old(View()).queue), old(View()).cur));
                match ToCho(f)
                case None => r.None? && View() == closed.st
                case Some(_) =>
                  && r.Some?
                  && Outcome(View(), r.value) == Add2(base.combinedJamo, old(View()), Stroke(jamo, DEFAULT_META))
    {
      hide AddWith, Force, Safe, ToCho;
      if base.jamoQueue == [] || !Last(base.jamoQueue).Jong? || !jamo.Jung? {
        return None;
      }
      var jong := Last(base.jamoQueue).jong;
      ghost var start := View();
      assert Last(start.queue).jamo == Jong(jong);
      var _ := base.PopBackSynced();
      LiftedQueue(base.combinedJamo, start, 0);
      var completed := base.ForceComposeKorean();
      match ToCho(jong) {
        case None =>
          return None;
        case Some(newCho) =>
          LiftedQueue(base.combinedJamo, start, newCho);
          assert Safe(View());
          var _ := AddJamo(Cho(newCho));
          assert Carried(View(), jamo).None?;
          var _ := AddJamo(jamo);
          return Some(completed);
      }
    }

    method HandleChoAfterJung(jamo: JamoEnum) returns (r: Option<Option<char>>)
      requires Valid()
      modifies base
      decreases Depth(View(), jamo), 0
      ensures Valid()
      ensures match FinalFor(old(View()), jamo)
              case None => r.None? && View() == old(View())
              case Some(f) =>
                r.Some? && Outcome(View(), r.value)
                  == AddWith(TwoBul, base.combinedJamo, old(View()), Stroke(Jong(f), DEFAULT_META))
    {
      hide AddWith, Safe;
      if base.current.cho.Some? && base.current.jung.Some? && jamo.Cho? && ToJong(jamo.cho).Some? {
        var out := AddJamo(Jong(ToJong(jamo.cho).value));
        return Some(out);
      }
      r := None;
    }

    method AddJamo(jamo: JamoEnum) returns (out: Option<char>)
      requires Valid()
      modifies base
      decreases Depth(View(), jamo), 1
      ensures Valid()
      ensures Outcome(View(), out) == Add2(base.combinedJamo, old(View()), Stroke(jamo, DEFAULT_META))
    {
      hide AddWith, Force, Safe, ToCho;
      Add2Safe(base.combinedJamo, View(), Stroke(jamo, DEFAULT_META));
      if jamo.Special? {
        return None;
      }
      var converted := HandleChoAfterJung(jamo);
      if converted.Some? {
        return converted.value;
      }
      var carried := HandleDokkaebiEffect(jamo);
      if carried.Some? {
        return carried.value;
      }
      out := base.AddJamoWith(TwoBul, jamo, DEFAULT_META);
    }

    method AddJamoWithMeta(jamo: JamoEnum, meta: JamoMeta) returns (out: Option<char>)
      requires Valid()
      modifies base
      ensures Valid()
      ensures Outcome(View(), out) == Add2(base.combinedJamo, old(View()), Stroke(jamo, meta))
    {
      hide AddWith, Force, Safe, ToCho;
      Add2Safe(base.combinedJamo, View(), Stroke(jamo, meta));
      if jamo.Special? {
        return None;
      }
      var converted := HandleChoAfterJung(jamo);
      if converted.Some? {
        return converted.value;
      }
      var carried := HandleDokkaebiEffect(jamo);
      if carried.Some? {
        return carried.value;
      }
      out := base.AddJamoWith(TwoBul, jamo, meta);
    }
  }
}
