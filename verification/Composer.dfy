/** The shared composer (src/hangul/composer.rs): two parallel queues and a cached syllable,
    updated in place. */
module Composer {
  import opened Wrappers
  import opened Jamo
  import opened HangulChars
  import opened Fold
  import opened Automaton

  /** Once a fold is stuck, further letters do not free it. */
  lemma {:induction false} StuckStays(t: Table, ps: seq<Stroke>, n: nat)
    requires n <= |ps| && FoldStrokes(t, ps[..n]).Stuck?
    ensures FoldStrokes(t, ps).Stuck?
  {
    if n < |ps| {
      assert Init(ps)[..n] == ps[..n];
      StuckStays(t, Init(ps), n);
    } else {
      assert ps[..n] == ps;
    }
  }

  /** The two parallel queues read as one. */
  function Zip(js: seq<JamoEnum>, ms: seq<JamoMeta>): (q: seq<Stroke>)
    requires |js| == |ms|
    ensures |q| == |js|
    ensures forall i | 0 <= i < |q| :: q[i] == Stroke(js[i], ms[i])
  {
    seq(|js|, i requires 0 <= i < |js| => Stroke(js[i], ms[i]))
  }

  class BaseHangulComposer {
    var jamoQueue: seq<JamoEnum>
    var metaQueue: seq<JamoMeta>
    var lastJamoQueue: seq<JamoEnum>
    var lastMetaQueue: seq<JamoMeta>
    const combinedJamo: Table
    var current: HangulChar

    constructor (table: Table)
      ensures Synced() && View() == FRESH && combinedJamo == table
    {
      jamoQueue, metaQueue := [], [];
      lastJamoQueue, lastMetaQueue := [], [];
      combinedJamo := table;
      current := EMPTY;
    }

    ghost predicate Synced()
      reads this`jamoQueue, this`metaQueue
    {
      |jamoQueue| == |metaQueue|
    }

    function Strokes(): seq<Stroke>
      requires Synced()
      reads this`jamoQueue, this`metaQueue
    {
      Zip(jamoQueue, metaQueue)
    }

    /** What later behaviour depends on: the backup queues are not part of it. */
    ghost function View(): State
      requires Synced()
      reads this
    {
      State(Strokes(), current)
    }

    method PushBackSynced(jamo: JamoEnum, meta: JamoMeta)
      requires Synced()
      modifies this`jamoQueue, this`metaQueue
      ensures Synced() && Strokes() == old(Strokes()) + [Stroke(jamo, meta)]
    {
      jamoQueue := jamoQueue + [jamo];
      metaQueue := metaQueue + [meta];
    }

    method PopBackSynced() returns (r: Option<Stroke>)
      requires Synced()
      modifies this`jamoQueue, this`metaQueue
      ensures Synced()
      ensures old(Strokes()) == [] ==> r.None? && Strokes() == []
      ensures old(Strokes()) != [] ==> r == Some(Last(old(Strokes()))) && Strokes() == Init(old(Strokes()))
    {
      if jamoQueue == [] {
        return None;
      }
      r := Some(Stroke(Last(jamoQueue), Last(metaQueue)));
      jamoQueue, metaQueue := Init(jamoQueue), Init(metaQueue);
    }

    method ClearQueuesSynced()
      modifies this`jamoQueue, this`metaQueue
      ensures Synced() && Strokes() == []
    {
      jamoQueue, metaQueue := [], [];
    }

    method BackupToLastSynced()
      requires Synced()
      modifies this`jamoQueue, this`metaQueue, this`lastJamoQueue, this`lastMetaQueue
      ensures Synced() && Strokes() == []
      ensures lastJamoQueue == old(jamoQueue) && lastMetaQueue == old(metaQueue)
    {
      lastJamoQueue, lastMetaQueue := jamoQueue, metaQueue;
      jamoQueue, metaQueue := [], [];
    }

    /** Left fold with early exit; a first vowel that may not start a compound refuses
        any second vowel. */
    method FoldPhonemes(ps: seq<Stroke>) returns (r: Option<JamoEnum>)
      requires ps != []
      ensures FoldStrokes(combinedJamo, ps) == match r case Some(j) => Combined(j) case None => Stuck
    {
      assert ps[..1] == [] + [ps[0]];
      FoldStrokesSnoc(combinedJamo, [], ps[0]);
      if |ps| > 1 && ps[0].jamo.Jung? && !ps[0].meta.vowelCombineHead {
        assert ps[..2] == ps[..1] + [ps[1]];
        FoldStrokesSnoc(combinedJamo, ps[..1], ps[1]);
        StuckStays(combinedJamo, ps, 2);
        return None;
      }
      var acc := ps[0].jamo;
      for i := 1 to |ps|
        invariant FoldStrokes(combinedJamo, ps[..i]) == Combined(acc)
        invariant acc.Jung? ==> ps[0].jamo.Jung?
      {
        assert ps[..i + 1] == ps[..i] + [ps[i]];
        FoldStrokesSnoc(combinedJamo, ps[..i], ps[i]);
        match Combine(combinedJamo, acc, ps[i].jamo) {
          case Some(next) =>
            acc := next;
          case None =>
            StuckStays(combinedJamo, ps, i + 1);
            return None;
        }
      }
      assert ps[..|ps|] == ps;
      r := Some(acc);
    }

    method ComposeCho() returns (ok: bool)
      requires Synced()
      modifies this`current
      ensures var r := FoldRegion(combinedJamo, Initials, Strokes());
              ok == !r.Stuck? && current == old(current).(cho := ChoOf(r, old(current).cho))
    {
      var phonemes := Phonemes(Initials, Strokes());
      FoldKeepsKind(combinedJamo, Initials, phonemes);
      if phonemes == [] {
        current := current.(cho := None);
        return true;
      }
      var r := FoldPhonemes(phonemes);
      if r.Some? {
        current := current.(cho := Some(r.value.cho));
      }
      ok := r.Some?;
    }

    method ComposeJung() returns (ok: bool)
      requires Synced()
      modifies this`current
      ensures var r := FoldRegion(combinedJamo, Medials, Strokes());
              ok == !r.Stuck? && current == old(current).(jung := JungOf(r, old(current).jung))
    {
      var phonemes := Phonemes(Medials, Strokes());
      FoldKeepsKind(combinedJamo, Medials, phonemes);
      if phonemes == [] {
        current := current.(jung := None);
        return true;
      }
      var r := FoldPhonemes(phonemes);
      if r.Some? {
        current := current.(jung := Some(r.value.jung));
      }
      ok := r.Some?;
    }

    method ComposeJong() returns (ok: bool)
      requires Synced()
      modifies this`current
      ensures var r := FoldRegion(combinedJamo, Finals, Strokes());
              ok == !r.Stuck? && current == old(current).(jong := JongOf(r, old(current).jong))
    {
      var phonemes := Phonemes(Finals, Strokes());
      FoldKeepsKind(combinedJamo, Finals, phonemes);
      if phonemes == [] {
        current := current.(jong := None);
        return true;
      }
      var r := FoldPhonemes(phonemes);
      if r.Some? {
        current := current.(jong := Some(r.value.jong));
      }
      ok := r.Some?;
    }

    /** Recompute the cached syllable from the queue. All three regions are always folded,
        also when an earlier one has failed. */
    method ComposeKorean() returns (ok: bool)
      requires Synced()
      modifies this`current
      ensures Attempt(ok, current) == Recompose(combinedJamo, old(View()))
    {
      if jamoQueue == [] {
        current := EMPTY;
        return true;
      }
      var choOk := ComposeCho();
      var jungOk := ComposeJung();
      var jongOk := ComposeJong();
      ok := choOk && jungOk && jongOk;
    }

    method CheckViolation(lay: Layout) returns (violated: bool)
      requires Synced()
      ensures violated == Violates(lay, Strokes(), current)
    {
      var n := |jamoQueue|;
      if n < 2 {
        return false;
      }
      var prev, last := jamoQueue[n - 2], jamoQueue[n - 1];
      match lay {
        case TwoBul =>
          if prev.Jung? && last.Jong? && current.cho.None? { return true; }
          if prev.Jong? && last.Jung? { return true; }
          violated := prev.Jung? && last.Cho? && current.cho.None?;
        case ThreeBul =>
          if last.Jong? && current.jung.None? && prev.Cho? { return true; }
          if (prev.Jung? || prev.Jong?) && last.Cho? { return true; }
          violated := prev.Jong? && last.Jung?;
      }
    }

    /** The closure each keyboard hands to AddJamoWith. */
    method ComposeUnder(lay: Layout) returns (ok: bool)
      requires Synced()
      modifies this`current
      ensures Attempt(ok, current) == TryCompose(lay, combinedJamo, old(View()))
    {
      if jamoQueue == [] {
        current := EMPTY;
        return true;
      }
      var violated := CheckViolation(lay);
      if violated {
        return false;
      }
      ok := ComposeKorean();
    }

    method AddJamoWith(lay: Layout, jamo: JamoEnum, meta: JamoMeta) returns (out: Option<char>)
      requires Synced()
      modifies this
      ensures Synced()
      ensures Outcome(View(), out) == AddWith(lay, combinedJamo, old(View()), Stroke(jamo, meta))
    {
      hide TryCompose, Render;
      if jamo.Special? {
        return None;
      }
      PushBackSynced(jamo, meta);
      var ok := ComposeUnder(lay);
      if ok {
        return None;
      }
      var _ := PopBackSynced();
      var _ := ComposeUnder(lay);
      out := Render(current);
      BackupToLastSynced();
      PushBackSynced(jamo, meta);
      current := EMPTY;
      assert Strokes() == [Stroke(jamo, meta)];
      var _ := ComposeUnder(lay);
    }

    method RemoveJamo() returns (r: Option<JamoEnum>)
      requires Synced()
      modifies this
      ensures Synced() && View() == Remove(combinedJamo, old(View()))
      ensures r == if old(Strokes()) == [] then None else Some(Last(old(Strokes())).jamo)
    {
      hide Recompose;
      if jamoQueue == [] {
        return None;
      }
      var popped := PopBackSynced();
      var _ := ComposeKorean();
      r := Some(popped.value.jamo);
    }

    method ForceComposeKorean() returns (out: Option<char>)
      requires Synced()
      modifies this
      ensures Synced() && Outcome(View(), out) == Force(combinedJamo, old(View()))
    {
      hide Recompose, GetSyllable;
      if jamoQueue == [] {
        return None;
      }
      var _ := ComposeKorean();
      out := GetSyllable(current);
      current := EMPTY;
      ClearQueuesSynced();
      lastJamoQueue, lastMetaQueue := [], [];
    }
  }
}
