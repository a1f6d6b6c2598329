/** The composers as pure state transformers: what one key does to the queue and to the
    cached syllable, stale values included. The classes are proved equal to these. */
module Automaton {
  import opened Wrappers
  import opened Jamo
  import opened HangulChars
  import opened Fold

  /** The observable state of a composer. */
  datatype State = State(queue: seq<Stroke>, cur: HangulChar)

  const FRESH := State([], EMPTY)

  /** A key's effect: the next state and the character it completes. */
  datatype Outcome = Outcome(st: State, out: Option<char>)

  datatype Attempt = Attempt(ok: bool, cur: HangulChar)

  datatype Layout = TwoBul | ThreeBul

  /** The rules a queue of two or more letters may break, judged from its last two letters
      and from the cached syllable (cached before the last letter was folded in). */
  predicate Violates(lay: Layout, q: seq<Stroke>, cur: HangulChar) {
    && |q| > 1
    && var prev := q[|q| - 2].jamo;
       var last := q[|q| - 1].jamo;
       match lay
       case TwoBul =>
         || (prev.Jung? && last.Jong? && cur.cho.None?)
         || (prev.Jong? && last.Jung?)
         || (prev.Jung? && last.Cho? && cur.cho.None?)
       case ThreeBul =>
         || (prev.Cho? && last.Jong? && cur.jung.None?)
         || ((prev.Jung? || prev.Jong?) && last.Cho?)
         || (prev.Jong? && last.Jung?)
  }

  function Recompose(t: Table, st: State): Attempt {
    if st.queue == [] then Attempt(true, EMPTY)
    else Attempt(Folds(t, st.queue), Refold(t, st.queue, st.cur))
  }

  function TryCompose(lay: Layout, t: Table, st: State): Attempt {
    if st.queue == [] then Attempt(true, EMPTY)
    else if Violates(lay, st.queue, st.cur) then Attempt(false, st.cur)
    else Recompose(t, st)
  }

  /** Push a letter; if it does not compose, close the syllable and restart with the letter. */
  function AddWith(lay: Layout, t: Table, st: State, s: Stroke): Outcome {
    if s.jamo.Special? then Outcome(st, None)
    else
      var pushed := TryCompose(lay, t, State(st.queue + [s], st.cur));
      if pushed.ok then Outcome(State(st.queue + [s], pushed.cur), None)
      else
        var closed := TryCompose(lay, t, State(st.queue, pushed.cur));
        Outcome(State([s], TryCompose(lay, t, State([s], EMPTY)).cur), Render(closed.cur))
  }

  /** Close whatever is being composed. */
  function Force(t: Table, st: State): Outcome {
    if st.queue == [] then Outcome(st, None)
    else Outcome(FRESH, GetSyllable(Recompose(t, st).cur))
  }

  function Remove(t: Table, st: State): State {
    if st.queue == [] then st
    else
      var q := Init(st.queue);
      State(q, Recompose(t, State(q, st.cur)).cur)
  }

  // ---------- two-set keyboard ----------

  /** The final that an initial turns into because initial and vowel are already filled. */
  function FinalFor(st: State, j: JamoEnum): Option<Final> {
    if st.cur.cho.Some? && st.cur.jung.Some? && j.Cho? then ToJong(j.cho) else None
  }

  /** The final that a vowel will carry over to the next syllable. */
  function Carried(st: State, j: JamoEnum): Option<Final> {
    if st.queue != [] && Last(st.queue).jamo.Jong? && j.Jung? then Some(Last(st.queue).jamo.jong) else None
  }

  /** A key that no vowel-carrying rule intercepts. */
  function AddPlain2(t: Table, st: State, s: Stroke): Outcome {
    match FinalFor(st, s.jamo)
    case Some(f) => AddWith(TwoBul, t, st, Stroke(Jong(f), DEFAULT_META))
    case None => AddWith(TwoBul, t, st, s)
  }

  function Add2(t: Table, st: State, s: Stroke): Outcome {
    if s.jamo.Special? then Outcome(st, None)
    else if Carried(st, s.jamo).None? then AddPlain2(t, st, s)
    else
      var closed := Force(t, State(Init(st.queue), st.cur));
      match ToCho(Carried(st, s.jamo).value)
      case Some(c) =>
        var lifted := AddPlain2(t, closed.st, Stroke(Cho(c), DEFAULT_META)).st;
        Outcome(AddWith(TwoBul, t, lifted, Stroke(s.jamo, DEFAULT_META)).st, closed.out)
      case None => AddWith(TwoBul, t, closed.st, s)
  }

  /** With nothing or only a lone final queued, the cached syllable is not initial+vowel.
      The mutual recursion of the two-set composer terminates only because of this. */
  predicate Safe(st: State) {
    (|st.queue| == 0 || (|st.queue| == 1 && st.queue[0].jamo.Jong?)) ==> st.cur.cho.None? || st.cur.jung.None?
  }

  // ---------- three-set keyboard ----------

  function InRegion(h: HangulChar, j: JamoEnum): Option<JamoEnum> {
    match j
    case Cho(_) => (match h.cho case Some(c) => Some(Cho(c)) case None => None)
    case Jung(_) => (match h.jung case Some(v) => Some(Jung(v)) case None => None)
    case Jong(_) => (match h.jong case Some(f) => Some(Jong(f)) case None => None)
    case Special(_) => None
  }

  function SetRegion(h: HangulChar, j: JamoEnum): HangulChar {
    match j
    case Cho(c) => h.(cho := Some(c))
    case Jung(v) => h.(jung := Some(v))
    case Jong(f) => h.(jong := Some(f))
    case Special(_) => h
  }

  /** The reversed combination that the bidirectional option applies, if it applies. */
  function Reversed(t: Table, st: State, j: JamoEnum): (r: Option<JamoEnum>)
    ensures r.Some? ==> SameKind(r.value, j) && st.queue != [] && SameKind(j, Last(st.queue).jamo)
  {
    if st.queue == [] || !SameKind(j, Last(st.queue).jamo) then None
    else
      match InRegion(st.cur, j)
      case None => None
      case Some(e) => if (e, j) in t then None else Combine(t, j, e)
  }

  function Add3(t: Table, bidirectional: bool, st: State, s: Stroke): Outcome {
    if !s.jamo.Special? && bidirectional && Reversed(t, st, s.jamo).Some? then
      var c := Reversed(t, st, s.jamo).value;
      Outcome(State(Init(st.queue) + [Stroke(c, s.meta)], SetRegion(st.cur, c)), None)
    else AddWith(ThreeBul, t, st, s)
  }

  // ---------- either keyboard ----------

  datatype Config = Two(table: Table) | Three(table: Table, bidirectional: bool)

  function Add(cfg: Config, st: State, s: Stroke): Outcome {
    match cfg
    case Two(t) => Add2(t, st, s)
    case Three(t, b) => Add3(t, b, st, s)
  }

  /** Feeding letters one by one: the final state and everything committed on the way. */
  datatype Run = Run(st: State, text: string)

  function Feed(cfg: Config, st: State, ss: seq<Stroke>): Run
    decreases |ss|
  {
    hide Add;
    if ss == [] then Run(st, "")
    else
      var step := Add(cfg, st, ss[0]);
      var rest := Feed(cfg, step.st, ss[1..]);
      Run(rest.st, Emit(step.out) + rest.text)
  }

  /** Everything visible after feeding: committed text, then what a commit would add. */
  function TextOf(cfg: Config, st: State, ss: seq<Stroke>): string {
    var r := Feed(cfg, st, ss);
    r.text + Emit(Force(cfg.table, r.st).out)
  }

  lemma FeedAppend(cfg: Config, st: State, a: seq<Stroke>, b: seq<Stroke>)
    ensures var r := Feed(cfg, st, a);
            Feed(cfg, st, a + b) == Run(Feed(cfg, r.st, b).st, r.text + Feed(cfg, r.st, b).text)
    decreases |a|
  {
    hide Add;
    if a == [] {
      assert a + b == b;
    } else {
      assert (a + b)[1..] == a[1..] + b;
      FeedAppend(cfg, Add(cfg, st, a[0]).st, a[1..], b);
    }
  }

  lemma TextAppend(cfg: Config, st: State, a: seq<Stroke>, b: seq<Stroke>)
    ensures TextOf(cfg, st, a + b) == Feed(cfg, st, a).text + TextOf(cfg, Feed(cfg, st, a).st, b)
  {
    hide Add, Feed, Force;
    FeedAppend(cfg, st, a, b);
  }

  // ---------- the cache agrees with the queue ----------

  predicate Coherent(t: Table, st: State) {
    Folded(t, st.queue) == Some(st.cur)
  }

  lemma RecomposeSound(t: Table, q: seq<Stroke>, cur: HangulChar)
    requires Folded(t, q).Some?
    ensures Recompose(t, State(q, cur)) == Attempt(true, Folded(t, q).value)
  {
  }

  lemma RecomposeRejected(t: Table, q: seq<Stroke>, s: Stroke)
    requires Folded(t, q).Some? && Folded(t, q + [s]).None?
    ensures Recompose(t, State(q + [s], Folded(t, q).value)) == Attempt(false, Folded(t, q).value)
  {
    RejectedLetterIsHarmless(t, q, s);
  }

  /** In a coherent state the push-compose-restart loop is a decision on the queue alone:
      the letter stays when the longer queue breaks no rule and folds, else the syllable
      is closed as it stood and the letter starts the next one. */
  lemma AddWithCoherent(lay: Layout, t: Table, st: State, s: Stroke)
    requires Coherent(t, st) && !s.jamo.Special?
    ensures var r := AddWith(lay, t, st, s);
            && Coherent(t, r.st)
            && if !Violates(lay, st.queue + [s], st.cur) && Folded(t, st.queue + [s]).Some?
               then r.out == None && r.st.queue == st.queue + [s]
               else st.queue != [] && r.out == Render(st.cur) && r.st.queue == [s]
  {
    hide Recompose, Folded, Render, Absorb;
    var q := st.queue + [s];
    FoldedSingle(t, s);
    SingleFolds(t, s);
    RecomposeSound(t, [s], EMPTY);
    RecomposeSound(t, st.queue, st.cur);
    if st.queue == [] {
      assert q == [s];
    }
    if Folded(t, q).Some? {
      RecomposeSound(t, q, st.cur);
    } else {
      RecomposeRejected(t, st.queue, s);
    }
  }

  /** On neither keyboard a vowel joins a queue that ends in a final, whatever is cached. */
  lemma NoVowelAfterFinal(lay: Layout, t: Table, st: State, s: Stroke)
    requires st.queue != [] && Last(st.queue).jamo.Jong? && s.jamo.Jung?
    ensures !TryCompose(lay, t, State(st.queue + [s], st.cur)).ok && AddWith(lay, t, st, s).st.queue == [s]
  {
    hide Recompose, Render;
  }

  /** A further vowel after one that may not start a compound closes the syllable. */
  lemma SingleVowelCloses(lay: Layout, t: Table, st: State, s: Stroke)
    requires Coherent(t, st) && s.jamo.Jung?
    requires var ps := Phonemes(Medials, st.queue); ps != [] && !ps[0].meta.vowelCombineHead
    ensures var r := AddWith(lay, t, st, s); r.out == Render(st.cur) && r.st.queue == [s]
  {
    hide AddWith, Folded, Render, Violates, Phonemes;
    PhonemesSnoc(Medials, st.queue, s);
    FirstVowelDecides(t, st.queue + [s]);
    AddWithCoherent(lay, t, st, s);
  }

  lemma CoherentIsSafe(t: Table, st: State)
    requires Coherent(t, st)
    ensures Safe(st)
  {
  }

  lemma ForceCoherent(t: Table, st: State)
    requires Coherent(t, st)
    ensures Force(t, st).st == FRESH
    ensures st.queue != [] ==> Force(t, st).out == GetSyllable(st.cur)
    ensures Coherent(t, FRESH)
  {
    FoldedEmpty(t);
    if st.queue != [] {
      RefoldForgets(t, st.queue, st.cur);
    }
  }

  /** Taking back the last letter leaves the state that the shorter queue means. */
  lemma RemoveCoherent(t: Table, st: State)
    requires Coherent(t, st)
    ensures Coherent(t, Remove(t, st))
    ensures Remove(t, st).queue == if st.queue == [] then [] else Init(st.queue)
  {
    if st.queue != [] {
      FoldedPrefix(t, st.queue, |st.queue| - 1);
      if Init(st.queue) != [] {
        RefoldForgets(t, Init(st.queue), st.cur);
      }
    }
  }

  lemma AddPlain2Coherent(t: Table, st: State, s: Stroke)
    requires Coherent(t, st)
    ensures Coherent(t, AddPlain2(t, st, s).st)
  {
    if !s.jamo.Special? {
      match FinalFor(st, s.jamo) {
        case Some(f) => AddWithCoherent(TwoBul, t, st, Stroke(Jong(f), DEFAULT_META));
        case None => AddWithCoherent(TwoBul, t, st, s);
      }
    }
  }

  /** On an empty queue any letter starts a syllable, whatever the cache still holds. */
  lemma AddToEmptyQueue(lay: Layout, t: Table, cur: HangulChar, s: Stroke)
    requires !s.jamo.Special?
    ensures var r := AddWith(lay, t, State([], cur), s);
            Coherent(t, r.st) && r.st.queue == [s] && r.out == None
  {
    hide Recompose, Folded, Render, Absorb;
    assert [] + [s] == [s];
    SingleFolds(t, s);
    RecomposeSound(t, [s], cur);
  }

  /** Dropping the last final and closing the rest. */
  lemma ForceAfterPop(t: Table, st: State)
    requires Coherent(t, st) && st.queue != [] && Last(st.queue).jamo.Jong?
    ensures var q := Init(st.queue);
            var r := Force(t, State(q, st.cur));
            && Folded(t, q).Some?
            && r.st.queue == []
            && Safe(r.st)
            && r.out == if q == [] then None else GetSyllable(Folded(t, q).value)
  {
    hide Recompose, Folded, GetSyllable;
    var q := Init(st.queue);
    FoldedPrefix(t, st.queue, |q|);
    RecomposeSound(t, q, st.cur);
    CoherentIsSafe(t, st);
  }

  lemma PairFolds(t: Table, c: Initial, v: Medial)
    ensures Folded(t, [Stroke(Cho(c), DEFAULT_META), Stroke(Jung(v), DEFAULT_META)])
         == Some(HangulChar(Some(c), Some(v), None))
    ensures Folded(t, [Stroke(Cho(c), DEFAULT_META)]) == Some(HangulChar(Some(c), None, None))
  {
    hide Folded;
    var a, b := Stroke(Cho(c), DEFAULT_META), Stroke(Jung(v), DEFAULT_META);
    FoldedSingle(t, a);
    FoldedSnoc(t, [a], b);
    assert [a] + [b] == [a, b];
  }

  /** A vowel after a final: the syllable is closed without that final, which opens the
      next syllable together with the vowel. */
  lemma CarryCoherent(t: Table, st: State, s: Stroke)
    requires Coherent(t, st) && Carried(st, s.jamo).Some? && ToCho(Carried(st, s.jamo).value).Some?
    ensures var r := Add2(t, st, s);
            var c := ToCho(Carried(st, s.jamo).value).value;
            && Coherent(t, r.st)
            && r.st.queue == [Stroke(Cho(c), DEFAULT_META), Stroke(s.jamo, DEFAULT_META)]
            && r.st.cur == HangulChar(Some(c), Some(s.jamo.jung), None)
            && Folded(t, Init(st.queue)).Some?
            && r.out == if |st.queue| == 1 then None else GetSyllable(Folded(t, Init(st.queue)).value)
  {
    hide Force, AddWith, Folded, GetSyllable, ToCho;
    var c := ToCho(Carried(st, s.jamo).value).value;
    var a, b := Stroke(Cho(c), DEFAULT_META), Stroke(s.jamo, DEFAULT_META);
    var closed := Force(t, State(Init(st.queue), st.cur));
    ForceAfterPop(t, st);
    AddToEmptyQueue(TwoBul, t, closed.st.cur, a);
    PairFolds(t, c, s.jamo.jung);
    var lifted := AddWith(TwoBul, t, closed.st, a).st;
    assert AddPlain2(t, closed.st, a).st == lifted;
    AddWithCoherent(TwoBul, t, lifted, b);
    assert lifted.queue + [b] == [a, b];
    assert !Violates(TwoBul, [a, b], lifted.cur);
  }

  /** A carried final that cannot open a syllable is lost together with its syllable. */
  lemma LostCarry(t: Table, st: State, s: Stroke)
    requires Coherent(t, st) && Carried(st, s.jamo).Some? && ToCho(Carried(st, s.jamo).value).None?
    ensures var r := Add2(t, st, s);
            Coherent(t, r.st) && r.st.queue == [s] && r.out == None
  {
    hide Force, AddWith, Folded, ToCho;
    ForceAfterPop(t, st);
    AddToEmptyQueue(TwoBul, t, Force(t, State(Init(st.queue), st.cur)).st.cur, s);
  }

  /** The cached syllable agrees with the queue after every two-set key, and the state
      stays one in which the recursion terminates. */
  lemma Add2Coherent(t: Table, st: State, s: Stroke)
    requires Coherent(t, st)
    ensures Coherent(t, Add2(t, st, s).st) && Safe(Add2(t, st, s).st)
  {
    hide Folded, AddPlain2, AddWith, Force, ToCho;
    if s.jamo.Special? {
    } else if Carried(st, s.jamo).None? {
      AddPlain2Coherent(t, st, s);
    } else if ToCho(Carried(st, s.jamo).value).Some? {
      CarryCoherent(t, st, s);
    } else {
      LostCarry(t, st, s);
    }
    CoherentIsSafe(t, Add2(t, st, s).st);
  }
}
