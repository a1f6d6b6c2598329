/** The input context (src/hangul/input_context.rs): a composer, what is shown and what is
    committed, with three ways to take a key back. */
module InputContext {
  import opened Wrappers
  import opened Jamo
  import opened HangulChars
  import opened Fold
  import opened Automaton
  import opened Composer
  import opened TwoBulComposer
  import opened ThreeBulComposer

  // ---------- the context as a value ----------

  /** Everything a context remembers between calls. */
  datatype Context = Context(
    st: State, preedit: string, committed: string, chordOrder: seq<JamoEnum>,
    accumulateWord: bool, wordBuffer: string, wordKeys: seq<Stroke>)

  const NEW := Context(FRESH, "", "", [], false, "", [])

  /** The letters a chord composes to, at most one per region; the chord composer itself
      is a parameter. None when the letters do not combine. */
  datatype Chord = Chord(cho: Option<Initial>, jung: Option<Medial>, jong: Option<Final>)
  type ChordComposer = seq<JamoEnum> -> Option<Chord>

  function LayoutOf(cfg: Config): Layout {
    if cfg.Two? then TwoBul else ThreeBul
  }

  function Shown(x: Context): Context {
    x.(preedit := Display(x.st.cur))
  }

  /** Compose one key; a completed character goes to the word or to the committed text. */
  function Route(cfg: Config, x: Context, s: Stroke): Context {
    var r := Add(cfg, x.st, s);
    Shown(if x.accumulateWord then x.(st := r.st, wordBuffer := x.wordBuffer + Emit(r.out))
          else x.(st := r.st, committed := x.committed + Emit(r.out)))
  }

  function RouteAll(cfg: Config, x: Context, ss: seq<Stroke>): Context
    decreases |ss|
  {
    hide Route;
    if ss == [] then x else Route(cfg, RouteAll(cfg, x, Init(ss)), Last(ss))
  }

  function Process(cfg: Config, x: Context, s: Stroke): Context {
    Route(cfg, x.(chordOrder := [], wordKeys := if x.accumulateWord then x.wordKeys + [s] else x.wordKeys), s)
  }

  function Commit(cfg: Config, x: Context): Context {
    var r := Force(cfg.table, x.st);
    if x.accumulateWord then
      x.(st := r.st, preedit := "", committed := x.committed + x.wordBuffer + Emit(r.out),
         chordOrder := [], wordBuffer := "", wordKeys := [])
    else
      x.(st := r.st, preedit := "", committed := x.committed + Emit(r.out), chordOrder := [])
  }

  function Append(cfg: Config, x: Context, ch: char): Context {
    var y := Commit(cfg, x);
    y.(committed := y.committed + [ch])
  }

  function ClearComposing(x: Context): Context {
    x.(st := FRESH, preedit := "", chordOrder := [], wordBuffer := "", wordKeys := [])
  }

  function SetWord(x: Context, on: bool): Context {
    if on then x.(accumulateWord := true)
    else x.(accumulateWord := false, committed := x.committed + x.wordBuffer, wordBuffer := "", wordKeys := [])
  }

  /** The queue a chord is injected as: one letter per region, initial first. */
  function ChordQueue(c: Chord): seq<Stroke> {
    (match c.cho case Some(i) => [Stroke(Cho(i), DEFAULT_META)] case None => []) +
    (match c.jung case Some(v) => [Stroke(Jung(v), DEFAULT_META)] case None => []) +
    (match c.jong case Some(f) => [Stroke(Jong(f), DEFAULT_META)] case None => [])
  }

  function Inject(cfg: Config, x: Context, c: Chord, order: seq<JamoEnum>): Context {
    if c == Chord(None, None, None) then x
    else
      var q := ChordQueue(c);
      Shown(x.(chordOrder := order, st := State(q, TryCompose(LayoutOf(cfg), cfg.table, State(q, EMPTY)).cur)))
  }

  /** Position of the last letter of a region. */
  function LastOf(k: Kind, order: seq<JamoEnum>): (r: Option<nat>)
    ensures r.Some? ==> r.value < |order| && IsKind(k, order[r.value])
    ensures r.Some? ==> forall i | r.value < i < |order| :: !IsKind(k, order[i])
    ensures r.None? ==> forall i | 0 <= i < |order| :: !IsKind(k, order[i])
  {
    if order == [] then None
    else if IsKind(k, Last(order)) then Some(|order| - 1)
    else LastOf(k, Init(order))
  }

  /** Which letter of a chord goes first: the latest final, else the latest vowel, else the
      latest initial. */
  function Victim(order: seq<JamoEnum>): (i: nat)
    requires order != []
    ensures i < |order|
  {
    match LastOf(Finals, order)
    case Some(i) => i
    case None =>
      match LastOf(Medials, order)
      case Some(i) => i
      case None =>
        match LastOf(Initials, order)
        case Some(i) => i
        case None => |order| - 1
  }

  function Without<T>(s: seq<T>, i: nat): seq<T>
    requires i < |s|
  {
    s[..i] + s[i + 1..]
  }

  function Backspace(cfg: Config, compose: ChordComposer, x: Context): Context {
    if x.accumulateWord && x.wordKeys != [] then
      var keys := Init(x.wordKeys);
      if keys == [] then ClearComposing(x)
      else RouteAll(cfg, x.(wordKeys := keys, st := FRESH, wordBuffer := "", preedit := ""), keys)
    else if x.chordOrder != [] then
      var order := Without(x.chordOrder, Victim(x.chordOrder));
      if order == [] then x.(chordOrder := [], st := FRESH, preedit := "")
      else
        match compose(order)
        case Some(c) =>
          var q := ChordQueue(c);
          Shown(x.(chordOrder := order,
                   st := State(q, TryCompose(LayoutOf(cfg), cfg.table, State(q, EMPTY)).cur)))
        case None => x.(chordOrder := [], st := FRESH, preedit := "")
    else if x.st.queue != [] then Shown(x.(st := Remove(cfg.table, x.st)))
    else if x.committed != "" then x.(committed := Init(x.committed))
    else x
  }

  // ---------- the context as an object ----------

  datatype BoxedComposer = TwoBox(two: HangulComposer2Bul) | ThreeBox(three: HangulComposer3Bul) {
    function Base(): BaseHangulComposer {
      match this case TwoBox(c) => c.base case ThreeBox(c) => c.base
    }

    function Config(): Config {
      match this
      case TwoBox(c) => Two(c.base.combinedJamo)
      case ThreeBox(c) => Three(c.base.combinedJamo, c.bidirectional)
    }
  }

  lemma RecomposedIsSafe(lay: Layout, t: Table, q: seq<Stroke>, cur: HangulChar)
    ensures |q| <= 1 ==> Safe(State(q, TryCompose(lay, t, State(q, cur)).cur))
    ensures |q| <= 1 ==> Safe(State(q, Recompose(t, State(q, cur)).cur))
    ensures |q| > 1 ==> forall h :: Safe(State(q, h))
  {
    hide Folded, Recompose;
    if |q| <= 1 {
      FoldedEmpty(t);
      if |q| == 1 {
        assert q == [q[0]];
        SingleFolds(t, q[0]);
      }
      RecomposeSound(t, q, cur);
      CoherentIsSafe(t, State(q, Folded(t, q).value));
    }
  }

  lemma TriedIsSafe(lay: Layout, t: Table, q: seq<Stroke>, cur: HangulChar)
    ensures Safe(State(q, TryCompose(lay, t, State(q, cur)).cur))
  {
  }

  lemma ForceIsSafe(t: Table, st: State)
    requires Safe(st)
    ensures Safe(Force(t, st).st)
  {
  }

  class HangulInputContext {
    const composer: BoxedComposer
    const compose: ChordComposer
    var preedit: string
    var committed: string
    var chordInputOrder: seq<JamoEnum>
    var accumulateWord: bool
    var wordBuffer: string
    var wordKeys: seq<Stroke>

    constructor (composer: BoxedComposer, compose: ChordComposer)
      requires composer.Base().Synced() && composer.Base().View() == FRESH
      ensures Valid() && View() == NEW && this.composer == composer && this.compose == compose
    {
      this.composer := composer;
      this.compose := compose;
      preedit, committed, chordInputOrder := "", "", [];
      accumulateWord, wordBuffer, wordKeys := false, "", [];
    }

    ghost predicate Valid()
      reads this, composer.Base()
    {
      composer.Base().Synced() && (composer.TwoBox? ==> Safe(composer.Base().View()))
    }

    ghost function View(): Context
      requires composer.Base().Synced()
      reads this, composer.Base()
    {
      Context(composer.Base().View(), preedit, committed, chordInputOrder, accumulateWord, wordBuffer, wordKeys)
    }

    method UpdatePreedit()
      requires Valid()
      modifies this`preedit
      ensures Valid() && View() == Shown(old(View()))
    {
      match GetSyllable(composer.Base().current) {
        case Some(ch) => preedit := [ch];
        case None => preedit := CompatString(composer.Base().current);
      }
    }

    /** Dispatch to the boxed composer. */
    method AddJamoWithMeta(jamo: JamoEnum, meta: JamoMeta) returns (out: Option<char>)
      requires Valid()
      modifies composer.Base()
      ensures Valid()
      ensures Outcome(composer.Base().View(), out)
              == Add(composer.Config(), old(composer.Base().View()), Stroke(jamo, meta))
    {
      hide Add2, Add3, Safe;
      match composer {
        case TwoBox(c) => out := c.AddJamoWithMeta(jamo, meta);
        case ThreeBox(c) => out := c.AddJamoWithMeta(jamo, meta);
      }
    }

    method ComposeAndRoute(jamo: JamoEnum, meta: JamoMeta)
      requires Valid()
      modifies this`preedit, this`committed, this`wordBuffer, composer.Base()
      ensures Valid() && View() == Route(composer.Config(), old(View()), Stroke(jamo, meta))
    {
      hide Add, Safe, Display;
      var out := AddJamoWithMeta(jamo, meta);
      if out.Some? {
        if accumulateWord {
          wordBuffer := wordBuffer + [out.value];
        } else {
          committed := committed + [out.value];
        }
      }
      UpdatePreedit();
    }

    method ProcessJamoWithMeta(jamo: JamoEnum, meta: JamoMeta)
      requires Valid()
      modifies this, composer.Base()
      ensures Valid() && View() == Process(composer.Config(), old(View()), Stroke(jamo, meta))
    {
      hide Route, Safe;
      chordInputOrder := [];
      if accumulateWord {
        wordKeys := wordKeys + [Stroke(jamo, meta)];
      }
      ComposeAndRoute(jamo, meta);
    }

    method CommitComposing()
      requires Valid()
      modifies this, composer.Base()
      ensures Valid() && View() == Commit(composer.Config(), old(View()))
    {
      hide Force;
      if composer.TwoBox? {
        ForceIsSafe(composer.Base().combinedJamo, composer.Base().View());
      }
      chordInputOrder := [];
      var c := composer.Base().ForceComposeKorean();
      if accumulateWord {
        if c.Some? {
          wordBuffer := wordBuffer + [c.value];
        }
        committed := committed + wordBuffer;
        wordBuffer, wordKeys, preedit := "", [], "";
        return;
      }
      if c.Some? {
        committed := committed + [c.value];
      }
      preedit := "";
    }

    method AppendToCommitted(ch: char)
      requires Valid()
      modifies this, composer.Base()
      ensures Valid() && View() == Append(composer.Config(), old(View()), ch)
    {
      hide Commit;
      CommitComposing();
      committed := committed + [ch];
    }

    method ClearComposingState()
      requires Valid()
      modifies this, composer.Base()
      ensures Valid() && View() == ClearComposing(old(View()))
    {
      chordInputOrder := [];
      composer.Base().ClearQueuesSynced();
      composer.Base().current := EMPTY;
      preedit, wordBuffer, wordKeys := "", "", [];
    }

    method SetAccumulateWord(on: bool)
      requires Valid()
      modifies this
      ensures Valid() && View() == SetWord(old(View()), on)
    {
      if !on {
        if wordBuffer != "" {
          committed := committed + wordBuffer;
          wordBuffer := "";
        }
        wordKeys := [];
      }
      accumulateWord := on;
    }

    /** Replace the queue by one letter per region. */
    method PushChord(c: Chord)
      requires Valid()
      modifies composer.Base()
      ensures composer.Base().Synced()
      ensures composer.Base().View() == State(ChordQueue(c), EMPTY)
    {
      var base := composer.Base();
      base.ClearQueuesSynced();
      base.current := EMPTY;
      if c.cho.Some? { base.PushBackSynced(Cho(c.cho.value), DEFAULT_META); }
      if c.jung.Some? { base.PushBackSynced(Jung(c.jung.value), DEFAULT_META); }
      if c.jong.Some? { base.PushBackSynced(Jong(c.jong.value), DEFAULT_META); }
      assert base.Strokes() == ChordQueue(c);
    }

    /** Rebuild the queue from one letter per region and recompose. */
    method LoadChord(c: Chord)
      requires Valid()
      modifies this`preedit, composer.Base()
      ensures Valid()
      ensures var q := ChordQueue(c); var cfg := composer.Config();
              View() == Shown(old(View()).(st := State(q, TryCompose(LayoutOf(cfg), cfg.table, State(q, EMPTY)).cur)))
    {
      hide TryCompose, Display, Safe, ChordQueue;
      PushChord(c);
      var _ := composer.Base().ComposeUnder(if composer.TwoBox? then TwoBul else ThreeBul);
      TriedIsSafe(LayoutOf(composer.Config()), composer.Base().combinedJamo, ChordQueue(c), EMPTY);
      UpdatePreedit();
    }

    method InjectChordSyllable(c: Chord, order: seq<JamoEnum>)
      requires Valid()
      modifies this, composer.Base()
      ensures Valid() && View() == Inject(composer.Config(), old(View()), c, order)
    {
      hide TryCompose, Display, Safe;
      if c.cho.None? && c.jung.None? && c.jong.None? {
        return;
      }
      chordInputOrder := order;
      LoadChord(c);
    }

    method BackspaceWord()
      requires Valid() && accumulateWord && wordKeys != []
      modifies this, composer.Base()
      ensures Valid() && View() == Backspace(composer.Config(), compose, old(View()))
    {
      hide Route, ClearComposing, Safe;
      ghost var start := View();
      wordKeys := Init(wordKeys);
      if wordKeys == [] {
        ClearedAlike(start);
        ClearComposingState();
        return;
      }
      var keys := wordKeys;
      composer.Base().ClearQueuesSynced();
      composer.Base().current := EMPTY;
      assert Safe(composer.Base().View()) by { RecomposedIsSafe(TwoBul, map[], [], EMPTY); }
      wordBuffer, preedit := "", "";
      ghost var emptied := View();
      for i := 0 to |keys|
        invariant Valid() && View() == RouteAll(composer.Config(), emptied, keys[..i])
      {
        assert Init(keys[..i + 1]) == keys[..i];
        ComposeAndRoute(keys[i].jamo, keys[i].meta);
      }
      assert keys[..|keys|] == keys;
    }

    method BackspaceChord()
      requires Valid() && chordInputOrder != [] && !(accumulateWord && wordKeys != [])
      modifies this, composer.Base()
      ensures Valid() && View() == Backspace(composer.Config(), compose, old(View()))
    {
      hide TryCompose, Display, ChordQueue, Safe;
      RecomposedIsSafe(TwoBul, map[], [], EMPTY);
      var i := Victim(chordInputOrder);
      chordInputOrder := chordInputOrder[..i] + chordInputOrder[i + 1..];
      if chordInputOrder != [] {
        match compose(chordInputOrder) {
          case Some(c) =>
            LoadChord(c);
            return;
          case None =>
            chordInputOrder := [];
        }
      }
      composer.Base().ClearQueuesSynced();
      composer.Base().current := EMPTY;
      preedit := "";
    }

    method BackspaceKey()
      requires Valid()
      modifies this, composer.Base()
      ensures Valid() && View() == Backspace(composer.Config(), compose, old(View()))
    {
      hide TryCompose, Recompose, Display, RouteAll, Safe;
      if accumulateWord && wordKeys != [] {
        BackspaceWord();
      } else if chordInputOrder != [] {
        BackspaceChord();
      } else if composer.Base().jamoQueue != [] {
        ghost var st := composer.Base().View();
        RecomposedIsSafe(TwoBul, composer.Base().combinedJamo, Init(st.queue), st.cur);
        var _ := composer.Base().RemoveJamo();
        assert Safe(composer.Base().View());
        UpdatePreedit();
      } else if committed != "" {
        committed := Init(committed);
      }
    }
  }

  lemma ClearedAlike(x: Context)
    requires x.wordKeys != []
    ensures ClearComposing(x.(wordKeys := Init(x.wordKeys))) == ClearComposing(x)
  {
  }
}
