/** Word mode holds a whole word in the composition line and takes keys back by replaying
    the others: it must show the same text as syllable mode, and undo must be exact. */
module WordMode {
  import opened Wrappers
  import opened HangulChars
  import opened Fold
  import opened Automaton
  import opened InputContext

  // ---------- word mode simulates syllable mode ----------

  datatype Op = Key(s: Stroke) | CommitNow | Separator(ch: char)

  function Exec(cfg: Config, x: Context, op: Op): Context {
    match op
    case Key(s) => Process(cfg, x, s)
    case CommitNow => Commit(cfg, x)
    case Separator(ch) => Append(cfg, x, ch)
  }

  function ExecAll(cfg: Config, x: Context, ops: seq<Op>): Context
    decreases |ops|
  {
    if ops == [] then x else Exec(cfg, ExecAll(cfg, x, Init(ops)), Last(ops))
  }

  /** A word-mode context and a syllable-mode context show the same thing. */
  predicate Alike(word: Context, syllable: Context) {
    && word.accumulateWord && !syllable.accumulateWord
    && word.st == syllable.st
    && word.preedit == syllable.preedit
    && word.committed + word.wordBuffer == syllable.committed
  }

  /** For every interleaving of keys, commits and separators the two modes show the same
      text, and right after a commit or a separator they have committed the same text. */
  lemma {:induction false} WordModeSimulates(cfg: Config, word: Context, syllable: Context, ops: seq<Op>)
    requires Alike(word, syllable)
    ensures var w := ExecAll(cfg, word, ops); var s := ExecAll(cfg, syllable, ops);
            && Alike(w, s)
            && (ops != [] ==> w.chordOrder == [] && s.chordOrder == [])
            && (ops != [] && !Last(ops).Key? ==> w.committed == s.committed && w.wordBuffer == "" && w.wordKeys == [])
  {
    hide Add, Force;
    if ops != [] {
      WordModeSimulates(cfg, word, syllable, Init(ops));
    }
  }

  /** Word mode can be entered at any moment: nothing that is shown changes. */
  lemma EnteringWordMode(x: Context)
    requires !x.accumulateWord && x.wordBuffer == ""
    ensures Alike(SetWord(x, true), x) && SetWord(x, true).chordOrder == x.chordOrder
  {
    assert x.committed + "" == x.committed;
  }

  /** Word mode can be left at any moment: the held word joins the committed text, and from
      then on the context is the syllable-mode one. */
  lemma LeavingWordMode(cfg: Config, word: Context, syllable: Context, ops: seq<Op>)
    requires Alike(word, syllable)
    ensures var w := SetWord(ExecAll(cfg, word, ops), false); var s := ExecAll(cfg, syllable, ops);
            && w.st == s.st && w.preedit == s.preedit && w.committed == s.committed
            && !w.accumulateWord && w.wordBuffer == "" && w.wordKeys == []
  {
    hide Exec;
    WordModeSimulates(cfg, word, syllable, ops);
  }

  // ---------- word mode undo ----------

  function ProcessAll(cfg: Config, x: Context, ss: seq<Stroke>): Context
    decreases |ss|
  {
    if ss == [] then x else Process(cfg, ProcessAll(cfg, x, Init(ss)), Last(ss))
  }

  function BackspaceTimes(cfg: Config, compose: ChordComposer, x: Context, m: nat): Context {
    if m == 0 then x else Backspace(cfg, compose, BackspaceTimes(cfg, compose, x, m - 1))
  }

  /** Word mode switched on while nothing is being composed. */
  predicate FreshWord(x: Context) {
    x.accumulateWord && x.st == FRESH && x.preedit == "" && x.chordOrder == [] && x.wordBuffer == "" && x.wordKeys == []
  }

  /** A word-mode context is what its recorded keys make of a fresh composer. */
  lemma {:induction false} RecordedKeysDecide(cfg: Config, x: Context, ss: seq<Stroke>, keys: seq<Stroke>)
    requires FreshWord(x)
    ensures RouteAll(cfg, x.(wordKeys := keys), ss) == ProcessAll(cfg, x, ss).(wordKeys := keys)
    ensures var y := ProcessAll(cfg, x, ss);
            y.wordKeys == ss && y.accumulateWord && y.chordOrder == [] && y.committed == x.committed
  {
    hide Add, Display;
    if ss != [] {
      RecordedKeysDecide(cfg, x, Init(ss), keys);
      assert Init(ss) + [Last(ss)] == ss;
    }
  }

  lemma UndoOne(cfg: Config, compose: ChordComposer, x: Context, ss: seq<Stroke>)
    requires FreshWord(x) && ss != []
    ensures Backspace(cfg, compose, ProcessAll(cfg, x, ss)) == ProcessAll(cfg, x, Init(ss))
  {
    hide Route;
    var y := ProcessAll(cfg, x, ss);
    RecordedKeysDecide(cfg, x, ss, []);
    RecordedKeysDecide(cfg, x, Init(ss), Init(ss));
    assert y.(wordKeys := Init(ss), st := FRESH, wordBuffer := "", preedit := "") == x.(wordKeys := Init(ss));
  }

  /** After n keys, m backspaces leave exactly what the first n - m keys alone leave: buffer,
      composition line, queue and cached syllable, across any syllable boundaries. */
  lemma {:induction false} WordModeUndo(cfg: Config, compose: ChordComposer, x: Context, ss: seq<Stroke>, m: nat)
    requires FreshWord(x) && m <= |ss|
    ensures BackspaceTimes(cfg, compose, ProcessAll(cfg, x, ss), m) == ProcessAll(cfg, x, ss[..|ss| - m])
  {
    hide Process, Backspace;
    if m == 0 {
      assert ss[..|ss|] == ss;
    } else {
      WordModeUndo(cfg, compose, x, ss, m - 1);
      UndoOne(cfg, compose, x, ss[..|ss| - m + 1]);
      assert Init(ss[..|ss| - m + 1]) == ss[..|ss| - m];
    }
  }
}
