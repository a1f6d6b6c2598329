/** Converting keystrokes typed in the wrong mode (src/typefix.rs). */
module TypeFix {
  import opened Wrappers
  import opened Jamo
  import opened HangulChars
  import opened Fold
  import opened Automaton
  import opened TwoBulComposer
  import opened ThreeBulComposer
  import opened InputContext

  type Keyboard = map<char, JamoEnum>

  function TypeChar(cfg: Config, km: Keyboard, x: Context, ch: char): Context {
    if ch in km then Process(cfg, x, Stroke(km[ch], DEFAULT_META))
    else Append(cfg, Commit(cfg, x), ch)
  }

  function TypeAll(cfg: Config, km: Keyboard, x: Context, text: string): Context
    decreases |text|
  {
    hide TypeChar;
    if text == "" then x else TypeChar(cfg, km, TypeAll(cfg, km, x, Init(text)), Last(text))
  }

  /** The Korean text that the keystrokes `text` make. */
  function Converted(cfg: Config, km: Keyboard, text: string): string {
    Commit(cfg, TypeAll(cfg, km, NEW, text)).committed
  }

  /** The conversion loop over a fresh context of the layout's kind. */
  method EngToKor(cfg: Config, km: Keyboard, text: string) returns (korean: string)
    ensures korean == Converted(cfg, km, text)
  {
    hide Commit, Append, Process;
    var boxed: BoxedComposer;
    match cfg {
      case Two(t) =>
        var c := new HangulComposer2Bul(t);
        boxed := TwoBox(c);
      case Three(t, b) =>
        var c := new HangulComposer3Bul(t, b);
        boxed := ThreeBox(c);
    }
    assert boxed.Config() == cfg;
    var context := new HangulInputContext(boxed, _ => None);
    for i := 0 to |text|
      invariant context.Valid() && context.composer == boxed && fresh(context) && fresh(boxed.Base())
      invariant context.View() == TypeAll(cfg, km, NEW, text[..i])
    {
      assert Init(text[..i + 1]) == text[..i];
      if text[i] in km {
        context.ProcessJamoWithMeta(km[text[i]], DEFAULT_META);
      } else {
        context.CommitComposing();
        context.AppendToCommitted(text[i]);
      }
    }
    assert text[..|text|] == text;
    context.CommitComposing();
    korean := context.committed;
  }

  // ---------- separators ----------

  /** In syllable mode, with no chord and nothing stale in the cache. */
  predicate Plain(x: Context) {
    && !x.accumulateWord && x.chordOrder == [] && x.wordBuffer == "" && x.wordKeys == []
    && (x.st.queue == [] ==> x.st == FRESH)
  }

  lemma AddNeverEmpties(cfg: Config, st: State, s: Stroke)
    requires st.queue == [] ==> st == FRESH
    ensures var r := Add(cfg, st, s).st; r.queue == [] ==> r == FRESH
  {
    hide TryCompose, Render, Force, ToCho, ToJong;
  }

  lemma TypeCharPlain(cfg: Config, km: Keyboard, x: Context, ch: char)
    requires Plain(x)
    ensures Plain(TypeChar(cfg, km, x, ch))
    ensures ch !in km ==> TypeChar(cfg, km, x, ch).st == FRESH && TypeChar(cfg, km, x, ch).preedit == ""
  {
    hide Add, Recompose, Display, GetSyllable;
    if ch in km {
      AddNeverEmpties(cfg, x.st, Stroke(km[ch], DEFAULT_META));
    }
  }

  lemma {:induction false} TypeAllPlain(cfg: Config, km: Keyboard, x: Context, text: string)
    requires Plain(x)
    ensures Plain(TypeAll(cfg, km, x, text))
  {
    hide TypeChar;
    if text != "" {
      TypeAllPlain(cfg, km, x, Init(text));
      TypeCharPlain(cfg, km, TypeAll(cfg, km, x, Init(text)), Last(text));
    }
  }

  /** Text already committed does not influence what follows. */
  lemma {:induction false} TypeAllShift(cfg: Config, km: Keyboard, x: Context, pre: string, text: string)
    requires Plain(x)
    ensures TypeAll(cfg, km, x.(committed := pre + x.committed), text)
         == (var y := TypeAll(cfg, km, x, text); y.(committed := pre + y.committed))
  {
    hide TypeChar, Plain;
    if text != "" {
      TypeAllShift(cfg, km, x, pre, Init(text));
      TypeAllPlain(cfg, km, x, Init(text));
      TypeCharShift(cfg, km, TypeAll(cfg, km, x, Init(text)), pre, Last(text));
    }
  }

  lemma TypeCharShift(cfg: Config, km: Keyboard, x: Context, pre: string, ch: char)
    requires Plain(x)
    ensures TypeChar(cfg, km, x.(committed := pre + x.committed), ch)
         == (var y := TypeChar(cfg, km, x, ch); y.(committed := pre + y.committed))
  {
    hide Add, Force, Display;
    if ch in km {
      var out := Emit(Add(cfg, x.st, Stroke(km[ch], DEFAULT_META)).out);
      assert pre + x.committed + out == pre + (x.committed + out);
    } else {
      var a := Emit(Force(cfg.table, x.st).out);
      var b := Emit(Force(cfg.table, Force(cfg.table, x.st).st).out);
      assert pre + x.committed + a + b + [ch] == pre + (x.committed + a + b + [ch]);
    }
  }

  lemma {:induction false} TypeAllAppend(cfg: Config, km: Keyboard, x: Context, a: string, b: string)
    ensures TypeAll(cfg, km, x, a + b) == TypeAll(cfg, km, TypeAll(cfg, km, x, a), b)
  {
    hide TypeChar;
    if b == "" {
      assert a + b == a;
    } else {
      assert Init(a + b) == a + Init(b);
      TypeAllAppend(cfg, km, x, a, Init(b));
    }
  }

  /** A character that is no key cuts composition: the text before it and the text after it
      convert independently. */
  lemma SeparatorsCut(cfg: Config, km: Keyboard, x: string, u: char, y: string)
    requires u !in km
    ensures Converted(cfg, km, x + [u] + y) == Converted(cfg, km, x) + [u] + Converted(cfg, km, y)
  {
    hide Force, TypeAll, Display;
    var before := TypeAll(cfg, km, NEW, x);
    TypeAllPlain(cfg, km, NEW, x);
    TypeAllAppend(cfg, km, NEW, x + [u], y);
    TypeAllAppend(cfg, km, NEW, x, [u]);
    OneChar(cfg, km, before, u);
    TypeCharPlain(cfg, km, before, u);
    var cut := TypeChar(cfg, km, before, u);
    AfterSeparator(cfg, km, before, u);
    var pre := Converted(cfg, km, x) + [u];
    assert pre + "" == pre;
    assert cut == NEW.(committed := pre + NEW.committed);
    TypeAllShift(cfg, km, NEW, pre, y);
    TypeAllPlain(cfg, km, NEW, y);
    CommitShift(cfg, TypeAll(cfg, km, NEW, y), pre);
  }

  lemma OneChar(cfg: Config, km: Keyboard, x: Context, u: char)
    ensures TypeAll(cfg, km, x, [u]) == TypeChar(cfg, km, x, u)
  {
  }

  lemma AfterSeparator(cfg: Config, km: Keyboard, x: Context, u: char)
    requires Plain(x) && u !in km
    ensures TypeChar(cfg, km, x, u) == NEW.(committed := Commit(cfg, x).committed + [u])
  {
    hide Recompose, GetSyllable;
  }

  lemma CommitShift(cfg: Config, x: Context, pre: string)
    requires Plain(x)
    ensures Commit(cfg, x.(committed := pre + x.committed)).committed == pre + Commit(cfg, x).committed
  {
  }
}
