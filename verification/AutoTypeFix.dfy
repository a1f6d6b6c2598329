/** Correcting Korean typed in English mode: commit all but the last character, replay the
    keys of the last one (src/auto_typefix/buffer.rs, src/auto_typefix/forward.rs). */
module AutoTypeFix {
  import opened Wrappers
  import opened Jamo
  import opened HangulChars
  import opened Fold
  import opened Automaton
  import opened TwoBulParser
  import opened TwoBulText
  import opened TypeFix
  import opened RoundTrip
  import opened TotalReading
  import opened SplitPoint
  import opened Tables

  datatype KeystrokeEntry = KeystrokeEntry(keycode: nat, shift: bool, timestamp: int)

  /** The English layout: which character a key gives, if any. */
  type EnglishLayout = (nat, bool) -> Option<char>

  /** The characters of the entries, in order; entries without one are skipped. */
  function Ascii(layout: EnglishLayout, es: seq<KeystrokeEntry>): string {
    if es == [] then "" else Ascii(layout, Init(es)) + Emit(layout(Last(es).keycode, Last(es).shift))
  }

  /** Entries from the first one that is still within the window. */
  function Recent(es: seq<KeystrokeEntry>, now: int, window: nat): seq<KeystrokeEntry> {
    if es != [] && now - es[0].timestamp > window then Recent(es[1..], now, window) else es
  }

  /** What is dropped is a prefix of expired entries, up to the first one in the window. */
  lemma {:induction false} RecentIs(es: seq<KeystrokeEntry>, now: int, window: nat) returns (k: nat)
    ensures k <= |es| && Recent(es, now, window) == es[k..]
    ensures forall i | 0 <= i < k :: now - es[i].timestamp > window
    ensures k < |es| ==> now - es[k].timestamp <= window
  {
    k := 0;
    if es != [] && now - es[0].timestamp > window {
      var rest := RecentIs(es[1..], now, window);
      k := rest + 1;
      assert es[1..][rest..] == es[k..];
      assert forall i | 1 <= i < |es| :: es[i] == es[1..][i - 1];
    }
  }

  class KeystrokeBuffer {
    var entries: seq<KeystrokeEntry>
    var committedChars: nat
    var hasPreedit: bool
    var wordMode: bool

    constructor ()
      ensures entries == [] && committedChars == 0 && !hasPreedit && !wordMode
    {
      entries, committedChars, hasPreedit, wordMode := [], 0, false, false;
    }

    /** Only character keys other than space are recorded. */
    method Push(e: KeystrokeEntry, isCharacterKey: bool, isSpace: bool) returns (pushed: bool)
      modifies this`entries
      ensures pushed == (isCharacterKey && !isSpace)
      ensures entries == if pushed then old(entries) + [e] else old(entries)
    {
      if !isCharacterKey || isSpace {
        return false;
      }
      entries := entries + [e];
      pushed := true;
    }

    method Clear()
      modifies this
      ensures entries == [] && committedChars == 0 && !hasPreedit && !wordMode
    {
      entries, committedChars, hasPreedit, wordMode := [], 0, false, false;
    }

    method PopLast() returns (popped: bool)
      modifies this`entries
      ensures popped == (old(entries) != [])
      ensures entries == if popped then Init(old(entries)) else []
    {
      popped := entries != [];
      if popped {
        entries := Init(entries);
      }
    }

    /** Drop the expired entries at the front; stop at the first one in the window. */
    method Expire(now: int, window: nat)
      modifies this`entries
      ensures entries == Recent(old(entries), now, window)
    {
      while entries != [] && now - entries[0].timestamp > window
        invariant Recent(entries, now, window) == Recent(old(entries), now, window)
        decreases |entries|
      {
        entries := entries[1..];
      }
    }

    method ToAsciiString(layout: EnglishLayout) returns (s: string)
      ensures s == Ascii(layout, entries)
    {
      s := "";
      for i := 0 to |entries|
        invariant s == Ascii(layout, entries[..i])
      {
        assert Init(entries[..i + 1]) == entries[..i];
        match layout(entries[i].keycode, entries[i].shift) {
          case Some(c) => s := s + [c];
          case None =>
        }
      }
      assert entries[..|entries|] == entries;
    }
  }

  datatype Correction = Correction(
    deleteChars: nat, commitText: string, corrected: string, original: string,
    replay: seq<KeystrokeEntry>, replaceComposition: bool)

  /** What the check answers. Taking the last character off an empty text stops the program. */
  datatype Verdict = Nothing | Correct(correction: Correction) | Crash

  datatype Settings = Settings(forward: bool, threshold: nat)

  function CountSyllables(s: string): nat {
    if s == "" then 0 else CountSyllables(Init(s)) + (if IsSyllable(Last(s)) then 1 else 0)
  }

  /** The places of the text that hold a precomposed syllable. */
  ghost function Places(s: string): set<int> {
    set i | 0 <= i < |s| && '\U{AC00}' <= s[i] <= '\U{D7A3}'
  }

  lemma PlacesSnoc(s: string, ch: char)
    ensures Places(s + [ch]) == Places(s) + (if IsSyllable(ch) then {|s|} else {})
    ensures |s| !in Places(s)
  {
  }

  /** The count is the number of such places. */
  lemma {:induction false} CountIs(s: string)
    ensures CountSyllables(s) == |Places(s)|
  {
    hide IsSyllable, Places;
    if s == "" {
      NoPlaces();
    } else {
      CountIs(Init(s));
      PlacesSnoc(Init(s), Last(s));
      assert s == Init(s) + [Last(s)];
    }
  }

  lemma NoPlaces()
    ensures Places("") == {}
  {
  }

  method CountKoreanSyllables(s: string) returns (n: nat)
    ensures n == CountSyllables(s)
  {
    n := 0;
    for i := 0 to |s|
      invariant n == CountSyllables(s[..i])
    {
      assert Init(s[..i + 1]) == s[..i];
      if IsSyllable(s[i]) {
        n := n + 1;
      }
    }
    assert s[..|s|] == s;
  }

  /** Every character but the last is a precomposed syllable. */
  predicate AllButLastSyllables(s: string) {
    forall i | 0 <= i < |s| - 1 :: IsSyllable(s[i])
  }

  /** The text the search tries to reach: all but the last character. */
  function TargetPrefix(korean: string): string {
    if |korean| > 1 then Init(korean) else ""
  }

  predicate PrefixMatches(cfg: Config, km: Keyboard, layout: EnglishLayout, es: seq<KeystrokeEntry>, target: string,
                          i: nat)
    requires i <= |es|
  {
    Ascii(layout, es[..i]) != "" && Converted(cfg, km, Ascii(layout, es[..i])) == target
  }

  /** The longest proper prefix of the buffer that converts to the target; the whole
      buffer when there is none. */
  ghost predicate IsSplit(cfg: Config, km: Keyboard, layout: EnglishLayout, es: seq<KeystrokeEntry>, target: string,
                          start: nat) {
    && 1 <= start <= |es|
    && (start < |es| ==> PrefixMatches(cfg, km, layout, es, target, start))
    && forall i | 1 <= i < |es| && (start < |es| ==> start < i) :: !PrefixMatches(cfg, km, layout, es, target, i)
  }

  method Partial(layout: EnglishLayout, es: seq<KeystrokeEntry>, n: nat) returns (s: string)
    requires n <= |es|
    ensures s == Ascii(layout, es[..n])
  {
    s := "";
    for i := 0 to n
      invariant s == Ascii(layout, es[..i])
    {
      assert Init(es[..i + 1]) == es[..i];
      s := s + Emit(layout(es[i].keycode, es[i].shift));
    }
  }

  /** Shorter and shorter prefixes are tried, down to one key. */
  method LastSyllableStart(cfg: Config, km: Keyboard, layout: EnglishLayout, es: seq<KeystrokeEntry>, target: string)
    returns (start: nat)
    requires es != []
    ensures IsSplit(cfg, km, layout, es, target, start)
  {
    hide Converted, Ascii;
    start := |es|;
    for i := |es| downto 1
      invariant start == |es|
      invariant forall j | i <= j < |es| :: !PrefixMatches(cfg, km, layout, es, target, j)
    {
      var partial := Partial(layout, es, i);
      if partial != "" {
        var partialKorean := EngToKor(cfg, km, partial);
        if partialKorean == target {
          start := i;
          break;
        }
      }
    }
  }

  lemma AllButLastPlaces(s: string)
    ensures AllButLastSyllables(s) <==> forall i | 0 <= i < |s| - 1 :: i in Places(s)
  {
    assert forall i | 0 <= i < |s| :: i in Places(s) <==> IsSyllable(s[i]);
  }

  /** A buffer is corrected if and only if correction is on, the buffer has two keys or more, they
      are neither suppressed nor an English word, and they convert to enough syllables with
      nothing else before the last character. `suppressed` and `englishWord` stand for the
      learned blacklist and the English dictionary. */
  method CheckForward(buffer: KeystrokeBuffer, cfg: Config, km: Keyboard, layout: EnglishLayout,
                      settings: Settings, suppressed: string -> bool, englishWord: string -> bool)
    returns (r: Verdict)
    ensures var ascii := Ascii(layout, buffer.entries); var korean := Converted(cfg, km, ascii);
            r != Nothing <==>
            && settings.forward && |buffer.entries| >= 2 && ascii != "" && !suppressed(ascii) && !englishWord(ascii)
            && |Places(korean)| >= settings.threshold && forall i | 0 <= i < |korean| - 1 :: i in Places(korean)
    ensures r.Correct? ==>
      var ascii := Ascii(layout, buffer.entries);
      var korean := Converted(cfg, km, ascii);
      && r.correction.original == ascii && r.correction.deleteChars == |ascii| && r.correction.corrected == korean
      && r.correction.replaceComposition == buffer.wordMode
      && exists start: nat ::
           && IsSplit(cfg, km, layout, buffer.entries, TargetPrefix(korean), start)
           && (start < |buffer.entries| ==> korean != "")
           && r.correction.replay == buffer.entries[start..]
           && r.correction.commitText == if start < |buffer.entries| then Init(korean) else korean
    ensures r.Crash? ==>
      && Converted(cfg, km, Ascii(layout, buffer.entries)) == ""
      && exists start: nat :: IsSplit(cfg, km, layout, buffer.entries, "", start) && start < |buffer.entries|
    ensures settings.threshold >= 1 ==> !r.Crash?
  {
    hide Converted, Ascii, Places, PrefixMatches;
    if !settings.forward || |buffer.entries| < 2 {
      return Nothing;
    }
    var ascii := buffer.ToAsciiString(layout);
    if ascii == "" || suppressed(ascii) || englishWord(ascii) {
      return Nothing;
    }
    var korean := EngToKor(cfg, km, ascii);
    var syllables := CountKoreanSyllables(korean);
    CountIs(korean);
    AllButLastPlaces(korean);
    if syllables < settings.threshold {
      return Nothing;
    }
    if |korean| > 1 {
      for i := 0 to |korean| - 1
        invariant forall j | 0 <= j < i :: IsSyllable(korean[j])
      {
        if !IsSyllable(korean[i]) {
          return Nothing;
        }
      }
    }
    var es := buffer.entries;
    var total := |es|;
    var lastSyllableStart := LastSyllableStart(cfg, km, layout, es, TargetPrefix(korean));
    if lastSyllableStart < total && korean == "" {
      return Crash;
    }
    var commitText := if lastSyllableStart < total then Init(korean) else korean;
    r := Correct(Correction(|ascii|, commitText, korean, ascii, es[lastSyllableStart..], buffer.wordMode));
  }

  /** The search always has an answer. */
  lemma {:induction false} SplitExists(cfg: Config, km: Keyboard, layout: EnglishLayout, es: seq<KeystrokeEntry>,
                                       target: string, from: nat) returns (start: nat)
    requires es != [] && 1 <= from <= |es|
    requires forall i | from <= i < |es| :: !PrefixMatches(cfg, km, layout, es, target, i)
    ensures IsSplit(cfg, km, layout, es, target, start)
    decreases from
  {
    hide PrefixMatches;
    if from == 1 {
      return |es|;
    }
    if PrefixMatches(cfg, km, layout, es, target, from - 1) {
      return from - 1;
    }
    start := SplitExists(cfg, km, layout, es, target, from - 1);
  }

  // ---------- the split rebuilds the text ----------

  /** Every buffered key types the letter of the same position in `w`. */
  predicate Buffers(km: Keyboard, layout: EnglishLayout, es: seq<KeystrokeEntry>, w: seq<JamoEnum>) {
    && |w| == |es|
    && forall i | 0 <= i < |es| ::
         var ch := layout(es[i].keycode, es[i].shift);
         ch.Some? && ch.value in km && km[ch.value] == w[i]
  }

  lemma {:induction false} AsciiOfBuffer(km: Keyboard, layout: EnglishLayout, es: seq<KeystrokeEntry>, w: seq<JamoEnum>)
    requires Buffers(km, layout, es, w)
    ensures var s := Ascii(layout, es);
            |s| == |es| && forall i | 0 <= i < |s| :: s[i] in km && km[s[i]] == w[i]
  {
    if es != [] {
      AsciiOfBuffer(km, layout, Init(es), Init(w));
    }
  }

  /** Converting any stretch of the buffer is typing that stretch of keys. */
  lemma StretchConverts(t: Table, km: Keyboard, layout: EnglishLayout, es: seq<KeystrokeEntry>, w: seq<TwoSetKey>,
                        i: nat, j: nat)
    requires Buffers(km, layout, es, w) && i <= j <= |es|
    ensures Converted(Two(t), km, Ascii(layout, es[i..j])) == Text2(t, w[i..j])
    ensures |Ascii(layout, es[i..j])| == j - i
  {
    hide Converted, Text2, Ascii;
    AsciiOfBuffer(km, layout, es[i..j], w[i..j]);
    ConvertedIsText(t, km, Ascii(layout, es[i..j]), w[i..j]);
  }

  /** For every buffer of two-set keys that converts to two characters or more, jammed or not:
      the text committed and the text replayed give the corrected text if and only if the last
      character is not a jammed syllable; and then the keys replayed are the last cell's. */
  lemma SplitExactly(t: Table, km: Keyboard, layout: EnglishLayout, es: seq<KeystrokeEntry>, w: seq<TwoSetKey>,
                     start: nat)
    requires NoInitialPairs(t) && ProperTable(t) && Progressing(t) && Buffers(km, layout, es, w)
    requires |Converted(Two(t), km, Ascii(layout, es))| >= 2
    requires IsSplit(Two(t), km, layout, es, TargetPrefix(Converted(Two(t), km, Ascii(layout, es))), start)
    ensures var korean := Converted(Two(t), km, Ascii(layout, es)); var xs := AllCells(t, w);
            && start < |es| && xs != []
            && (Init(korean) + Converted(Two(t), km, Ascii(layout, es[start..])) == korean <==> !EndsJammed(xs))
            && (!EndsJammed(xs) && !IsJam(Last(xs)) ==> w[start..] == CellLetters(Last(xs)))
  {
    hide Converted, Ascii, Formed, Buffers, CellText, Cells, CellLetters, EndsJammed, BreaksCell, IsJam;
    BufferLength(km, layout, es, w);
    PrefixTexts(t, km, layout, es, w);
    assert es[..|es|] == es && w[..|w|] == w;
    var korean := Converted(Two(t), km, Ascii(layout, es));
    StartFormed(t);
    var n := CutAtLast(t, START, w);
    NothingBreaks(t, w);
    forall i | 1 <= i < |es|
      ensures PrefixMatches(Two(t), km, layout, es, TargetPrefix(korean), i)
              <==> CellText(t, START, w[..i]) == Init(korean)
    {
      assert |Ascii(layout, es[..i])| == i;
    }
    assert start == n;
    StretchConverts(t, km, layout, es, w, start, |es|);
    assert es[start..|es|] == es[start..] && w[start..|w|] == w[start..];
    CellTextIs(t, w[start..]);
    LastRebuilds(korean, Converted(Two(t), km, Ascii(layout, es[start..])));
  }

  lemma NothingBreaks(t: Table, w: seq<TwoSetKey>)
    requires w != []
    ensures !BreaksCell(t, START, w)
  {
  }

  lemma CellTextIs(t: Table, w: seq<TwoSetKey>)
    requires NoInitialPairs(t) && ProperTable(t)
    ensures Text2(t, w) == CellText(t, START, w)
  {
    hide Text2, Cells;
    TotalText(t, w);
  }

  lemma LastRebuilds(korean: string, last: string)
    requires korean != ""
    ensures Init(korean) + last == korean <==> last == [Last(korean)]
  {
    assert Init(korean) + [Last(korean)] == korean;
    SamePrefix(Init(korean), last, [Last(korean)]);
  }

  /** A buffer that ends in a character that is no key: exactly that character is replayed, on
      every layout. (Anywhere else such a character keeps the correction from triggering.) */
  lemma SplitBeforeSeparator(cfg: Config, km: Keyboard, layout: EnglishLayout, es: seq<KeystrokeEntry>, u: char,
                             start: nat)
    requires es != [] && layout(Last(es).keycode, Last(es).shift) == Some(u) && u !in km
    requires Ascii(layout, Init(es)) != ""
    requires IsSplit(cfg, km, layout, es, TargetPrefix(Converted(cfg, km, Ascii(layout, es))), start)
    ensures var korean := Converted(cfg, km, Ascii(layout, es));
            && start == |es| - 1 && korean == Converted(cfg, km, Ascii(layout, Init(es))) + [u]
            && Init(korean) + Converted(cfg, km, Ascii(layout, es[start..])) == korean
  {
    hide Converted, Ascii;
    var before := Converted(cfg, km, Ascii(layout, Init(es)));
    SeparatorLast(cfg, km, layout, es, u);
    AsciiNothing(layout);
    assert Init(before + [u]) == before && es[..|es| - 1] == Init(es);
    assert PrefixMatches(cfg, km, layout, es, before, |es| - 1);
    assert es[start..] == [Last(es)] && Init([Last(es)]) == [];
    SeparatorLast(cfg, km, layout, [Last(es)], u);
    NothingConverted(cfg, km);
    assert "" + [u] == [u];
  }

  lemma SeparatorLast(cfg: Config, km: Keyboard, layout: EnglishLayout, es: seq<KeystrokeEntry>, u: char)
    requires es != [] && layout(Last(es).keycode, Last(es).shift) == Some(u) && u !in km
    ensures Converted(cfg, km, Ascii(layout, es)) == Converted(cfg, km, Ascii(layout, Init(es))) + [u]
  {
    hide Converted, Ascii;
    AsciiLast(layout, es);
    NothingConverted(cfg, km);
    SeparatorsCut(cfg, km, Ascii(layout, Init(es)), u, "");
    assert Ascii(layout, Init(es)) + [u] + "" == Ascii(layout, es);
    var before := Converted(cfg, km, Ascii(layout, Init(es)));
    assert before + [u] + "" == before + [u];
  }

  lemma NothingConverted(cfg: Config, km: Keyboard)
    ensures Converted(cfg, km, "") == ""
  {
  }

  lemma AsciiNothing(layout: EnglishLayout)
    ensures Ascii(layout, []) == ""
  {
  }

  /** The characters of two stretches of keys, one after the other. */
  lemma {:induction false} AsciiConcat(layout: EnglishLayout, a: seq<KeystrokeEntry>, b: seq<KeystrokeEntry>)
    ensures Ascii(layout, a + b) == Ascii(layout, a) + Ascii(layout, b)
    decreases |b|
  {
    hide Ascii;
    if b == [] {
      AsciiNothing(layout);
      assert a + b == a;
    } else {
      assert Init(a + b) == a + Init(b) && Last(a + b) == Last(b);
      AsciiConcat(layout, a, Init(b));
      AsciiLast(layout, a + b);
      AsciiLast(layout, b);
    }
  }

  lemma AsciiLast(layout: EnglishLayout, es: seq<KeystrokeEntry>)
    requires es != []
    ensures Ascii(layout, es) == Ascii(layout, Init(es)) + Emit(layout(Last(es).keycode, Last(es).shift))
  {
  }

  /** When no consonant jams: the search stops exactly where the last character's keys start,
      the text committed is all the other characters, and the replay rebuilds the last one. */
  lemma SplitRebuilds(t: Table, km: Keyboard, layout: EnglishLayout, es: seq<KeystrokeEntry>, w: seq<TwoSetKey>,
                      start: nat)
    requires NoInitialPairs(t) && ProperTable(t) && Progressing(t)
    requires Buffers(km, layout, es, w) && Parse(t, NOTHING, w).clean
    requires |Converted(Two(t), km, Ascii(layout, es))| >= 2
    requires IsSplit(Two(t), km, layout, es, TargetPrefix(Converted(Two(t), km, Ascii(layout, es))), start)
    ensures var korean := Converted(Two(t), km, Ascii(layout, es)); var gs := Groups(t, w);
            && |gs| == |korean| && start == |w| - |Letters(Last(gs))| < |es|
            && w[start..] == Letters(Last(gs))
            && Init(korean) == WrittenAll(t, Init(gs))
            && Converted(Two(t), km, Ascii(layout, es[start..])) == [Last(korean)]
            && Init(korean) + Converted(Two(t), km, Ascii(layout, es[start..])) == korean
  {
    hide Converted, Text2, Ascii, Parse, WellFormed, Letters, Written, Buffers, Cells, Formed, CellLetters,
      EndsJammed, IsSplit, Meant;
    BufferLength(km, layout, es, w);
    assert es[0..|es|] == es && w[0..|w|] == w;
    StretchConverts(t, km, layout, es, w, 0, |es|);
    var korean, gs, xs := Converted(Two(t), km, Ascii(layout, es)), Groups(t, w), AllCells(t, w);
    FreshAt(t);
    ReadText(t, w);
    ParseSegments(t, NOTHING, w);
    OneCharacterEach(t, gs);
    WrittenLast(t, gs);
    assert Last(gs) in gs;
    StartFormed(t);
    MeantNothing();
    CleanCells(t, START, w);
    assert Last(xs) in xs && Last(gs) == Meant(Last(xs));
    NoneJammed(xs);
    SplitExactly(t, km, layout, es, w, start);
    MeantLetters(Last(xs));
    LastRebuilds(korean, Converted(Two(t), km, Ascii(layout, es[start..])));
  }

  lemma MeantNothing()
    ensures Meant(START) == NOTHING && InOrder(START)
  {
  }

  lemma NoneJammed(xs: seq<Cell>)
    requires xs != [] && forall x <- xs :: InOrder(x)
    ensures !EndsJammed(xs) && !IsJam(Last(xs))
  {
    assert Last(xs) in xs;
  }

  lemma MeantLetters(x: Cell)
    requires InOrder(x)
    ensures CellLetters(x) == Letters(Meant(x))
  {
  }

  lemma BufferLength(km: Keyboard, layout: EnglishLayout, es: seq<KeystrokeEntry>, w: seq<JamoEnum>)
    requires Buffers(km, layout, es, w)
    ensures |w| == |es|
  {
  }

  /** What each prefix of a buffer converts to. */
  lemma PrefixTexts(t: Table, km: Keyboard, layout: EnglishLayout, es: seq<KeystrokeEntry>, w: seq<TwoSetKey>)
    requires NoInitialPairs(t) && ProperTable(t) && Buffers(km, layout, es, w)
    ensures |w| == |es| && forall i | 0 <= i <= |es| ::
      && |Ascii(layout, es[..i])| == i
      && Converted(Two(t), km, Ascii(layout, es[..i])) == CellText(t, START, w[..i])
  {
    hide Converted, Text2, Ascii, Buffers, CellText;
    BufferLength(km, layout, es, w);
    forall i | 0 <= i <= |es|
      ensures |Ascii(layout, es[..i])| == i
      ensures Converted(Two(t), km, Ascii(layout, es[..i])) == CellText(t, START, w[..i])
    {
      assert es[0..i] == es[..i] && w[0..i] == w[..i];
      StretchConverts(t, km, layout, es, w, 0, i);
      CellTextIs(t, w[..i]);
    }
  }

  /** The keys of two or more complete syllables, whatever keys type each of them. */
  lemma GroupsSplit(t: Table, km: Keyboard, layout: EnglishLayout, es: seq<KeystrokeEntry>, bs: seq<Group>,
                    w: seq<TwoSetKey>, start: nat)
    requires NoInitialPairs(t) && ProperTable(t) && Progressing(t)
    requires |bs| >= 2 && (forall b <- bs :: Complete(t, b)) && w == LettersAll(bs) && Buffers(km, layout, es, w)
    requires IsSplit(Two(t), km, layout, es, TargetPrefix(Converted(Two(t), km, Ascii(layout, es))), start)
    ensures var korean := Converted(Two(t), km, Ascii(layout, es));
            && korean == WrittenAll(t, bs) && |korean| == |bs| && start <= |w|
            && w[start..] == Letters(Last(bs))
            && Converted(Two(t), km, Ascii(layout, es[start..])) == [Last(korean)]
  {
    hide Converted, Text2, Ascii, Parse, Complete, Buffers, Letters, IsSplit, LettersAll, WrittenAll;
    SyllablesSurviveTyping(t, bs, w);
    ReadText(t, w);
    BufferLength(km, layout, es, w);
    StretchConverts(t, km, layout, es, w, 0, |es|);
    assert es[0..|es|] == es && w[0..|w|] == w;
    SplitRebuilds(t, km, layout, es, w, start);
  }

  /** The canonical keys of two or more syllables: commit all syllables but the last and
      replay exactly the last one's keys. */
  lemma SyllablesSplit(km: Keyboard, layout: EnglishLayout, es: seq<KeystrokeEntry>, text: string, w: seq<TwoSetKey>,
                       start: nat)
    requires |text| >= 2 && (forall ch <- text :: IsSyllable(ch)) && w == LettersAll(Blocks(text))
    requires Buffers(km, layout, es, w)
    requires IsSplit(Two(STD), km, layout, es, TargetPrefix(Converted(Two(STD), km, Ascii(layout, es))), start)
    ensures Converted(Two(STD), km, Ascii(layout, es)) == text && AllButLastSyllables(text)
    ensures start <= |w| && w[start..] == Letters(Canonical(Last(text)))
    ensures Converted(Two(STD), km, Ascii(layout, es[start..])) == [Last(text)]
  {
    hide *;
    StdFits();
    BlocksComplete(text);
    GroupsSplit(STD, km, layout, es, Blocks(text), w, start);
    BlocksLast(text);
  }

  lemma BlocksLast(text: string)
    requires text != "" && forall ch <- text :: IsSyllable(ch)
    ensures Last(text) in text && Last(Blocks(text)) == Canonical(Last(text))
    ensures AllButLastSyllables(text)
  {
    hide IsSyllable, Canonical;
  }

  // ---------- a jam that breaks the split, and one that does not ----------

  /** What the standard table makes of these finals: g, gg, and nothing for g g g and g d. */
  predicate JamFinals(t: Table) {
    && FoldFinals(t, [0]) == Some(1) && FoldFinals(t, [0, 0]) == Some(2)
    && FoldFinals(t, [0, 0, 0]).None? && FoldFinals(t, [0, 3]).None?
  }

  lemma StdJamFinals()
    ensures JamFinals(STD)
  {
    assert Init([0, 0, 0]) == [0, 0] && Init([0, 0]) == [0] && Init([0]) == [] && Init([0, 3]) == [0];
    assert FoldFinals(STD, []) == None;
    assert FoldFinals(STD, [0]) == Some(1);
    assert FoldFinals(STD, [0, 0]) == Some(2);
  }

  /** g, a, g and g make a syllable whose final refuses one more g. */
  const GAGG := Cell(None, Group(Some(0), [0], [0, 0]))

  /** g, a, g. */
  const GAG := Cell(None, Group(Some(0), [0], [0]))

  lemma ReadGag(t: Table, w: seq<TwoSetKey>)
    requires JamFinals(t) && |w| >= 6 && w[0] == Cho(0) && w[1] == Jung(0) && w[2] == Cho(0) && w[3].Cho?
    ensures Cells(t, START, w) == Cells(t, GAG, w[3..])
  {
    hide FoldFinals, FoldVowels, Cells;
    var x1, x2 := Cell(None, Group(Some(0), [], [])), Cell(None, Group(Some(0), [0], []));
    SingleVowel(t, 0);
    assert Whole(x2).finals + [0] == [0] && [] + [0] == [0] && w[2..][1] == w[3];
    ReadOne(t, START, w, x1);
    ReadOne(t, x1, w[1..], x2);
    ReadOne(t, x2, w[2..], GAG);
    assert w[1..][1..] == w[2..] && w[2..][1..] == w[3..];
  }

  lemma ReadGagg(t: Table, w: seq<TwoSetKey>)
    requires JamFinals(t) && |w| >= 6 && w[..6] == [Cho(0), Jung(0), Cho(0), Cho(0), Cho(0), Cho(2)]
    ensures Cells(t, START, w) == [GAGG] + Cells(t, Cell(Some(0), Group(Some(2), [], [])), w[6..])
  {
    hide FoldFinals, FoldVowels, Cells;
    assert forall i | 0 <= i < 6 :: w[i] == w[..6][i];
    ReadGag(t, w);
    JamCells(t, w[3..]);
    assert w[3..][3..] == w[6..];
  }

  /** After g, a, g: g closes the syllable, g is refused, and n opens the next. */
  lemma JamCells(t: Table, w: seq<TwoSetKey>)
    requires JamFinals(t) && |w| >= 3 && w[0] == Cho(0) && w[1] == Cho(0) && w[2] == Cho(2)
    ensures Cells(t, GAG, w) == [GAGG] + Cells(t, Cell(Some(0), Group(Some(2), [], [])), w[3..])
  {
    hide FoldFinals, FoldVowels, Cells;
    var jam := Cell(Some(0), NOTHING);
    SingleVowel(t, 0);
    assert Whole(GAG).finals + [0] == [0, 0] && Whole(GAGG).finals + [0] == [0, 0, 0] && [0] + [0] == [0, 0];
    ReadOne(t, GAG, w, GAGG);
    ReadOne(t, GAGG, w[1..], jam);
    ReadOne(t, jam, w[2..], Cell(Some(0), Group(Some(2), [], [])));
    assert w[1..][1..] == w[2..] && w[2..][1..] == w[3..];
  }

  lemma ReadOne(t: Table, x: Cell, w: seq<TwoSetKey>, h: Cell)
    requires w != [] && NextCell(t, x, w) == h
    ensures Cells(t, x, w) == (if BreaksCell(t, x, w) then [x] else []) + Cells(t, h, w[1..])
  {
    hide NextCell, BreaksCell;
  }

  /** An actual key sequence that ends jammed: after g, a, g, g, g the keys n and a make one
      syllable with the refused g, out of order. */
  lemma EndsInJam(w: seq<TwoSetKey>)
    requires w == [Cho(0), Jung(0), Cho(0), Cho(0), Cho(0), Cho(2), Jung(0)]
    ensures EndsJammed(AllCells(STD, w))
    ensures Text2(STD, w) == [SyllableCode(0, 0, 2) as char, SyllableCode(2, 0, 1) as char]
  {
    hide FoldFinals, Cells, Text2, Written;
    StdFits();
    StdJamFinals();
    ReadGagg(STD, w);
    SingleVowel(STD, 0);
    var jam, j := Cell(Some(0), Group(Some(2), [], [])), Cell(Some(0), Group(Some(2), [0], []));
    assert [] + [0] == [0] && w[6..] == [Jung(0)];
    ReadOne(STD, jam, w[6..], j);
    NoMore(STD, j);
    assert w[6..][1..] == [];
    TotalText(STD, w);
    TwoWritten(STD, GAGG, j);
    assert AllCells(STD, w) == [GAGG] + [j];
    assert Last([GAGG] + [j]) == j;
    assert Whole(j) == Group(Some(2), [0], [0]);
    JamWritten(STD);
  }

  lemma NoMore(t: Table, x: Cell)
    requires x != START
    ensures Cells(t, x, []) == [x]
  {
  }

  lemma TwoWritten(t: Table, a: Cell, b: Cell)
    ensures WrittenCells(t, [a] + [b]) == Written(t, Whole(a)) + Written(t, Whole(b))
  {
    hide Written;
    WrittenCellsConcat(t, [a], [b]);
    WrittenCell(t, a);
    WrittenCell(t, b);
  }

  lemma JamWritten(t: Table)
    requires JamFinals(t)
    ensures Written(t, Group(Some(0), [0], [0, 0])) == [SyllableCode(0, 0, 2) as char]
    ensures Written(t, Group(Some(2), [0], [0])) == [SyllableCode(2, 0, 1) as char]
    ensures Whole(GAGG) == GAGG.g
  {
    hide FoldFinals;
    SingleVowel(t, 0);
  }

  /** The same jam followed by d and a as well: it is no longer the last character, and the
      split is right again. */
  lemma JamLeftBehind(w: seq<TwoSetKey>)
    requires w == [Cho(0), Jung(0), Cho(0), Cho(0), Cho(0), Cho(2), Jung(0), Cho(3), Jung(0)]
    ensures !EndsJammed(AllCells(STD, w))
    ensures Cell(Some(0), Group(Some(2), [0], [])) in AllCells(STD, w)
  {
    hide FoldFinals, Cells, FoldVowels;
    StdJamFinals();
    ReadGagg(STD, w);
    SingleVowel(STD, 0);
    var jam, j := Cell(Some(0), Group(Some(2), [], [])), Cell(Some(0), Group(Some(2), [0], []));
    var d, da := Cell(Some(3), NOTHING), Cell(None, Group(Some(3), [0], []));
    assert [] + [0] == [0] && w[6..] == [Jung(0), Cho(3), Jung(0)] && [0] + [3] == [0, 3] && Whole(j).finals == [0];
    ReadOne(STD, jam, w[6..], j);
    ReadOne(STD, j, w[7..], d);
    ReadOne(STD, d, w[8..], da);
    assert w[8..][1..] == [];
    NoMore(STD, da);
    var xs := AllCells(STD, w);
    assert xs == [GAGG] + ([] + ([j] + ([] + [da])));
    assert xs == [GAGG, j, da] && Last(xs) == da;
  }
}
