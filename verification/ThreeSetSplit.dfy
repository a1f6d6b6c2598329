/** Correcting Korean typed in English mode on a three-set layout: the split of
    src/auto_typefix/forward.rs always rebuilds the text. */
module ThreeSetSplit {
  import opened Wrappers
  import opened Jamo
  import opened HangulChars
  import opened Fold
  import opened Automaton
  import opened TwoBulParser
  import opened ThreeBulParser
  import opened TypeFix
  import opened RoundTrip
  import opened AutoTypeFix
  import opened ThreeSetTrip

  /** The text of three-set letters: their greedy segments, one after another. */
  function Text3(t: Table, w: seq<Stroke>): string { ClosedText(t, Segment(t, w)) }

  /** The character of one segment; a vowel and final without an initial have none. */
  function Character(t: Table, g: seq<Stroke>): string { Emit(Render(Meaning(t, g))) }

  /** The first segment ends where the next letter would break it. */
  lemma FirstSegmentIs(t: Table, w: seq<Stroke>) returns (n: nat)
    requires Letters3(w) && w != []
    ensures 1 <= n <= |w| && IsBlock(t, w[..n]) && (n < |w| ==> !IsBlock(t, w[..n + 1]))
    ensures Text3(t, w) == Character(t, w[..n]) + Text3(t, w[n..])
  {
    hide IsBlock, Render, Meaning;
    n := Longest(t, w, 1);
    SingleBlock(t, w[0]);
    assert w[..1] == [w[0]];
    LongestIsLongest(t, w, 1, n);
    if n < |w| {
      LongestIsLongest(t, w, 1, n + 1);
    }
    assert ([w[..n]] + Segment(t, w[n..]))[1..] == Segment(t, w[n..]);
  }

  /** What a prefix writes: part of the first segment, or all of it and a prefix of the rest. */
  lemma PrefixText3(t: Table, w: seq<Stroke>, n: nat, i: nat)
    requires 1 <= n <= |w| && IsBlock(t, w[..n]) && (n < |w| ==> !IsBlock(t, w[..n + 1])) && 0 < i <= |w|
    ensures i <= n ==> Text3(t, w[..i]) == Character(t, w[..i]) && IsBlock(t, w[..i])
    ensures i > n ==> Text3(t, w[..i]) == Character(t, w[..n]) + Text3(t, w[n..][..i - n])
  {
    hide IsBlock, Render, Meaning, Segment;
    if i <= n {
      BlockPrefix(t, w[..n], i);
      assert w[..n][..i] == w[..i];
      SegmentWhole(t, w[..i]);
      OneSegment(t, w[..i], []);
      assert [w[..i]] + [] == [w[..i]];
      assert ClosedText(t, []) == "";
    } else {
      var q, s, rest := w[..n], w[n], w[n + 1..i];
      assert w[..i] == q + ([s] + rest) && w[..n + 1] == q + [s] && w[n..][..i - n] == [s] + rest;
      SegmentBreaks(t, q, s, rest);
      OneSegment(t, q, Segment(t, [s] + rest));
    }
  }

  lemma OneSegment(t: Table, q: seq<Stroke>, gs: seq<seq<Stroke>>)
    ensures ClosedText(t, [q] + gs) == Character(t, q) + ClosedText(t, gs)
  {
    hide Render, Meaning;
    assert ([q] + gs)[1..] == gs;
  }

  /** A block that has a character has one as soon as its first letter is typed. */
  lemma VisibleFromTheStart(t: Table, g: seq<Stroke>, i: nat)
    requires ProperTable(t) && ProperLetters(g) && IsBlock(t, g) && 0 < i <= |g| && Character(t, g) != ""
    ensures Character(t, g[..i]) != ""
  {
    hide Folded, Render, Meaning, Has;
    var p := g[..i];
    BlockPrefix(t, g, i);
    SegmentCharacter(t, g);
    SegmentCharacter(t, p);
    if Has(Initials, g) {
      FirstIsInitial(g);
      HasAt(Initials, p, 0);
    } else {
      PrefixHas(Medials, g, i);
      PrefixHas(Finals, g, i);
    }
  }

  lemma FirstIsInitial(g: seq<Stroke>)
    requires Ordered(g) && Has(Initials, g)
    ensures g != [] && g[0].jamo.Cho?
  {
    var i :| 0 <= i < |g| && IsKind(Initials, g[i].jamo);
    if i > 0 {
      assert Rank(g[0].jamo) <= Rank(g[i].jamo);
    }
  }

  lemma HasAt(k: Kind, q: seq<Stroke>, i: nat)
    requires i < |q| && IsKind(k, q[i].jamo)
    ensures Has(k, q)
  {
  }

  lemma PrefixHas(k: Kind, q: seq<Stroke>, i: nat)
    requires i <= |q|
    ensures Has(k, q[..i]) ==> Has(k, q)
  {
    if Has(k, q[..i]) {
      var j :| 0 <= j < |q[..i]| && IsKind(k, q[..i][j].jamo);
      HasAt(k, q, j);
    }
  }

  /** The first `n` letters write all the characters but the last, every longer proper prefix
      writes something else, and the letters from `n` on write the last character. */
  ghost predicate Cuts3(t: Table, w: seq<Stroke>, n: nat) {
    && n < |w| && Text3(t, w) != ""
    && Text3(t, w[..n]) == Init(Text3(t, w)) && Text3(t, w[n..]) == [Last(Text3(t, w))]
    && forall i | n < i < |w| :: Text3(t, w[..i]) != Init(Text3(t, w))
  }

  /** For every sequence of three-set letters that writes anything there is such a cut. */
  lemma {:induction false} CutThree(t: Table, w: seq<Stroke>) returns (n: nat)
    requires ProperTable(t) && ProperLetters(w) && Text3(t, w) != ""
    ensures Cuts3(t, w, n)
    decreases |w|
  {
    hide IsBlock, Text3, Character, Cuts3;
    NothingWritten(t);
    assert w[..0] == [] && w[0..] == w;
    var k := FirstSegmentIs(t, w);
    var g, rest := w[..k], w[k..];
    assert ProperLetters(g) && ProperLetters(rest);
    if Text3(t, rest) != "" {
      var m := CutThree(t, rest);
      n := k + m;
      CutRest(t, w, k, m);
    } else {
      n := 0;
      CutFirst(t, w, k);
    }
  }

  lemma NothingWritten(t: Table)
    ensures Text3(t, []) == ""
  {
  }

  lemma CutRest(t: Table, w: seq<Stroke>, k: nat, m: nat)
    requires 1 <= k <= |w| && IsBlock(t, w[..k]) && (k < |w| ==> !IsBlock(t, w[..k + 1]))
    requires Text3(t, w) == Character(t, w[..k]) + Text3(t, w[k..]) && Cuts3(t, w[k..], m)
    ensures Cuts3(t, w, k + m)
  {
    hide IsBlock, Text3, Character;
    var c, rest := Character(t, w[..k]), w[k..];
    var tail := Text3(t, rest);
    assert Init(c + tail) == c + Init(tail) && Last(c + tail) == Last(tail);
    assert rest[m..] == w[k + m..];
    NothingWritten(t);
    PrefixText3(t, w, k, k + m);
    if m == 0 {
      assert rest[..0] == [] && c + "" == c;
    }
    forall i | k + m < i < |w| ensures Text3(t, w[..i]) != c + Init(tail) {
      PrefixText3(t, w, k, i);
      SamePrefix(c, Text3(t, rest[..i - k]), Init(tail));
    }
  }

  lemma CutFirst(t: Table, w: seq<Stroke>, k: nat)
    requires ProperTable(t) && ProperLetters(w) && Text3(t, w) != ""
    requires 1 <= k <= |w| && IsBlock(t, w[..k]) && (k < |w| ==> !IsBlock(t, w[..k + 1]))
    requires Text3(t, w) == Character(t, w[..k]) + Text3(t, w[k..]) && Text3(t, w[k..]) == ""
    ensures Cuts3(t, w, 0)
  {
    hide IsBlock, Text3, Character;
    NothingWritten(t);
    assert w[..0] == [] && w[0..] == w;
    assert Text3(t, w) == Character(t, w[..k]);
    OneAtMost(t, w[..k]);
    assert ProperLetters(w[..k]);
    forall i | 0 < i < |w| ensures Text3(t, w[..i]) != "" {
      PrefixText3(t, w, k, i);
      if i <= k {
        VisibleFromTheStart(t, w[..k], i);
        assert w[..k][..i] == w[..i];
      }
    }
  }

  lemma OneAtMost(t: Table, g: seq<Stroke>)
    ensures |Character(t, g)| <= 1
  {
    hide Render, Meaning;
  }

  // ---------- keys that type no letter ----------

  /** A key of a three-set layout: a letter, or a character that the composer ignores. */
  predicate ThreeSetKeys(w: seq<JamoEnum>) {
    forall i | 0 <= i < |w| :: Proper(w[i]) || w[i].Special?
  }

  /** The letters among the keys. */
  function LettersOnly(w: seq<JamoEnum>): (ls: seq<JamoEnum>)
    ensures |ls| <= |w|
    ensures ThreeSetKeys(w) ==> forall i | 0 <= i < |ls| :: Proper(ls[i])
  {
    if w == [] then [] else LettersOnly(Init(w)) + (if Last(w).Special? then [] else [Last(w)])
  }

  lemma {:induction false} LettersOnlyConcat(a: seq<JamoEnum>, b: seq<JamoEnum>)
    ensures LettersOnly(a + b) == LettersOnly(a) + LettersOnly(b)
    decreases |b|
  {
    if b == [] {
      assert a + b == a;
    } else {
      assert Init(a + b) == a + Init(b) && Last(a + b) == Last(b);
      LettersOnlyConcat(a, Init(b));
    }
  }

  /** Keys that type no letter change nothing. */
  lemma {:induction false} SpecialsIgnored(t: Table, st: State, w: seq<JamoEnum>)
    ensures Feed(Three(t, false), st, Strokes(w)) == Feed(Three(t, false), st, Strokes(LettersOnly(w)))
  {
    hide Feed, AddWith;
    var cfg := Three(t, false);
    if w != [] {
      SpecialsIgnored(t, st, Init(w));
      assert Strokes(w) == Strokes(Init(w)) + [Stroke(Last(w), DEFAULT_META)];
      FeedAppend(cfg, st, Strokes(Init(w)), [Stroke(Last(w), DEFAULT_META)]);
      if Last(w).Special? {
        assert LettersOnly(w) == LettersOnly(Init(w));
        FeedSpecial(t, Feed(cfg, st, Strokes(Init(w))).st, Last(w).ch);
      } else {
        assert Strokes(LettersOnly(w)) == Strokes(LettersOnly(Init(w))) + [Stroke(Last(w), DEFAULT_META)];
        FeedAppend(cfg, st, Strokes(LettersOnly(Init(w))), [Stroke(Last(w), DEFAULT_META)]);
      }
    } else {
      assert Strokes(w) == Strokes(LettersOnly(w));
    }
  }

  lemma FeedSpecial(t: Table, st: State, ch: char)
    ensures Feed(Three(t, false), st, [Stroke(Special(ch), DEFAULT_META)]) == Run(st, "")
  {
    FeedOne(Three(t, false), st, Stroke(Special(ch), DEFAULT_META));
  }

  // ---------- the split ----------

  /** The text of any three-set keys. */
  function KeysText(t: Table, w: seq<JamoEnum>): string { Text3(t, Strokes(LettersOnly(w))) }

  /** Converting any stretch of the buffer is typing that stretch of keys. */
  lemma StretchConverts3(t: Table, km: Keyboard, layout: EnglishLayout, es: seq<KeystrokeEntry>, w: seq<JamoEnum>,
                         i: nat, j: nat)
    requires ProperTable(t) && Buffers(km, layout, es, w) && ThreeSetKeys(w) && i <= j <= |es|
    ensures Converted(Three(t, false), km, Ascii(layout, es[i..j])) == KeysText(t, w[i..j])
    ensures |Ascii(layout, es[i..j])| == j - i
  {
    hide Converted, Feed, Ascii, ClosedText, Segment, Proper, ProperTable, LettersOnly;
    var part := w[i..j];
    AsciiOfBuffer(km, layout, es[i..j], part);
    ConvertedIsTextOf(Three(t, false), km, Ascii(layout, es[i..j]), Strokes(part));
    SpecialsIgnored(t, FRESH, part);
    assert ThreeSetKeys(part);
    ThreeBulText(t, Strokes(LettersOnly(part)));
  }

  /** Where the keys up to `i` end among the letters. */
  lemma LettersSplit(w: seq<JamoEnum>, i: nat)
    requires i <= |w|
    ensures LettersOnly(w) == LettersOnly(w[..i]) + LettersOnly(w[i..])
  {
    assert w == w[..i] + w[i..];
    LettersOnlyConcat(w[..i], w[i..]);
  }

  /** Some prefix of the keys has exactly `n` letters. */
  lemma {:induction false} ReachesLetter(w: seq<JamoEnum>, n: nat) returns (i: nat)
    requires n <= |LettersOnly(w)|
    ensures i <= |w| && |LettersOnly(w[..i])| == n
    decreases |w|
  {
    if n == |LettersOnly(w)| {
      i := |w|;
      assert w[..i] == w;
    } else {
      i := ReachesLetter(Init(w), n);
      assert w[..i] == Init(w)[..i];
    }
  }

  /** What the keys up to `i` write, compared with all the characters but the last. */
  lemma CutAmongKeys(t: Table, w: seq<JamoEnum>, n: nat, i: nat)
    requires Cuts3(t, Strokes(LettersOnly(w)), n) && i <= |w|
    ensures var c := |LettersOnly(w[..i])|;
            && (c == n ==> KeysText(t, w[..i]) == Init(KeysText(t, w)) && KeysText(t, w[i..]) == [Last(KeysText(t, w))])
            && (c > n ==> KeysText(t, w[..i]) != Init(KeysText(t, w)))
  {
    hide Text3, LettersOnly;
    var ls := LettersOnly(w);
    var a, b := LettersOnly(w[..i]), LettersOnly(w[i..]);
    LettersSplit(w, i);
    assert Strokes(ls)[..|a|] == Strokes(a) && Strokes(ls)[|a|..] == Strokes(b);
    if |a| == |ls| {
      assert Strokes(a) == Strokes(ls);
    }
  }

  /** For every buffer of three-set keys that converts to two characters or more: the text
      committed and the text replayed give the corrected text. */
  lemma ThreeSetSplitRebuilds(t: Table, km: Keyboard, layout: EnglishLayout, es: seq<KeystrokeEntry>,
                              w: seq<JamoEnum>, start: nat)
    requires ProperTable(t) && Buffers(km, layout, es, w) && ThreeSetKeys(w)
    requires |Converted(Three(t, false), km, Ascii(layout, es))| >= 2
    requires IsSplit(Three(t, false), km, layout, es,
             TargetPrefix(Converted(Three(t, false), km, Ascii(layout, es))), start)
    ensures var korean := Converted(Three(t, false), km, Ascii(layout, es));
            && start < |es| && Converted(Three(t, false), km, Ascii(layout, es[start..])) == [Last(korean)]
            && Init(korean) + Converted(Three(t, false), km, Ascii(layout, es[start..])) == korean
  {
    hide Converted, Ascii, Buffers, Text3, Proper, ProperTable, LettersOnly, Cuts3, KeysText;
    var cfg, ls := Three(t, false), LettersOnly(w);
    var korean := Converted(cfg, km, Ascii(layout, es));
    BufferLength(km, layout, es, w);
    assert es[0..|es|] == es && w[0..|w|] == w;
    StretchConverts3(t, km, layout, es, w, 0, |es|);
    assert KeysText(t, w) == Text3(t, Strokes(ls)) by { KeysTextIs(t, w); }
    var n := CutThree(t, Strokes(ls));
    CutBelow(t, Strokes(ls), n);
    var k := ReachesLetter(w, n);
    CutPlace(t, w, n, k);
    forall i | 0 < i < |es|
      ensures PrefixMatches(cfg, km, layout, es, TargetPrefix(korean), i) <==> KeysText(t, w[..i]) == Init(korean)
      ensures KeysText(t, w[..i]) == Init(korean) && i >= k ==> KeysText(t, w[i..]) == [Last(korean)]
    {
      assert es[0..i] == es[..i] && w[0..i] == w[..i];
      StretchConverts3(t, km, layout, es, w, 0, i);
      CutAmongKeys(t, w, n, i);
      LettersGrow(w, k, i);
    }
    CutAmongKeys(t, w, n, k);
    assert k <= start < |es|;
    StretchConverts3(t, km, layout, es, w, start, |es|);
    assert es[start..|es|] == es[start..] && w[start..|w|] == w[start..];
    LastRebuilds(korean, [Last(korean)]);
  }

  lemma CutBelow(t: Table, w: seq<Stroke>, n: nat)
    requires Cuts3(t, w, n)
    ensures n < |w|
  {
  }

  lemma KeysTextIs(t: Table, w: seq<JamoEnum>)
    ensures KeysText(t, w) == Text3(t, Strokes(LettersOnly(w)))
  {
  }

  lemma LettersGrow(w: seq<JamoEnum>, k: nat, i: nat)
    requires k <= |w| && i <= |w|
    ensures k <= i ==> |LettersOnly(w[..k])| <= |LettersOnly(w[..i])|
  {
    if k <= i {
      LettersSplit(w[..i], k);
      assert w[..i][..k] == w[..k];
    }
  }

  /** The cut is neither before the first key nor after the last. */
  lemma CutPlace(t: Table, w: seq<JamoEnum>, n: nat, k: nat)
    requires Cuts3(t, Strokes(LettersOnly(w)), n) && k <= |w| && |LettersOnly(w[..k])| == n && |KeysText(t, w)| >= 2
    ensures 0 < k < |w|
  {
    hide Text3;
    NothingWritten(t);
    assert w[..|w|] == w && Strokes([]) == [];
    assert n > 0 by {
      assert Strokes(LettersOnly(w))[..0] == [];
    }
  }
}
