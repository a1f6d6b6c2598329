/** Searching Korean text by letters (examples/jamo_pattern_search.rs): syllables are taken
    apart, and a match is reported as the byte range of the characters it touches. */
module JamoSearch {
  import opened Wrappers
  import opened Jamo
  import opened HangulChars

  // ---------- text as bytes and as letters ----------

  function Utf8Len(c: char): (n: nat)
    ensures 1 <= n <= 4
  {
    if c as int < 0x80 then 1 else if c as int < 0x800 then 2 else if c as int < 0x10000 then 3 else 4
  }

  /** Byte position of character `k`. */
  function Offset(text: string, k: nat): nat
    requires k <= |text|
  {
    if k == 0 then 0 else Offset(text, k - 1) + Utf8Len(text[k - 1])
  }

  /** The letters of a character: two or three for a syllable, else itself. */
  function Decompose(c: char): (s: string)
    ensures 1 <= |s| <= 3
  {
    match FromSyllable(c)
    case Some(h) =>
      [ChoCompat(h.cho.value), JungCompat(h.jung.value)]
        + (if h.jong.value == 0 then "" else [JongCompat(h.jong.value)])
    case None => [c]
  }

  function Jamos(text: string): string {
    if text == "" then "" else Jamos(Init(text)) + Decompose(Last(text))
  }

  /** For every letter of the text, the character it comes from. */
  function Owners(text: string): (o: seq<nat>)
    ensures |o| == |Jamos(text)|
    ensures forall i | 0 <= i < |o| :: o[i] < |text|
  {
    if text == "" then [] else Owners(Init(text)) + seq(|Decompose(Last(text))|, _ => |text| - 1)
  }

  predicate OccursAt(text: string, pattern: string, i: nat) {
    i + |pattern| <= |Jamos(text)| && Jamos(text)[i..i + |pattern|] == pattern
  }

  /** The pattern occurs in the letters of characters a to b, starting in the first of them
      and ending in the last: the range cannot be made smaller. */
  predicate Tight(text: string, pattern: string, a: nat, b: nat) {
    && a < b <= |text|
    && exists j: nat ::
         && OccursAt(text[a..b], pattern, j)
         && j < |Decompose(text[a])| && j + |pattern| > |Jamos(text[a..b - 1])|
  }

  // ---------- which letters and how many bytes ----------

  /** The letters pushed for a syllable are what its initial alone, its vowel alone and its final
      alone, if it has one, look like, in this order. */
  lemma SyllableLetters(c: Initial, v: Medial, jong: Option<Final>)
    requires c >= 0 && v >= 0
    ensures var ch := GetSyllable(HangulChar(Some(c), Some(v), jong));
            && ch.Some? && IsSyllable(ch.value)
            && Some(Decompose(ch.value)[0]) == GetSyllable(HangulChar(Some(c), None, None))
            && |Decompose(ch.value)| == (if FinalNumber(jong) == 0 then 2 else 3)
            && Some(Decompose(ch.value)[1]) == GetSyllable(HangulChar(None, Some(v), None))
            && (FinalNumber(jong) != 0 ==> Some(Decompose(ch.value)[2]) == GetSyllable(HangulChar(None, None, jong)))
  {
    hide ChoCompat, JungCompat, JongCompat;
    LettersRoundTrip(c, v, FinalNumber(jong));
  }

  /** Any other character is its own letter. */
  lemma OwnLetter(ch: char)
    ensures !('\U{AC00}' <= ch <= '\U{D7A3}') ==> Decompose(ch) == [ch]
  {
  }

  /** UTF-8 (section 3 of RFC 3629): where each length begins and ends, and that longer characters
      come later. */
  lemma Utf8Lengths(a: char, b: char)
    requires a <= b
    ensures Utf8Len(a) <= Utf8Len(b)
    ensures Utf8Len('\U{7F}') == 1 && Utf8Len('\U{80}') == 2
    ensures Utf8Len('\U{7FF}') == 2 && Utf8Len('\U{800}') == 3
    ensures Utf8Len('\U{FFFF}') == 3 && Utf8Len('\U{10000}') == 4
  {
  }

  /** Hangul syllables and letters, three bytes each, and ASCII, one byte each. */
  lemma {:induction false} OffsetCounts(text: string, k: nat)
    requires k <= |text|
    ensures (forall ch <- text :: IsSyllable(ch) || '\U{3131}' <= ch <= '\U{3163}') ==> Offset(text, k) == 3 * k
    ensures (forall ch <- text :: ch < '\U{80}') ==> Offset(text, k) == k
  {
    if k > 0 {
      OffsetCounts(text, k - 1);
      assert text[k - 1] in text;
    }
  }

  /** Bytes add up: the second of two texts begins where the first ends. */
  lemma {:induction false} OffsetAppend(a: string, b: string, k: nat)
    requires k <= |b|
    ensures Offset(a + b, |a| + k) == Offset(a, |a|) + Offset(b, k)
    decreases k
  {
    hide Utf8Len;
    if k == 0 {
      OffsetPrefix(a, b, |a|);
    } else {
      OffsetAppend(a, b, k - 1);
      assert (a + b)[|a| + k - 1] == b[k - 1];
    }
  }

  lemma {:induction false} OffsetPrefix(a: string, b: string, k: nat)
    requires k <= |a|
    ensures Offset(a + b, k) == Offset(a, k)
  {
    hide Utf8Len;
    if k > 0 {
      OffsetPrefix(a, b, k - 1);
      assert (a + b)[k - 1] == a[k - 1];
    }
  }

  lemma {:induction false} OffsetGrows(text: string, k: nat, m: nat)
    requires k < m <= |text|
    ensures Offset(text, k) < Offset(text, m)
  {
    if k < m - 1 {
      OffsetGrows(text, k, m - 1);
    }
  }

  lemma JamosNothing()
    ensures Jamos("") == ""
  {
  }

  lemma JamosSnoc(text: string, c: char)
    ensures Jamos(text + [c]) == Jamos(text) + Decompose(c)
  {
    hide Decompose;
    assert Init(text + [c]) == text;
  }

  lemma {:induction false} JamosConcat(a: string, b: string)
    ensures Jamos(a + b) == Jamos(a) + Jamos(b)
    decreases |b|
  {
    hide Decompose, Jamos;
    if b == "" {
      JamosNothing();
      assert a + b == a;
    } else {
      var front, c := Init(b), Last(b);
      assert b == front + [c] && a + b == a + front + [c];
      JamosConcat(a, front);
      JamosSnoc(front, c);
      JamosSnoc(a + front, c);
    }
  }

  lemma OwnerAt(text: string, i: nat)
    requires i < |Jamos(text)|
    ensures text != "" && |Jamos(text)| == |Jamos(Init(text))| + |Decompose(Last(text))|
    ensures Owners(text)[i] == if i < |Jamos(Init(text))| then Owners(Init(text))[i] else |text| - 1
  {
    hide Decompose;
  }

  /** The letters of character `k` are the stretch between two prefixes. */
  lemma {:induction false} OwnerSpan(text: string, i: nat, k: nat)
    requires i < |Jamos(text)| && k < |text|
    ensures Owners(text)[i] == k <==> |Jamos(text[..k])| <= i < |Jamos(text[..k + 1])|
    decreases |text|
  {
    hide Decompose, Jamos, Owners;
    var front := Init(text);
    OwnerAt(text, i);
    assert text[..|text|] == text && text[..|text| - 1] == front;
    PrefixLetters(text, k);
    if k < |text| - 1 {
      assert front[..k] == text[..k] && front[..k + 1] == text[..k + 1];
      if i < |Jamos(front)| {
        OwnerSpan(front, i, k);
      } else {
        PrefixLetters(front, k + 1);
      }
    }
  }

  lemma PrefixLetters(text: string, k: nat)
    requires k <= |text|
    ensures Jamos(text) == Jamos(text[..k]) + Jamos(text[k..])
    ensures k < |text| ==> Jamos(text[..k + 1]) == Jamos(text[..k]) + Decompose(text[k])
  {
    hide Decompose, Jamos;
    assert text == text[..k] + text[k..];
    JamosConcat(text[..k], text[k..]);
    if k < |text| {
      assert text[..k + 1] == text[..k] + [text[k]];
      JamosSnoc(text[..k], text[k]);
    }
  }

  lemma RangeLetters(text: string, a: nat, b: nat)
    requires a <= b <= |text|
    ensures Jamos(text[..b]) == Jamos(text[..a]) + Jamos(text[a..b])
  {
    hide Jamos;
    PrefixLetters(text[..b], a);
    assert text[..b][..a] == text[..a] && text[..b][a..] == text[a..b];
  }

  /** Letters a to b of a text are where they are in the whole text. */
  lemma RangeInText(text: string, a: nat, b: nat, pattern: string, j: nat)
    requires a <= b <= |text|
    requires j + |pattern| <= |Jamos(text[a..b])|
    ensures OccursAt(text[a..b], pattern, j) <==> OccursAt(text, pattern, |Jamos(text[..a])| + j)
    ensures |Jamos(text[..a])| + j + |pattern| <= |Jamos(text)|
  {
    hide Jamos;
    RangeLetters(text, a, b);
    PrefixLetters(text, b);
    var base := |Jamos(text[..a])|;
    assert Jamos(text)[base + j..base + j + |pattern|] == Jamos(text[a..b])[j..j + |pattern|];
  }

  lemma {:induction false} OwnersAscend(text: string, i: nat, j: nat)
    requires i <= j < |Jamos(text)|
    ensures Owners(text)[i] <= Owners(text)[j]
    decreases |text|
  {
    hide Decompose, Jamos, Owners;
    OwnerAt(text, i);
    OwnerAt(text, j);
    if j < |Jamos(Init(text))| {
      OwnersAscend(Init(text), i, j);
    }
  }

  /** Every occurrence has its tight range. */
  lemma OccurrenceIsTight(text: string, pattern: string, i: nat)
    requires pattern != "" && OccursAt(text, pattern, i)
    ensures Tight(text, pattern, Owners(text)[i], Owners(text)[i + |pattern| - 1] + 1)
  {
    hide Decompose, Jamos, Owners;
    var a, last := Owners(text)[i], Owners(text)[i + |pattern| - 1];
    var b := last + 1;
    OwnerSpan(text, i, a);
    OwnerSpan(text, i + |pattern| - 1, last);
    OwnersAscend(text, i, i + |pattern| - 1);
    RangeLetters(text, a, b);
    RangeLetters(text, a, last);
    PrefixLetters(text, a);
    var j := i - |Jamos(text[..a])|;
    RangeInText(text, a, b, pattern, j);
    assert text[a..b - 1] == text[a..last];
  }

  /** And every tight range comes from an occurrence. */
  lemma TightIsOccurrence(text: string, pattern: string, a: nat, b: nat) returns (i: nat)
    requires pattern != "" && Tight(text, pattern, a, b)
    ensures OccursAt(text, pattern, i) && Owners(text)[i] == a && Owners(text)[i + |pattern| - 1] == b - 1
  {
    hide Decompose, Jamos, Owners;
    var j: nat :| OccursAt(text[a..b], pattern, j)
               && j < |Decompose(text[a])| && j + |pattern| > |Jamos(text[a..b - 1])|;
    RangeInText(text, a, b, pattern, j);
    i := |Jamos(text[..a])| + j;
    PrefixLetters(text, a);
    OwnerSpan(text, i, a);
    RangeLetters(text, a, b - 1);
    RangeLetters(text, a, b);
    OwnerSpan(text, i + |pattern| - 1, b - 1);
  }

  lemma WholeOccurs(text: string)
    requires text != ""
    ensures OccursAt(text, Jamos(text), 0) && |Jamos(text)| > |Jamos(Init(text))|
  {
    hide Decompose;
    assert Jamos(text)[0..0 + |Jamos(text)|] == Jamos(text);
  }

  lemma WholeSlices(text: string)
    requires text != ""
    ensures text[0..|text|] == text && text[0..|text| - 1] == Init(text)
  {
  }

  /** A text's own letters match the whole of it, as one range. */
  lemma OwnLettersMatch(text: string)
    requires text != ""
    ensures Jamos(text) != "" && Tight(text, Jamos(text), 0, |text|)
  {
    hide Decompose, Jamos, OccursAt, Init;
    WholeOccurs(text);
    WholeSlices(text);
  }

  // ---------- the algorithm ----------

  type Span = (nat, nat)

  predicate Before(x: Span, y: Span) { x.0 < y.0 || (x.0 == y.0 && x.1 < y.1) }

  predicate Ascending(s: seq<Span>) {
    forall i, j | 0 <= i < j < |s| :: !Before(s[j], s[i])
  }

  lemma OwnersSnoc(text: string, k: nat)
    requires k < |text|
    ensures Jamos(text[..k + 1]) == Jamos(text[..k]) + Decompose(text[k])
    ensures Owners(text[..k + 1]) == Owners(text[..k]) + seq(|Decompose(text[k])|, _ => k)
    ensures Offset(text, k + 1) == Offset(text, k) + Utf8Len(text[k])
  {
    hide Decompose;
    assert Init(text[..k + 1]) == text[..k];
  }

  /** Letters and, for each, the byte position of its character. */
  method DecomposeWithMapping(text: string) returns (jamoSeq: string, mapping: seq<nat>)
    ensures jamoSeq == Jamos(text) && |mapping| == |jamoSeq|
    ensures forall i | 0 <= i < |mapping| :: mapping[i] == Offset(text, Owners(text)[i])
  {
    hide Jamos, Owners, Offset, Utf8Len, FromSyllable;
    jamoSeq, mapping := "", [];
    var idx := 0;
    NoLetters(text);
    for k := 0 to |text|
      invariant idx == Offset(text, k)
      invariant jamoSeq == Jamos(text[..k]) && |mapping| == |jamoSeq|
      invariant forall i | 0 <= i < |mapping| :: mapping[i] == Offset(text, Owners(text[..k])[i])
    {
      var c := text[k];
      OwnersSnoc(text, k);
      var letters := Letters(c);
      jamoSeq := jamoSeq + letters;
      mapping := mapping + seq(|letters|, _ => idx);
      idx := idx + Utf8Len(c);
    }
    assert text[..|text|] == text;
  }

  lemma NoLetters(text: string)
    ensures Jamos(text[..0]) == "" && Owners(text[..0]) == [] && Offset(text, 0) == 0
  {
  }

  /** The letters of one character, pushed one at a time. */
  method Letters(c: char) returns (letters: string)
    ensures letters == Decompose(c)
  {
    match FromSyllable(c) {
      case Some(h) =>
        letters := [ChoCompat(h.cho.value)];
        letters := letters + [JungCompat(h.jung.value)];
        if h.jong.value != 0 {
          letters := letters + [JongCompat(h.jong.value)];
        }
      case None =>
        letters := [c];
    }
  }

  /** The byte after the character that starts at byte `start`. The fallback, the end of the
      text, is never reached. */
  method EndByte(text: string, start: nat, ghost k: nat) returns (end: int)
    requires k < |text| && start == Offset(text, k)
    ensures end == Offset(text, k + 1)
  {
    var idx: int := 0;
    for m := 0 to |text|
      invariant idx == Offset(text, m) && m <= k
    {
      if m < k {
        OffsetGrows(text, m, k);
      }
      if idx == start {
        return idx + Utf8Len(text[m]);
      }
      idx := idx + Utf8Len(text[m]);
    }
    assert false;
    end := idx;
  }

  function Insert(s: seq<Span>, x: Span): seq<Span> {
    if s == [] || !Before(x, Last(s)) then s + [x] else Insert(Init(s), x) + [Last(s)]
  }

  lemma {:induction false} InsertKeeps(s: seq<Span>, x: Span)
    requires Ascending(s)
    ensures Ascending(Insert(s, x))
    ensures forall y :: y in Insert(s, x) <==> y in s || y == x
  {
    if s != [] && Before(x, Last(s)) {
      InsertKeeps(Init(s), x);
      assert s == Init(s) + [Last(s)];
      assert forall y <- Init(s) :: !Before(Last(s), y);
    }
  }

  /** The library sort, by its promise: ascending, the same spans. */
  method Sort(s: seq<Span>) returns (r: seq<Span>)
    ensures Ascending(r)
    ensures forall x :: x in r <==> x in s
  {
    r := [];
    for i := 0 to |s|
      invariant Ascending(r)
      invariant forall x :: x in r <==> x in s[..i]
    {
      InsertKeeps(r, s[i]);
      r := Insert(r, s[i]);
      assert s[..i + 1] == s[..i] + [s[i]];
    }
    assert s[..|s|] == s;
  }

  /** Drop repeated neighbours. */
  method Dedup(s: seq<Span>) returns (r: seq<Span>)
    requires Ascending(s)
    ensures forall i, j | 0 <= i < j < |r| :: Before(r[i], r[j])
    ensures forall x :: x in r <==> x in s
  {
    r := [];
    for i := 0 to |s|
      invariant forall k, j | 0 <= k < j < |r| :: Before(r[k], r[j])
      invariant forall x :: x in r <==> x in s[..i]
      invariant r == [] <==> i == 0
      invariant i > 0 ==> Last(r) == s[i - 1]
    {
      assert s[..i + 1] == s[..i] + [s[i]];
      if r == [] || Last(r) != s[i] {
        r := r + [s[i]];
      }
    }
    assert s[..|s|] == s;
  }

  function SpanAt(text: string, n: nat, i: nat): Span
    requires n > 0 && i + n <= |Jamos(text)|
  {
    (Offset(text, Owners(text)[i]), Offset(text, Owners(text)[i + n - 1] + 1))
  }

  predicate FoundBefore(text: string, pattern: string, limit: nat, x: Span)
    requires pattern != ""
  {
    exists k: nat | k < limit :: OccursAt(text, pattern, k) && x == SpanAt(text, |pattern|, k)
  }

  predicate IsMatch(text: string, pattern: string, x: Span) {
    exists a: nat, b: nat | a < b <= |text| :: Tight(text, pattern, a, b) && x == (Offset(text, a), Offset(text, b))
  }

  /** What the scan finds is exactly the tight ranges. */
  lemma FoundIsMatch(text: string, pattern: string, x: Span)
    requires pattern != ""
    ensures FoundBefore(text, pattern, |Jamos(text)| + 1, x) <==> IsMatch(text, pattern, x)
  {
    hide Tight, Jamos, Owners, Offset;
    if FoundBefore(text, pattern, |Jamos(text)| + 1, x) {
      var k: nat :| k < |Jamos(text)| + 1 && OccursAt(text, pattern, k) && x == SpanAt(text, |pattern|, k);
      OccurrenceIsTight(text, pattern, k);
      TightBounds(text, pattern, Owners(text)[k], Owners(text)[k + |pattern| - 1] + 1);
    }
    if IsMatch(text, pattern, x) {
      var a: nat, b: nat :| a < b <= |text| && Tight(text, pattern, a, b) && x == (Offset(text, a), Offset(text, b));
      var k := TightIsOccurrence(text, pattern, a, b);
      OccursBounds(text, pattern, k);
    }
  }

  lemma TightBounds(text: string, pattern: string, a: nat, b: nat)
    requires Tight(text, pattern, a, b)
    ensures a < b <= |text|
  {
  }

  lemma OccursBounds(text: string, pattern: string, k: nat)
    requires OccursAt(text, pattern, k)
    ensures k + |pattern| <= |Jamos(text)|
  {
  }

  /** Exactly the tight ranges are reported, each once, in order. */
  method FindPattern(text: string, pattern: string) returns (matches: seq<Span>)
    ensures pattern == "" ==> matches == []
    ensures pattern != "" ==> forall x :: x in matches <==> IsMatch(text, pattern, x)
    ensures forall i, j | 0 <= i < j < |matches| ::
              matches[i].0 < matches[j].0 || (matches[i].0 == matches[j].0 && matches[i].1 < matches[j].1)
  {
    hide Tight, Jamos, Owners, Offset, IsMatch;
    if pattern == "" {
      return [];
    }
    var jamoSeq, mapping := DecomposeWithMapping(text);
    var n := |pattern|;
    matches := [];
    if |jamoSeq| >= n {
      for i := 0 to |jamoSeq| - n + 1
        invariant forall x :: x in matches <==> FoundBefore(text, pattern, i, x)
      {
        hide FoundBefore;
        FoundMore(text, pattern, i);
        assert OccursAt(text, pattern, i) <==> jamoSeq[i..i + n] == pattern;
        if jamoSeq[i..i + n] == pattern {
          var endByte := EndByte(text, mapping[i + n - 1], Owners(text)[i + n - 1]);
          assert (mapping[i], endByte) == SpanAt(text, n, i);
          matches := matches + [(mapping[i], endByte)];
        }
      }
    }
    assert forall x :: x in matches <==> FoundBefore(text, pattern, |jamoSeq| + 1, x);
    forall x ensures x in matches <==> IsMatch(text, pattern, x) {
      FoundIsMatch(text, pattern, x);
    }
    matches := Sort(matches);
    matches := Dedup(matches);
  }

  lemma PriceLetters()
    ensures Decompose('\U{AC00}') == "\U{3131}\U{314F}" && Decompose('\U{ACA9}') == "\U{3131}\U{3155}\U{3131}"
  {
    assert FromSyllable('\U{AC00}') == Some(HangulChar(Some(0), Some(0), Some(0)));
    assert FromSyllable('\U{ACA9}') == Some(HangulChar(Some(0), Some(6), Some(1)));
  }

  /** The pattern of the example program, in the two syllables it is meant to find. */
  lemma PriceFound()
    ensures IsMatch("\U{AC00}\U{ACA9}", "\U{3131}\U{314F}\U{3131}\U{3155}\U{3131}", (0, 6))
    ensures IsMatch("\U{AC00}", "\U{3131}\U{314F}", (0, 3))
  {
    hide Tight, Decompose, Offset, Jamos, IsSyllable;
    var first, text := "\U{AC00}", "\U{AC00}\U{ACA9}";
    PriceLetters();
    JamosNothing();
    JamosSnoc("", '\U{AC00}');
    JamosSnoc(first, '\U{ACA9}');
    assert "" + ['\U{AC00}'] == first && first + ['\U{ACA9}'] == text;
    assert Jamos(first) == "\U{3131}\U{314F}";
    assert Jamos(text) == "\U{3131}\U{314F}\U{3131}\U{3155}\U{3131}";
    OwnLettersMatch(first);
    OwnLettersMatch(text);
    BlockBounds('\U{AC00}');
    BlockBounds('\U{ACA9}');
    OffsetCounts(first, 0);
    OffsetCounts(first, 1);
    OffsetCounts(text, 0);
    OffsetCounts(text, 2);
  }

  lemma FoundMore(text: string, pattern: string, i: nat)
    requires pattern != "" && i + |pattern| <= |Jamos(text)|
    ensures forall x :: FoundBefore(text, pattern, i + 1, x) <==>
              FoundBefore(text, pattern, i, x) || (OccursAt(text, pattern, i) && x == SpanAt(text, |pattern|, i))
  {
    hide Jamos, Owners, Offset;
    forall x ensures FoundBefore(text, pattern, i + 1, x) <==>
              FoundBefore(text, pattern, i, x) || (OccursAt(text, pattern, i) && x == SpanAt(text, |pattern|, i))
    {
      if FoundBefore(text, pattern, i, x) {
        var k: nat :| k < i && OccursAt(text, pattern, k) && x == SpanAt(text, |pattern|, k);
        assert k < i + 1;
      }
      if OccursAt(text, pattern, i) && x == SpanAt(text, |pattern|, i) {
        assert i < i + 1;
      }
    }
  }
}
