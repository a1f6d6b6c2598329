# UNIM, verified

UNIM is a Korean input method. This project models its Hangul composition and what is built on
it, and proves that it does what typing Korean should do: which characters appear for which
keys, that no key is lost, doubled or moved, that backspace and undo are exact, that text
survives the trip to keystrokes and back, and where these things fail. Four smaller protocols
and algorithms of the same code base are verified beside it. `dafny verify dfyconfig.toml`
checks everything.

## How it is organised

*Letters and syllables.* `Jamo` holds the letters by sequence number (the numbers and the
conversions between initials and finals are those of src/hangul/jamo), `HangulChars` the
syllable arithmetic of section 3.12 of the Unicode Standard. `Fold` says what a queue of
letters means: three regions, each folded from the left through the layout's combination table.

*The composers.* `Composer`, `TwoBulComposer` and `ThreeBulComposer` are classes with the
fields of the structs in src/hangul/composer.rs, composer_with_2bul.rs and
composer_with_3bul.rs, updated in place: a queue of letters, a parallel queue of key
properties, two backup queues, the cached current syllable. Each method is proved equal to a
function of `Automaton`, which keeps every quirk (the rules look at the syllable cached before
the new letter; a region that does not combine leaves its old letter in the cache). The
two-set composer's three methods call each other; they terminate because of `Safe`, an
invariant of the cache. On that state machine stand:

- `Runs`, `CacheAgreement`: runs of keys, backspaces and commits, and exactly when the cache is
  what the queue means throughout them; backspace undoes a key if and only if the key joined
  the syllable.
- `TwoBulParser`, `TwoBulSound`, `TwoBulText`: two-set typing refines a reading with one key of lookahead
  (a consonant before a vowel opens a syllable, any other closes one if it can), although the
  composer itself has no lookahead and swallows the consonant first. `TotalReading` extends the
  reading to every key sequence, those that lose keys included, and `FinalText` judges typing by
  the text in the end.
- `ThreeBulParser`: three-set typing refines greedy segmentation into longest syllable blocks.
- `Bidirectional`, `EitherOrder`, `Anmatae`: combining letters in either order, and for which
  pairs and tables the order does not show.
- `InputContext`, `WordMode`, `ChordDrain`, `ContextUndo`: the input context, its word mode, its
  three kinds of backspace, and what they take back over whole runs.
- `Tables`, `Qwerty`, `TypeFix`, `RoundTrip`, `ThreeSetTrip`, `ThreeSetQwerty`,
  `KeystrokeTrip`, `ThreeSetKeys`: the built-in tables and the standard keyboards, conversion
  between keystrokes and text, and the round trips in both directions. `Spelling` gives the
  keys of every syllable and the legend of every key in plain characters.
- `SplitPoint`, `AutoTypeFix`, `ThreeSetSplit`: the automatic correction's search for the last
  character, on two-set and three-set layouts.

*Beside it.* `CivilDate` (build dates), `KeyQueue`, `KeyOrder` and `KeyStory` (re-entrant key events in
the GNOME extension), `AtomicSave` and `AtomicNames` (saving files), `RecentEmoji` and `JamoSearch`.

## What turned out to be false, and when it is true

- **Two-set typing can lose keys.** A consonant that is tried as a final and refused waits as
  a lone final, not as an initial (src/hangul/composer.rs:503-508). If another consonant
  follows, no rule rejects final-then-initial; a commit then yields nothing, and a vowel makes
  one syllable of the three letters, out of order. `FaithfulExactlyWhenClean`: the text is
  right after every keystroke if and only if no consonant jams in this way. A jam never mends
  itself: on tables like the standard one, where no three finals combine, the text in the end is
  right only if nothing jammed (`FinalTextExactly`, `StandardFinalText`). What appears
  otherwise is known too: `TotalText` gives the text of every key sequence, cell by cell, where
  a jam writes nothing and a jam with vowels writes one syllable. The keys of complete syllables
  never jam (`SyllablesSurviveTyping`).
- **Automatic correction does not always rebuild a jammed text.** It commits all characters but
  the last and replays some keys for the last one. `SplitExactly`: committed text plus replay is
  the corrected text if and only if the last cell that writes is not a jammed syllable; without
  jams the keys replayed are exactly the last character's (`SplitRebuilds`). On the standard
  layout g, a, g, g, g, n, a ends in a jammed syllable (`EndsInJam`); with d, a after it the split
  is right again (`JamLeftBehind`). On three-set layouts the split always rebuilds the text
  (`ThreeSetSplitRebuilds`).
- **The bidirectional option breaks the cache on its own layout.** A reversed combination
  replaces only the last queued letter although it was made with the whole region.
  `ReversalExactlySafe`: the cache stays right if and only if the letter met was alone in its
  region. `RunAgreesExactly`: a run keeps it right throughout if and only if that never happens
  in it. `CacheAgreesExactly`: all runs do if and only if no result of the table combines in
  reverse. The option takes effect only on layouts marked `supports_moachigi`
  (src/input_engine/mod.rs:92, src/keystroke/profile/schema.rs:407), and the one built-in layout
  so marked, ko_3bul_anmatae, has such results (`AnmataeReusesResults`).
- **Typing order can show.** For a pair that the table combines in one order only,
  `OrderBlindExactly` says when the other order gives the same text and syllables after any run
  and before any continuation without a backspace: if and only if the combination does not itself
  combine in reverse or, for finals, what it becomes combines with no final after it and not with
  the pair's first letter before it. A backspace tells the two orders of any pair apart
  (`BackspaceShowsOrder`). On ko_3bul_anmatae
  that is every pair but two, a with i and eo with i (`AnmataeExactly`); `AnmataeOrderMatters`
  gives the keys: g, a, i, o and a final g commit the syllable without the final, g, i, a, o and
  the same final do not.
- **Text does not always survive the trip to keystrokes.** Standalone letters have no
  keystrokes and letters of the Latin keyboard come back as Korean. `StandardRoundTrip`: the
  text survives if and only if it has neither. On ko_3bul390 the characters that keys of the layout
  type instead of letters are lost as well, because the composer ignores such keys
  (`ThreeSetTripExactly`): over QWERTY no printable ASCII character survives, not even a comma or
  a digit (`Standard390RoundTrip`).
- **Keystrokes do not always survive the trip to Korean.** `KeystrokesRoundTripExactly`: they do
  if and only if, between the characters that are no keys, they type whole syllables without a
  jam, each with the letters the converter takes it apart into and each letter with the key the
  converter chooses. The usual spelling of a double final with one shifted key does not:
  dlT comes back as dltt (`ShiftedFinalIsUndone`). `ThreeSetKeysExactly` is the condition for
  ko_3bul390: longest blocks instead of clean groups, and no key that types anything but a letter.
- **Keys are not always settled in the order they arrive.** In the GNOME extension a key that the
  engine leaves, without a commit or without an answer, goes to the compositor after the keys that
  came in during its call have been served (`OutOfOrder` is such a session). `OrderedExactly`: keys
  are settled in arrival order if and only if this happens to no key while a key that can be copied
  arrives. `InversionExactly` says which two settlements of a session are out of order. Keys dropped
  on arrival because the event could not be copied are left aside.
- **A vowel with a final and no initial is nothing** on a three-set keyboard: it is the only
  block that commits no character (`SegmentCharacter`).
- **An injected chord is not always shown.** The grammar rules look at the cached syllable,
  which injection has just cleared, so a two-set composer refuses vowel and final, and a
  three-set one initial and final: the letters are queued but the composition line is empty.
  `InjectShowsExactly` gives the exact condition. The cache is then
  wrong as well. `RightExactly`: over a whole run of the input context it is right throughout if
  and only if no such chord is queued, and then backspace is exact (`BackspaceInRuns`).
- **A shared temporary name tears the file.** `WholeExactly`: starting from writers that have done
  nothing yet, every schedule keeps the target whole if and only if no temporary name is the target
  and no two writers share one unless both have nothing to write; so with something to write, names
  of their own are exactly what it takes (`OwnNamesExactly`). The schedules that tear need no failed
  step when a name is shared (`SharedNameTears`, `MixedTorn`).
- **Where comments and code differ, the project follows the code.** The three-set rules are
  described as rejecting a final that comes first (src/hangul/composer_with_3bul.rs:31); the
  code accepts it, alone or after a vowel without initial. Injection is described as always
  composing the right syllable (src/hangul/input_context.rs:557-559); see above.

## Assumptions

Combination tables are parameters. Where a theorem needs it, it says so: no two initials
combine (`NoInitialPairs`; the two-set tables have no such entry), results are letters that a
keyboard can produce (`ProperTable`), a combination is never its own first letter
(`Progressing`) or never its own second (`NewLetter`), no three finals combine (`ShortFinals`).
`StdFits` and `StdShort` prove all but `NewLetter` of the standard table, `AnmataeNewLetter` proves
that of ko_3bul_anmatae. Keys of two-set theorems are
initials and vowels; the two-set layouts attach no property to a key, so the key property is
the default one there. The chord composer is a parameter, as are the suppression list, the
English dictionary, the English layout and the clock of automatic correction. Its syllable
threshold may be 0, although the configuration keeps it between 2 and 6
(src/config.rs:307-308): then `CheckForward` may take the last character off an empty text, which
stops the program. The world around the GNOME key handler (what the
daemon answers, what arrives meanwhile) is an arbitrary finite script.

## Model

| member | source | states |
|---|---|---|
| Jamo.ToJong | src/hangul/jamo/cho.rs:231-262 | the final of an initial leads back to that initial, and is never the empty final |
| Jamo.LiftedFinalLooksAlike | src/hangul/jamo/jong.rs:155-190 | a lone final is shown as the same letter as the initial it came from |
| Jamo.CompatRange | src/hangul/jamo/cho.rs:118-145 | standalone letters lie in the compatibility block, outside the syllable block; which letter each is follows from the rows below |
| Jamo.VowelLetters | src/hangul/jamo/jung.rs:122-130 | the 21 vowels are shown as U+314F to U+3163 in the order of their numbers, the fillers as U+3164 |
| Jamo.InitialLetters | src/hangul/jamo/cho.rs:118-145 | initials are shown, in the order of their numbers, as letters from U+3131 to U+314E that are none of the eleven clusters |
| Jamo.InitialShownAs | src/hangul/jamo/cho.rs:118-145 | every such letter is an initial's |
| Jamo.FinalLetters | src/hangul/jamo/jong.rs:155-190 | finals are shown, in the order of their numbers, as letters from U+3131 to U+314E other than U+3138, U+3143 and U+3149 |
| Jamo.FinalShownAs | src/hangul/jamo/jong.rs:155-190 | every such letter is a final's |
| Jamo.ClosesExactly | src/hangul/jamo/cho.rs:231-262 | the initials without a final are exactly those shown as these three letters |
| Jamo.OpensExactly | src/hangul/jamo/jong.rs:292-320 | the finals without an initial are exactly the clusters |
| HangulChars.SyllableCode | src/hangul/char.rs:605-626 | letters in range always give a code from U+AC00 to U+D7A3 |
| HangulChars.FromSyllable | src/hangul/char.rs:201-224 | succeeds exactly on the characters from U+AC00 to U+D7A3, and then fills all three letters |
| HangulChars.BlockBounds | src/hangul/char.rs:201-211 | the syllable block is U+AC00 to U+D7A3 |
| HangulChars.SyllablesAscend | src/hangul/char.rs:603-632 | complete syllables are characters of that block in the order of initial, vowel and final, first and last included, with no final and the empty final alike |
| HangulChars.ShownAlone | src/hangul/char.rs:633-637 | a lone letter is shown as its standalone letter, an incomplete syllable as its letters side by side, the final last |
| HangulChars.RenderExactly | src/hangul/composer.rs:531-542 | a syllable closed early is emitted as a commit would emit it, except that a lone filler is emitted as U+3164 |
| HangulChars.SyllableRoundTrip | src/hangul/char.rs:589-640 | taking any syllable apart and composing it gives it back |
| HangulChars.LettersRoundTrip | src/hangul/char.rs:201-224 | composing any three letters and taking the syllable apart gives them back: the arithmetic is injective |
| HangulChars.SyllablesDiffer | src/hangul/char.rs:603-626 | syllables that differ only in the final are different characters |
| Fold.FoldKeepsKind | src/hangul/composer.rs:708-827 | folding a region never leaves its kind, and a region with letters is never vacant |
| Fold.FoldedSnoc | src/hangul/composer.rs:708-827 | the syllable of a queue with one more letter follows from the syllable of the queue without it |
| Fold.FoldedPrefix | src/hangul/composer.rs:604-612 | every prefix of a queue that combines combines too, so taking letters back never gets stuck |
| Fold.FilledIffPresent | src/hangul/composer.rs:399-425 | a region of the syllable is filled exactly when the queue has a letter of that kind |
| Fold.RefoldForgets | src/hangul/composer.rs:623-640 | when recomposition succeeds, the stale syllable has no influence on the result |
| Fold.RejectedLetterIsHarmless | src/hangul/composer.rs:708-827 | a refused letter leaves a correct cache unchanged although the regions are recomputed one by one |
| Fold.FirstVowelDecides | src/hangul/composer.rs:751-795 | vowels combine only if the key of the first of them may start a compound; otherwise the keys do not matter |
| Composer.StuckStays | src/hangul/composer.rs:724-737 | giving up at the first pair that does not combine is right: no later letter can make the region combine |
| Composer.BaseHangulComposer.PushBackSynced | src/hangul/composer.rs:254-258 | letters and key properties grow together |
| Composer.BaseHangulComposer.PopBackSynced | src/hangul/composer.rs:260-265 | the last letter and its property go together; an empty queue stays empty |
| Composer.BaseHangulComposer.BackupToLastSynced | src/hangul/composer.rs:273-280 | both queues move to the backup queues and become empty |
| Composer.BaseHangulComposer.FoldPhonemes | src/hangul/composer.rs:751-795 | the loop with early exit and the first-vowel rule computes the left fold of the region, or finds that there is none |
| Composer.BaseHangulComposer.ComposeCho | src/hangul/composer.rs:708-738 | the initial becomes the fold of the queued initials, is cleared if there are none, and keeps its old value if they do not combine |
| Composer.BaseHangulComposer.ComposeJung | src/hangul/composer.rs:751-795 | the same for vowels, where a first vowel may refuse to combine |
| Composer.BaseHangulComposer.ComposeJong | src/hangul/composer.rs:797-827 | the same for finals |
| Composer.BaseHangulComposer.ComposeKorean | src/hangul/composer.rs:623-640 | recomputes all three regions also after one has failed |
| Composer.BaseHangulComposer.CheckViolation | src/hangul/composer_with_2bul.rs:38-64 | reports exactly the grammar violations of the keyboard, judged from the last two letters and the cached syllable |
| Composer.BaseHangulComposer.ComposeUnder | src/hangul/composer_with_2bul.rs:163-182 | the closure each keyboard passes: empty queue, then rules, then recomposition |
| Composer.BaseHangulComposer.AddJamoWith | src/hangul/composer.rs:462-518 | push, try, and on failure pop, close and restart: new queue, new cache and emitted character, all exactly |
| Composer.BaseHangulComposer.RemoveJamo | src/hangul/composer.rs:604-612 | pops the last letter, returns it and recomposes the rest |
| Composer.BaseHangulComposer.ForceComposeKorean | src/hangul/composer.rs:667-680 | emits the pending character if there is one and leaves a fresh composer |
| Automaton.Reversed | src/hangul/composer_with_3bul.rs:160-222 | a reversed combination is of the kind typed and needs a last queued letter of that kind |
| Automaton.FeedAppend | src/hangul/composer.rs:462-518 | typing two stretches is typing the second where the first ended |
| Automaton.AddWithCoherent | src/hangul/composer.rs:462-518 | in a state whose cache is right, push-try-restart is a decision on the queue: the letter joins when the longer queue breaks no rule and combines, else the old syllable is emitted and the letter starts a new one; the cache stays right |
| Automaton.NoVowelAfterFinal | src/hangul/composer_with_2bul.rs:38-64 | on neither keyboard a vowel joins a queue that ends in a final, whatever is cached |
| Automaton.SingleVowelCloses | src/hangul/composer.rs:742-774 | a further vowel after one that may not start a compound closes the syllable and opens the next |
| Automaton.RemoveCoherent | src/hangul/composer.rs:604-612 | backspace leaves exactly the state that the shorter queue means |
| Automaton.ForceCoherent | src/hangul/composer.rs:667-680 | a commit emits the cached syllable and leaves a fresh composer |
| Automaton.CarryCoherent | src/hangul/composer_with_2bul.rs:115-132 | a vowel after a final: the syllable is closed without that final, which becomes the initial of the new one together with the vowel |
| Automaton.LostCarry | src/hangul/composer_with_2bul.rs:115-132 | a final that cannot open a syllable is forgotten with the syllable before it, which only a cluster fed directly as a final can be |
| Automaton.Add2Coherent | src/hangul/composer_with_2bul.rs:151-183 | every two-set key keeps the cache right and the recursion's invariant |
| TwoBulComposer.HangulComposer2Bul.HandleDokkaebiEffect | src/hangul/composer_with_2bul.rs:115-132 | acts exactly on a vowel after a final, hands over the completed character, and terminates |
| TwoBulComposer.HangulComposer2Bul.HandleChoAfterJung | src/hangul/composer_with_2bul.rs:138-147 | acts exactly when initial and vowel are filled and the new initial has a final |
| TwoBulComposer.HangulComposer2Bul.AddJamo | src/hangul/composer_with_2bul.rs:151-183 | one key, with its recursion, has exactly the effect of the transition function; the recursion terminates |
| TwoBulComposer.HangulComposer2Bul.AddJamoWithMeta | src/hangul/composer_with_2bul.rs:185-209 | the same with a key property, which only an unconverted letter keeps |
| TwoBulComposer.Add2Safe | src/hangul/composer_with_2bul.rs:115-164 | the termination invariant survives every key, from any state that has it |
| CacheAgreement.CacheAgrees | src/hangul/composer.rs:478-517 | after every run of keys, backspaces and commits all regions combine, the cached syllable is what they combine to, and an empty queue means an empty syllable; with the bidirectional option, for tables without a result that combines in reverse |
| CacheAgreement.CacheAgreesExactly | src/hangul/composer_with_3bul.rs:160-222 | with the option on, the cache is right in every run if and only if no result of the table combines in reverse |
| CacheAgreement.RunAgreesExactly | src/hangul/composer_with_3bul.rs:160-222 | a single run keeps the cache right throughout, with any table, if and only if no reversal in it meets a region of more than one letter |
| CacheAgreement.NoSyllableDiscarded | src/hangul/composer_with_2bul.rs:115-132 | after every run in which only initials and vowels are typed, with backspaces and commits anywhere, a vowel that carries a final over hands the completed syllable over: the branch that drops it is never taken |
| CacheAgreement.AlwaysSafe | src/hangul/composer_with_2bul.rs:115-164 | in every such run the two-set recursion starts from a state in which it terminates |
| CacheAgreement.BackspaceUndoesExactly | src/hangul/composer.rs:604-612 | from a state whose cache is right, backspace after a key restores queue and syllable if and only if the key joined the syllable being composed: with either keyboard, any table, option on or off |
| CacheAgreement.CommitsWhatIsShown | src/hangul/input_context.rs:356-377 | a commit adds exactly what the composition line shows if and only if that is a single character; otherwise the letters shown are lost |
| TwoBulParser.BlockIsFolded | src/hangul/composer.rs:708-827 | the queue the composer holds for a written character folds to exactly that character's letters |
| TwoBulParser.OneCharacter | src/hangul/char.rs:589-640 | every group is one character, the same whether closed by a key or by a commit, and a syllable exactly when it has initial and vowel |
| TwoBulParser.ParseSegments | src/hangul/composer_with_2bul.rs:115-209 | the groups are well-formed characters whose keys, end to end, are the keys typed: none lost, doubled or moved |
| TwoBulSound.ParseSound | src/hangul/composer_with_2bul.rs:115-209 | on every clean key sequence the composer commits exactly the groups of the lookahead reading but the last, and holds the last one, across every carried final |
| TwoBulText.ReadText | src/hangul/composer_with_2bul.rs:115-209 | on clean keys the committed text plus a final commit is the reading, one character per group |
| TwoBulText.CleanPrefix | src/hangul/composer_with_2bul.rs:115-209 | every prefix of clean keys is clean |
| TwoBulText.FindJam | src/hangul/composer.rs:503-508 | keys that are not clean have a first jam: a refused final followed by a consonant |
| TwoBulText.JamLosesKeys | src/hangul/composer_with_2bul.rs:51-64 | the two consonants of a jam leave nothing to commit |
| TwoBulText.FaithfulExactlyWhenClean | src/hangul/composer_with_2bul.rs:115-209 | the text is right after every keystroke if and only if no consonant jams |
| FinalText.NeverAhead | src/hangul/composer_with_2bul.rs:115-209 | however cells and groups drift apart after a jam, the text is never longer than the reading by more than that drift |
| FinalText.FinalTextExactly | src/hangul/composer_with_2bul.rs:115-209 | for tables in which no three finals combine, the text after the last key and a commit is the reading if and only if no consonant jammed |
| FinalText.StandardFinalText | src/keystroke/keymap/ko_2bulstd.json:27-54 | so it is on the standard layout |
| TotalReading.CellsCover | src/hangul/composer_with_2bul.rs:115-209 | for every key sequence, jams included, the cells' keys end to end are the keys typed |
| TotalReading.CellFolds | src/hangul/composer.rs:708-827 | the queue at a cell, with a refused final ahead of it if there is one, folds to the cell's letters |
| TotalReading.CellCharacter | src/hangul/composer.rs:531-542 | a jam writes nothing, every other cell one character, by split and commit alike; a jammed syllable is a syllable |
| TotalReading.CellsSound | src/hangul/composer_with_2bul.rs:115-209 | on every key sequence whatever the composer commits all cells but the last and holds the last |
| TotalReading.TotalText | src/hangul/composer_with_2bul.rs:115-209 | the text after any keys is what their cells write, one after another |
| TotalReading.CleanCells | src/hangul/composer.rs:503-508 | on clean keys the cells are the groups of the lookahead reading |
| ThreeBulComposer.HangulComposer3Bul.CombineReversed | src/hangul/composer_with_3bul.rs:171-222 | replaces the last letter by the reversed combination exactly when the table has that one and not the forward one |
| ThreeBulComposer.HangulComposer3Bul.AddJamoWithMeta | src/hangul/composer_with_3bul.rs:143-237 | one key has exactly the effect of the transition function, option on or off |
| ThreeBulParser.BlockSnoc | src/hangul/composer_with_3bul.rs:40-69 | the rules on the last two letters decide exactly whether one more letter keeps a syllable block |
| ThreeBulParser.LongestIsLongest | src/hangul/composer_with_3bul.rs:40-69 | the prefixes that are blocks are exactly those up to the longest |
| ThreeBulParser.SegmentCovers | src/hangul/composer_with_3bul.rs:225-236 | the segments are blocks whose letters, end to end, are the letters typed |
| ThreeBulParser.ThreeBulIsGreedy | src/hangul/composer_with_3bul.rs:143-237 | on every letter sequence the composer commits exactly the greedy longest blocks but the last, and holds the last |
| ThreeBulParser.SegmentCharacter | src/hangul/composer.rs:531-542 | every block is one character by split and commit alike, except vowel and final without initial, which is nothing |
| ThreeBulParser.ThreeBulText | src/hangul/composer_with_3bul.rs:143-237 | the text shown after any letters is the greedy segments, one after another |
| Bidirectional.ReversalExactlySafe | src/hangul/composer_with_3bul.rs:171-222 | for a table whose results are never their own second letter, a reversed combination keeps the cache right if and only if the letter it met was alone in its region |
| Bidirectional.ForwardWins | src/hangul/composer_with_3bul.rs:171-222 | where the table combines in the order typed, the option changes nothing |
| Bidirectional.Add3Coherent | src/hangul/composer_with_3bul.rs:143-237 | if no result of the table combines in reverse, every key keeps the cache right with the option on |
| Bidirectional.SaneRun | src/hangul/composer_with_3bul.rs:40-69 | in every run, stale cache or not, the queue stays in initial-vowel-final order and a queue without vowels has no vowel cached, so the rules on the last two letters mean order |
| EitherOrder.TwinsAct | src/hangul/composer_with_3bul.rs:143-237 | states whose queues combine alike region by region, with the same cache, emit the same and stay alike under every key and commit, whether the cache is right or not |
| EitherOrder.OrderDoesNotMatter | src/hangul/composer_with_3bul.rs:160-235 | a blind pair typed in either order, after any run that leaves its region empty, gives the same text and syllable for every continuation of keys and commits |
| EitherOrder.OrderMatters | src/hangul/composer_with_3bul.rs:160-235 | for every other pair there is a continuation, from a fresh composer, that shows the order |
| EitherOrder.OrderBlindExactly | src/hangul/composer_with_3bul.rs:160-235 | the order of a pair never shows, before a backspace, if and only if its combination does not combine in reverse or, for finals, what it becomes combines with no final after it and not with the pair's first letter before it |
| EitherOrder.BackspaceShowsOrder | src/hangul/composer.rs:604-612 | after any run that leaves the region empty, a pair that combines in one order only and a backspace show different syllables for its two orders |
| Anmatae.Three390IsSafe | src/keystroke/keymap/ko_3bul390.json:27-58 | no result of the base table of ko_3bul390 combines in reverse |
| Anmatae.AnmataeNewLetter | src/keystroke/keymap/ko_3bul_anmatae.json:40-92 | no combination of ko_3bul_anmatae is its own second letter |
| Anmatae.AnmataeReusesResults | src/keystroke/keymap/ko_3bul_anmatae.json:40-92 | results of ko_3bul_anmatae do combine in reverse |
| Anmatae.AnmataeExactly | src/keystroke/keymap/ko_3bul_anmatae.json:40-92 | of the pairs that ko_3bul_anmatae combines in one order only, exactly a with i and eo with i show their order |
| Anmatae.SplitsItsOwnVowel | src/hangul/composer_with_3bul.rs:189-205 | g, a, i, o shows one syllable whose queue no longer combines; the next final splits off |
| Anmatae.AnmataeOrderMatters | src/hangul/composer_with_3bul.rs:160-235 | from a fresh composer, g, a, i, o, final g commits the syllable and leaves the final; g, i, a, o, final g is one syllable |
| InputContext.RecomposedIsSafe | src/hangul/input_context.rs:556-571 | rebuilding a queue by hand keeps the invariant under which the two-set composer terminates |
| InputContext.LastOf | src/hangul/input_context.rs:245-258 | finds the latest letter of a kind, or that there is none |
| InputContext.HangulInputContext.UpdatePreedit | src/hangul/input_context.rs:597-625 | the composition line is the syllable, or its letters side by side |
| InputContext.HangulInputContext.ComposeAndRoute | src/hangul/input_context.rs:195-205 | a completed character goes to the word or to the committed text, nothing else changes but composer and composition line |
| InputContext.HangulInputContext.ProcessJamoWithMeta | src/hangul/input_context.rs:152-183 | ends chord tracking, records the key in word mode, composes and routes |
| InputContext.HangulInputContext.CommitComposing | src/hangul/input_context.rs:356-377 | flushes word and pending character in order and leaves nothing composing |
| InputContext.HangulInputContext.AppendToCommitted | src/hangul/input_context.rs:385-388 | commits, then appends the character |
| InputContext.HangulInputContext.ClearComposingState | src/hangul/input_context.rs:423-430 | forgets everything but the committed text and the mode |
| InputContext.HangulInputContext.SetAccumulateWord | src/hangul/input_context.rs:457-466 | switching word mode off flushes the word |
| InputContext.HangulInputContext.InjectChordSyllable | src/hangul/input_context.rs:540-573 | queue, syllable and order are those of the chord; an empty chord changes nothing |
| InputContext.HangulInputContext.BackspaceWord | src/hangul/input_context.rs:220-238 | drops the last recorded key and replays the others |
| InputContext.HangulInputContext.BackspaceChord | src/hangul/input_context.rs:241-307 | takes one letter out of the chord and recomposes the rest, or drops it |
| InputContext.HangulInputContext.BackspaceKey | src/hangul/input_context.rs:216-322 | the three kinds of backspace in their order of precedence; what each takes back is said by WordMode.WordModeUndo, ChordDrain.ChordBackspaces and ContextUndo.BackspaceInRuns |
| ContextUndo.RightExactly | src/hangul/input_context.rs:152-573 | with a table whose results do not combine in reverse: in every run of keys, commits, separators, injected chords, backspaces, clearings and mode switches the cache is right throughout if and only if no chord that the rules refuse is queued |
| ContextUndo.KeyTakenBack | src/hangul/input_context.rs:309-316 | outside word mode a backspace right after a key ends at the composer, line and committed text before the key, with no chord to take apart, if and only if the key joined the syllable being composed |
| ContextUndo.TakesLastLetter | src/hangul/input_context.rs:309-316 | outside word and chord mode, with letters queued, a backspace takes exactly the last one: composer and line are what the shorter queue means, nothing else changes |
| ContextUndo.TakesLastCharacter | src/hangul/input_context.rs:321-321 | with nothing queued it takes exactly the last committed character, if there is one, and nothing else |
| ContextUndo.SeparatorTakenBack | src/hangul/input_context.rs:356-388 | a commit ends chord tracking and composition; a backspace after a separator takes exactly the separator |
| ContextUndo.ClearingEndsAll | src/hangul/input_context.rs:423-430 | clearing gives up word, chord and syllable, and no committed text |
| ContextUndo.BackspaceInRuns | src/hangul/input_context.rs:216-322 | all this after every run in which no refused chord was queued |
| WordMode.WordModeSimulates | src/hangul/input_context.rs:152-205 | for every interleaving of keys, commits and separators word mode and syllable mode show the same text, and have committed the same after each commit, and any of these operations ends chord tracking in both |
| WordMode.EnteringWordMode | src/hangul/input_context.rs:457-466 | switching word mode on changes nothing that is shown, at any moment |
| WordMode.LeavingWordMode | src/hangul/input_context.rs:457-466 | leaving word mode after any operations gives exactly the text, composition line and composer of syllable mode |
| WordMode.RecordedKeysDecide | src/hangul/input_context.rs:220-238 | a word-mode context is what its recorded keys make of a fresh composer |
| WordMode.WordModeUndo | src/hangul/input_context.rs:220-238 | m backspaces after n keys leave exactly what the first n-m keys alone leave, across syllables |
| ChordDrain.DrainOrder | src/hangul/input_context.rs:241-262 | a chord's letters leave finals first, then vowels, then initials, each kind latest first |
| ChordDrain.StepRemoves | src/hangul/input_context.rs:241-265 | the m-th backspace takes out the m-th letter of that order |
| ChordDrain.ChordBackspaces | src/hangul/input_context.rs:241-307 | while recomposition succeeds, m backspaces take m letters and no committed text; the composer holds the recomposed chord and is empty after the last letter, or if a chord without letters came back |
| ChordDrain.ChordDropped | src/hangul/input_context.rs:299-306 | the first recomposition that fails drops the rest of the chord at once, and no committed text |
| ChordDrain.ChordLastsExactly | src/hangul/input_context.rs:241-307 | chord letters are left after m backspaces if and only if there were more and the recompositions succeeded |
| ChordDrain.InjectShowsExactly | src/hangul/input_context.rs:540-573 | an injected chord is shown, with the cache right, if and only if the rules applied to the cleared syllable let it through |
| Tables.StdFits | src/keystroke/keymap/ko_2bulstd.json:27-54 | the standard table has no initial pairs, proper results, and no combination equal to its first letter |
| Tables.VowelEntries | src/keystroke/korean_to_keystrokes.rs:147-157 | two vowels combine in the standard table if and only if the converter takes the result apart into them |
| Tables.FinalEntries | src/keystroke/korean_to_keystrokes.rs:168-185 | so do two finals |
| Tables.FinalKeysCompose | src/keystroke/korean_to_keystrokes.rs:170-185 | the keys that every final is taken apart into compose that final again |
| Tables.CanonicalMeans | src/keystroke/korean_to_keystrokes.rs:200-255 | for all 11172 syllables the keys it is taken apart into form one group that writes it |
| Qwerty.QwertyFits | src/keystroke/keyboard_map.rs:76-120 | the standard keyboard types initials and vowels only, has a key for every simple letter, and its reverse map picks one of them |
| Qwerty.LowerCaseWins | src/keystroke/korean_to_keystrokes.rs:77-121 | the key chosen for a letter is lower case when some lower-case key types it |
| Spelling.StandardSpelling | src/keystroke/keymap/ko_2bulstd.json:14-26 | for each of the 11172 syllables the keys of the standard keyboard that the converter writes it with, letter by letter |
| Spelling.ShiftedKeys | src/keystroke/keymap/ko_2bulstd.json:14-26 | shift changes the letter of seven keys only |
| Spelling.Examples | src/typefix.rs:99-165 | the examples gksrmf, dkssudgktpdy and gksrmf123 convert to the texts given there, and the first two back |
| Qwerty.StandardRoundTrip | src/typefix.rs:128-142 | on the standard keyboard a text survives keystrokes and back if and only if each character is in U+AC00 to U+D7A3, or neither in U+1100 to U+11FF, nor in U+3130 to U+318F, nor a Latin letter |
| TypeFix.EngToKor | src/typefix.rs:22-50 | the loop over a mutable context computes the conversion |
| TypeFix.SeparatorsCut | src/typefix.rs:38-49 | a character that is no key cuts composition: the two sides convert independently, with either keyboard |
| RoundTrip.ReadSyllables | src/hangul/composer_with_2bul.rs:115-147 | the keys of complete syllables read as exactly those syllables, though every initial could close the one before |
| RoundTrip.SyllablesSurviveTyping | src/hangul/input_context.rs:356-376 | typing the keys of any complete syllables and committing yields exactly them |
| RoundTrip.KoreanToKeystrokes | src/keystroke/korean_to_keystrokes.rs:31-67 | the converter's loop is the character-wise conversion, for two-set and three-set layouts, with the characters that keys type instead of letters |
| RoundTrip.AppendSyllableKeystrokes | src/keystroke/korean_to_keystrokes.rs:200-330 | a syllable becomes the chosen keys of the letters it is taken apart into, in order; letters without a key are skipped |
| RoundTrip.SyllablesRoundTrip | src/typefix.rs:128-142 | any text of syllables survives the trip to keystrokes and back |
| RoundTrip.NoKeyInOutput | src/typefix.rs:38-49 | converted text is Hangul and characters of the input that are no keys; no typed key shows up in it, with either keyboard |
| RoundTrip.TextReturnsExactly | src/typefix.rs:128-142 | on any layout whose syllables survive, a text survives if and only if each character is a syllable, or neither Hangul nor a key nor typed by a key |
| RoundTrip.RoundTripExactly | src/typefix.rs:128-142 | on any two-set keyboard a text survives if and only if each character is a syllable, or neither Hangul nor a key |
| ThreeSetTrip.SyllableBlock | src/keystroke/korean_to_keystrokes.rs:200-330 | the letters a syllable is taken apart into for ko_3bul390 are one block that means the syllable |
| ThreeSetTrip.ThreeSetSyllables | src/typefix.rs:22-70 | any text of syllables survives the trip to three-set keystrokes and back |
| ThreeSetTrip.ThreeSetTripExactly | src/typefix.rs:22-70 | on any keyboard with ko_3bul390's table a text survives if and only if each character is a syllable, or neither Hangul nor a key nor typed by a key |
| ThreeSetQwerty.Qwerty390Fits | src/keystroke/keymap/ko_3bul390.json:13-26 | the keyboard has a key for every letter the converter does not take apart, and its reverse maps pick a key for every letter and every other character typed |
| ThreeSetQwerty.LowerKeyWins | src/keystroke/korean_to_keystrokes.rs:77-121 | a lower-case key is the one chosen for its letter, also where two keys type it |
| Spelling.Legend390 | src/keystroke/keymap/ko_3bul390.json:13-26 | what every key of ko_3bul390 on QWERTY shows, row by row, and which keys type finals |
| Spelling.Spelling390 | src/keystroke/korean_to_keystrokes.rs:200-330 | for each of the 11172 syllables the keys of ko_3bul390 that the converter writes it with |
| Spelling.MarkSpelling | src/keystroke/korean_to_keystrokes.rs:31-67 | a character that some key types instead of a letter is written with a key that types it |
| ThreeSetQwerty.Standard390RoundTrip | src/typefix.rs:22-70 | over QWERTY a text survives ko_3bul390 if and only if each character is in U+AC00 to U+D7A3, or neither in U+1100 to U+11FF, nor in U+3130 to U+318F, nor printable ASCII |
| KeystrokeTrip.RunExactly | src/typefix.rs:128-134 | keys without a separator survive Korean and back if and only if no consonant jams, every group is a whole syllable typed with the converter's letters, and every key is the converter's choice |
| KeystrokeTrip.KeystrokesRoundTripExactly | src/typefix.rs:128-134 | keystrokes survive if and only if every run between separators does so and no separator is Hangul |
| KeystrokeTrip.TripSplits | src/typefix.rs:38-49 | on any layout keys with a separator survive if and only if the parts do and the separator is neither Hangul nor typed by a key |
| ThreeSetKeys.BlocksExactly | src/typefix.rs:22-70 | three-set keys without a separator survive Korean and back if and only if all type letters, every longest block is a whole syllable in the converter's letters, and every key is the converter's choice |
| ThreeSetKeys.ThreeSetKeysExactly | src/typefix.rs:22-70 | three-set keystrokes survive if and only if every run between separators does so and no separator is Hangul or typed by a key |
| Qwerty.ShiftedFinalIsUndone | src/keystroke/korean_to_keystrokes.rs:170-185 | dlT converts to one syllable and comes back as dltt |
| SplitPoint.FinalChangesCharacter | src/auto_typefix/forward.rs:85-103 | one more final key gives a different character, so the search cannot stop one key late |
| SplitPoint.CutAtLast | src/auto_typefix/forward.rs:88-103 | for every key sequence of two characters or more the longest proper prefix that writes all but the last character, and what the keys after it write: the last character unless that is a jammed syllable |
| SplitPoint.ReadAlone | src/auto_typefix/forward.rs:105-123 | the keys of one character alone write that character |
| AutoTypeFix.RecentIs | src/auto_typefix/buffer.rs:103-113 | expiry drops a prefix of entries that are all too old and keeps the first that is not |
| AutoTypeFix.KeystrokeBuffer.Push | src/auto_typefix/buffer.rs:51-66 | only character keys other than space are recorded |
| AutoTypeFix.KeystrokeBuffer.PopLast | src/auto_typefix/buffer.rs:84-86 | drops the last entry and says whether there was one |
| AutoTypeFix.KeystrokeBuffer.Clear | src/auto_typefix/buffer.rs:69-77 | forgets entries, counters and word mode |
| AutoTypeFix.KeystrokeBuffer.Expire | src/auto_typefix/buffer.rs:103-113 | the loop keeps exactly the recent suffix |
| AutoTypeFix.KeystrokeBuffer.ToAsciiString | src/auto_typefix/buffer.rs:116-127 | the characters of the entries in order, skipping keys without one |
| AutoTypeFix.CheckForward | src/auto_typefix/forward.rs:16-137 | a buffer is corrected if and only if correction is on, it has two keys or more, they are neither suppressed nor an English word, and they convert to enough precomposed syllables with nothing else before the last character; the split is the longest proper prefix that converts to all characters but the last, or the whole buffer if there is none; commit text and replay keys follow from it; with a threshold of 0 it may stop on an empty text, else never |
| AutoTypeFix.CountIs | src/auto_typefix/dictionary.rs:12-23 | the count is the number of places that hold a character from U+AC00 to U+D7A3 |
| AutoTypeFix.LastSyllableStart | src/auto_typefix/forward.rs:85-103 | the loop from the whole buffer down to one key finds that prefix |
| AutoTypeFix.AsciiConcat | src/auto_typefix/buffer.rs:116-127 | the characters of two stretches of keys are those of the first, then those of the second |
| AutoTypeFix.SplitExactly | src/auto_typefix/forward.rs:76-121 | on every two-set buffer of two or more characters, jammed or not, committed text plus replay is the corrected text if and only if the last cell that writes is not a jammed syllable |
| AutoTypeFix.SplitRebuilds | src/auto_typefix/forward.rs:76-121 | on every clean buffer of two or more characters the split is where the last character's keys start, and committed text plus replay is the corrected text |
| AutoTypeFix.SyllablesSplit | src/auto_typefix/forward.rs:76-121 | for the canonical keys of two or more syllables: commit all but the last, replay exactly the last one's keys |
| Qwerty.StandardCorrection | src/auto_typefix/forward.rs:76-121 | syllables typed in English mode on the standard keyboard: the correction sees exactly them, commits all but the last and replays keys that rebuild the last |
| Qwerty.StandardGates | src/auto_typefix/forward.rs:23-67 | what the gates of the check see in the keys of two or more syllables: all of them are precomposed and counted |
| Qwerty.CheckSyllables | src/auto_typefix/forward.rs:16-137 | the keys of two or more syllables are corrected if and only if correction is on, they reach the threshold, and the keys are neither suppressed nor an English word; then all but the last are committed and the keys replayed write the last |
| AutoTypeFix.SplitExists | src/auto_typefix/forward.rs:86-103 | every nonempty buffer has a split |
| AutoTypeFix.SplitBeforeSeparator | src/auto_typefix/forward.rs:76-121 | a buffer that ends in a character that is no key: exactly that character is replayed, on every layout |
| AutoTypeFix.EndsInJam | src/keystroke/keymap/ko_2bulstd.json:27-54 | g, a, g, g, g, n, a on the standard layout write two syllables, the last of them jammed |
| AutoTypeFix.JamLeftBehind | src/keystroke/keymap/ko_2bulstd.json:27-54 | with d, a after them the jammed syllable is no longer last |
| ThreeSetSplit.CutThree | src/auto_typefix/forward.rs:88-103 | for every sequence of three-set letters that writes anything, the longest proper prefix that writes all but the last character; the letters after it write that character |
| ThreeSetSplit.ThreeSetSplitRebuilds | src/auto_typefix/forward.rs:76-121 | on every three-set buffer of two or more characters, for any table, committed text plus replay is the corrected text |
| CivilDate.EraBounds | unim-tsf/build.rs:57-60 | the day of the 400-year cycle is within its commented bounds, for negative days too |
| CivilDate.YearOfEraFinds | unim-tsf/build.rs:61-61 | the leap-year corrections cancel exactly on every day of the cycle |
| CivilDate.DayInYear | unim-tsf/build.rs:61-63 | every day of the cycle lies in the year computed, with the commented bounds on year and day of year |
| CivilDate.MonthFinds | unim-tsf/build.rs:64-65 | month index within its commented bounds, and the day lies in that month |
| CivilDate.CivilSuccessor | unim-tsf/build.rs:57-68 | every day number gives a valid Gregorian date, and the next number the next date |
| CivilDate.Epoch | unim-tsf/build.rs:57-68 | day 0 is 1970-01-01 |
| CivilDate.CivilIsCalendar | unim-tsf/build.rs:57-68 | n days later is n calendar steps later, from any day |
| CivilDate.FitsInMachineIntegers | unim-tsf/build.rs:57-68 | unless adding the offset overflows 64 bits, nothing does, and nothing unsigned is negative |
| KeyQueue.KeyHandler.ProcessKey | unim-gnome-extension/key_handler.js:367-375 | the synchronous call, during which every arriving key enters the handler again |
| KeyQueue.KeyHandler.HandleVfuncKey | unim-gnome-extension/key_handler.js:316-414 | while busy only queues the key; otherwise serves it and the queue exactly, and returns false exactly when the key is left to the compositor; what that means for each key is KeyStory.EveryStory |
| KeyQueue.KeyHandler.DrainKeyQueue | unim-gnome-extension/key_handler.js:456-500 | serves the queue in order until it is empty, also keys that arrive meanwhile |
| KeyQueue.ServeShrinks | unim-gnome-extension/key_handler.js:456-500 | draining terminates |
| KeyQueue.SessionProtocol | unim-gnome-extension/key_handler.js:316-500 | in every session the queue is empty when the handler returns, the log is orderly and every key is settled exactly once |
| KeyQueue.CallsNeverNest | unim-gnome-extension/key_handler.js:367-375 | of two engine calls the earlier is for the earlier key and ends before the later begins |
| KeyQueue.SettledAsReplied | unim-gnome-extension/key_handler.js:384-409 | any later event of a called key agrees with the reply: notified as consumed or not, left to the compositor only if not consumed, committed before either |
| KeyQueue.DeliveredAsReplied | unim-gnome-extension/key_handler.js:384-409 | in every session each engine call is followed by the delivery of its key as the engine replied, or by leaving an unconsumed key to the compositor |
| KeyStory.EveryStory | unim-gnome-extension/key_handler.js:316-500 | in every session the events of each key, from the compositor or queued, are exactly its story: called if connected and neither modifier nor combination, committed if and only if the reply commits or, for a combination, text was being composed, then settled once as replied |
| KeyStory.CommittedAsReplied | unim-gnome-extension/key_handler.js:384-409 | after the engine's answer for a key come its commit, if and only if the answer has one, and then its settlement, and nothing else |
| KeyStory.CommitsExactly | unim-gnome-extension/key_handler.js:335-349 | a key has a commit in the log if and only if it is a combination that met text being composed or was answered with a commit |
| KeyOrder.InversionExactly | unim-gnome-extension/key_handler.js:376-413 | in every session two settlements are out of arrival order if and only if the second leaves a key to the compositor whose engine call began before the first |
| KeyOrder.OrderedExactly | unim-gnome-extension/key_handler.js:367-413 | keys not dropped on arrival are settled in arrival order if and only if no key from the compositor is called, left without a commit or an answer, and has a copyable key arrive during its call |
| KeyOrder.OutOfOrder | unim-gnome-extension/key_handler.js:391-400 | a session of one key and one that arrives during its call: the second is notified, then the first is left to the compositor |
| KeyOrder.SessionSpends | unim-gnome-extension/key_handler.js:456-500 | which answer of the daemon meets which key follows from the answers and the keys alone |
| KeyQueue.PassClosesBooks | unim-gnome-extension/key_handler.js:391-400 | after a key is left to the compositor, everything concerns keys newer than all keys seen before |
| AtomicSave.StepSound | src/atomic_io.rs:65-83 | every step, failure and crash of any writer keeps target and temporary files sound |
| AtomicSave.AlwaysWhole | src/atomic_io.rs:65-83 | under every schedule the target holds its first content or the whole content of a writer that succeeded |
| AtomicSave.RenameUndisturbed | src/atomic_io.rs:78-81 | a writer about to rename always finds its own complete file |
| AtomicSave.ModePreserved | src/atomic_io.rs:74-76 | the mode of an existing target never changes unless copying it fails |
| AtomicNames.ApartStaysWhole | src/atomic_io.rs:65-83 | names that only writers of nothing share, and that are not the target, keep the target whole under every schedule |
| AtomicNames.SharedNameTears | src/atomic_io.rs:45-54 | from two writers that have not started and share a temporary name: a schedule without a failed step after which one has succeeded, the target is empty and the other can no longer rename |
| AtomicNames.NotApartTorn | src/atomic_io.rs:45-54 | any other names of writers that have not started have a schedule after which the target is neither what it was nor what a successful writer wrote |
| AtomicNames.WholeExactly | src/atomic_io.rs:45-83 | every schedule keeps the target whole if and only if the names are such |
| AtomicNames.OwnNamesExactly | src/atomic_io.rs:45-83 | when every writer has something to write: if and only if every writer has a name of its own that is not the target |
| AtomicSave.Volume.AtomicWrite | src/atomic_io.rs:65-83 | a run of these steps whose outcome follows from the system calls alone: success if and only if directories, creation, every write and the rename succeed; then the target holds exactly the content, under its old mode if that could be copied; otherwise the target is unchanged and the temporary name is gone if it could be removed; no other name is touched |
| RecentEmoji.RecentStore.TouchRecent | src/emoji/recent.rs:49-64 | returns the updated list, and stores it if the file can be written |
| RecentEmoji.CutIsHarmless | src/emoji/recent.rs:49-53 | cutting the list before a use loses nothing that belongs in it after |
| RecentEmoji.MostRecentlyUsed | src/emoji/recent.rs:28-64 | after any history the list is the first 81 distinct emoji of the reversed history |
| JamoSearch.DecomposeWithMapping | examples/jamo_pattern_search.rs:21-58 | the letters of the text, each with the byte position of its character |
| JamoSearch.SyllableLetters | examples/jamo_pattern_search.rs:29-41 | the letters pushed for a syllable are what its initial, its vowel and its final, if any, are shown as alone, in this order |
| JamoSearch.OwnLetter | examples/jamo_pattern_search.rs:52-55 | a character outside the syllable block is its own letter |
| JamoSearch.JamosConcat | examples/jamo_pattern_search.rs:25-57 | the letters of two texts end to end are those of the first, then those of the second |
| JamoSearch.Utf8Lengths | examples/jamo_pattern_search.rs:82-87 | the UTF-8 length of a character, by where each length begins and ends |
| JamoSearch.OffsetCounts | examples/jamo_pattern_search.rs:25-25 | Hangul syllables and letters take three bytes each, ASCII one |
| JamoSearch.OffsetAppend | examples/jamo_pattern_search.rs:25-25 | byte positions in the second of two texts start where the first ends |
| JamoSearch.EndByte | examples/jamo_pattern_search.rs:82-87 | the end of the matched character; the fallback is unreachable |
| JamoSearch.OccurrenceIsTight | examples/jamo_pattern_search.rs:76-90 | the characters an occurrence touches form a range that cannot be made smaller |
| JamoSearch.TightIsOccurrence | examples/jamo_pattern_search.rs:76-90 | every such range comes from an occurrence |
| JamoSearch.OwnLettersMatch | examples/jamo_pattern_search.rs:76-90 | a text's own letters match the whole of it as one range |
| JamoSearch.PriceFound | examples/jamo_pattern_search.rs:97-103 | the letters of the example's pattern match its two syllables, bytes 0 to 6 |
| JamoSearch.FindPattern | examples/jamo_pattern_search.rs:61-95 | reports exactly the byte ranges of tight matches, in order, each once |

## Left out

- pop_last_jamo, commit_char, clear, reset and set_composer_type: one-line operations of the input context outside the runs proved here.
- get_preedit_display and the other readers of the input context: they only return fields.
- compose_chord and the key-press engine: the letters a chord composes to are a parameter of the input context.
- The optional rule sets and the key properties of layouts: tables are parameters, the built-in ones are modelled without their rule sets; parsing of layout files is not modelled.
- Building the key maps from layout files: the maps are parameters, the two on QWERTY are written out.
- Automatic correction from Korean to English, the suppression list, the user dictionary: list lookups.
- HangulChar's setters: the syllable under construction is a value in the model; src/hangul/char.rs copies it by value too.
- The trait object around the composers: a tagged pair of the two classes.
- The return values of the input context's operations, which only report whether something happened.
- The key handler's fallback for captured events and its teardown; what the daemon does with asynchronous notifications.
- The preedit timer of the GNOME extension and the order in which the compositor delivers notified keys.
- Symbolic links, directories and the contents of temporary names in the atomic save: the target path is fixed, the names of writers are parameters.
- YAML reading and writing of the recent list: an unwritable file keeps the stored list.
- The library sort of the search example: modelled by an insertion sort with the same promise.
- The branch of the search example for single letters: taking a syllable apart always gives two letters or more, so it is never taken.
