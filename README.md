# Typing practice: a Dafny model

This project models the core of a typing-practice web app for Nepali (Devanagari) and English.
A user gets a random passage and types it into a hidden textarea.

- The first keystroke starts a countdown of 30, 60 or 120 seconds and an elapsed-seconds counter.
- Each keystroke re-compares the typed text with the passage, unit by unit, at grapheme-cluster
  granularity when a segmenter is available and code unit by code unit when it is not.
- Live words-per-minute, accuracy and progress are derived from that comparison.
- The session ends when the passage is consumed or the countdown expires.
- At the end, the score goes into a top-ten high-score list and a twenty-entry history in local storage.

Modules, leaf first:

- `Common` holds `Option` and `Language`.
- `Segmentation` splits text into units. Text is a sequence of UTF-16 code units. The grapheme
  segmenter is an opaque function; the only thing assumed about it is that its units concatenate
  back to its input and none is empty.
- `Comparator` counts correct and erroneous units.
- `TypingEngine` holds the keystroke handler: the pure `TypeStep` with its lemmas, and the
  `Engine` class proved equal to it.
- `Stats` computes WPM and accuracy with exact half-up rounding.
- `Countdown` holds the countdown timer: the pure `TickStep`/`Elapse` and the `Timer` class.
- `Storage` models the local-storage persistence: a `LocalStorage` class over a key-to-list map
  and pure functions for the lists it stores.
- `HighScorePanel`, `TypingArea`, `KeyboardVisualizer` and `FontSelector` hold the logic of
  those components.
- `Page` holds the page controller `Home`, which composes an engine, a timer and a storage. Its
  invariant `Valid()` ties them together: the countdown runs only while the engine is active, and
  the result card opens only once the engine or the countdown has finished.

Some behaviours of the code, kept as written:

- A slip on the first unit does not zero the score. The comparison goes index by index, so a
  first-unit slip followed by correct typing costs exactly one unit (`Comparator.FirstUnitSlipCostsOne`).
- A comment in `saveHighScore` speaks of the top 5 per language. The code keeps the top 10 across
  both languages (`Storage.UpdatedHighScoresKeepsTopTen`). The top 5 per language is what the
  high-score panel shows (`HighScorePanel.ShownAreTopFive`).
- Accuracy divides correct grapheme clusters by typed UTF-16 code units. For Devanagari text, a
  perfect run can therefore show less than 100% (`Page.PerfectDevanagariRunShowsHalf`). The
  segmenter in that example keeps "कि" as one cluster and partitions every text
  (`Page.KiSegmenterWellFormed`).
- The keyboard's Nepali map has entries for the shifted punctuation `: " < > ?`, but no key of the
  layout ever shows them: none of those characters names a key, and upper-casing a key name never
  produces one (`KeyboardVisualizer.ShiftedPunctuationHidden`).

## Model

Some specification functions have no contract of their own: `Storage.GetHighScores`, `Storage.GetHistory`,
`Storage.IsNewHighScore`, `Storage.UpdatedHighScores`, `HighScorePanel.Shown`, `FontSelector.GetFontClass`,
`KeyboardVisualizer.IsActive`, `Page.SessionAccuracy`, `Countdown.Elapse`, and `Page.Home.AreaFinished`,
`ShownWpm` and `ShownAccuracy`. Their rows below are the lemmas and methods that state their properties:
`NewHighScoreIff`, `UpdatedHighScoresKeepsTopTen`, `ShownAreTopFive`, `GetFontClassSelects`,
`PressedKeyIsActive`, `SessionAccuracyIsPercentage`, `Countdown`, `Page.Home.Entry`, and so on.

| member | source | states |
|---|---|---|
| Segmentation.SplitUnits | src/hooks/useTypingEngine.ts:46 | without a segmenter, `split("")` yields one unit per code unit, in order |
| Segmentation.SplitUnitsPartitions | src/hooks/useTypingEngine.ts:44-52 | the fallback split concatenates back to its input with no empty unit |
| Segmentation.SegmentsPartition | src/hooks/useTypingEngine.ts:44-52 | with a well-formed segmenter or none, the units partition the text |
| Segmentation.PartitionLength | src/hooks/useTypingEngine.ts:44-52 | a partition has at most as many units as code units, and exactly as many iff every unit is one code unit |
| Segmentation.SegmentCountBound | src/hooks/useTypingEngine.ts:44-52 | the unit count never exceeds the text's `.length` |
| Segmentation.EmptyTextHasNoUnits | src/hooks/useTypingEngine.ts:49-52 | empty text has no units |
| Comparator.CorrectCount | src/hooks/useTypingEngine.ts:55 | the correct count never exceeds the number of typed units |
| Comparator.ErrorCount | src/hooks/useTypingEngine.ts:56 | correct plus error count equals the number of typed units |
| Comparator.CorrectCountIsMatchedIndices | src/hooks/useTypingEngine.ts:55 | the reduction counts exactly the positions where the typed unit equals the passage unit at the same index |
| Comparator.OverhangNeverCorrect | src/hooks/useTypingEngine.ts:55-56 | units typed past the passage's end are never correct and each adds one error |
| Comparator.CorrectCountBound | src/hooks/useTypingEngine.ts:55 | the correct count is at most the shorter of the two lengths |
| Comparator.AllCorrectIffPrefix | src/hooks/useTypingEngine.ts:55-56 | all typed units are correct iff they are a prefix of the passage, and then the error count is 0 |
| Comparator.FirstUnitSlipCostsOne | src/hooks/useTypingEngine.ts:55-56 | a slip on the first unit followed by correct units scores all but one unit and one error |
| TypingEngine.KeystrokeCue | src/hooks/useTypingEngine.ts:74-85 | at most one cue, present iff sound is on and the unit count grew; it is the keystroke sound iff the last typed unit matches the passage unit at its index, else the error sound |
| TypingEngine.TypeStep | src/hooks/useTypingEngine.ts:58-98 | a finished engine ignores input; otherwise the buffer becomes the value, the engine starts on the first non-empty value, finishes iff the value has at least as many units as the passage, and a finished engine is not active; the keystroke or error cue among its events is stated by `TypingEngine.CueEvent` |
| TypingEngine.EventsInOrder | src/hooks/useTypingEngine.ts:62-95 | the events of a step come in the order `onStart`, then the keystroke or error cue, then `onFinish`, then the completion sound, each at most once |
| TypingEngine.StartEvent | src/hooks/useTypingEngine.ts:62-67 | `onStart` fires once on a call iff the engine was not started and the value is non-empty, and then it comes first |
| TypingEngine.CueEvent | src/hooks/useTypingEngine.ts:74-85 | while the session is open and sound is on, a call that adds units plays the keystroke sound once if the last unit matches the passage unit at its index, and the error sound once if not; otherwise neither plays |
| TypingEngine.FinishEvent | src/hooks/useTypingEngine.ts:87-95 | `onFinish` fires once on a call iff the passage is consumed, and the completion sound plays iff sound is also on |
| TypingEngine.EventsSignalStartAndFinish | src/hooks/useTypingEngine.ts:62-90 | `onStart` and `onFinish` appear among a call's events exactly when the start and finish conditions hold |
| TypingEngine.TypeStepKeepsConsistent | src/hooks/useTypingEngine.ts:58-98 | every call preserves the engine invariant: active implies started and not finished, and a non-empty buffer implies started |
| TypingEngine.FinishedIsTerminal | src/hooks/useTypingEngine.ts:60 | once finished, any keystroke sequence changes nothing and fires nothing |
| TypingEngine.StartFiresAtMostOnce | src/hooks/useTypingEngine.ts:62-67 | over any keystroke sequence `onStart` fires at most once (never if already started), and the engine ends started iff it was or `onStart` fired |
| TypingEngine.FinishFiresAtMostOnce | src/hooks/useTypingEngine.ts:60-90 | over any keystroke sequence `onFinish` fires at most once, and the engine ends finished iff it was or `onFinish` fired |
| TypingEngine.RunKeepsConsistent | src/hooks/useTypingEngine.ts:58-105 | the engine invariant holds after any keystroke sequence |
| TypingEngine.Engine.constructor | src/hooks/useTypingEngine.ts:30-34 | a new engine is idle: empty buffer, not active, not finished, not started |
| TypingEngine.Engine.SetProps | src/hooks/useTypingEngine.ts:23-29 | new passage and sound props leave the session state untouched |
| TypingEngine.Engine.HandleType | src/hooks/useTypingEngine.ts:58-98 | the new state and the emitted events are exactly those of `TypeStep` |
| TypingEngine.Engine.Reset | src/hooks/useTypingEngine.ts:100-105 | the engine returns to idle with its props unchanged |
| Stats.RoundDiv | src/hooks/useStats.ts:18 | the result is n/d rounded half up (`Math.round` on a non-negative quotient) |
| Stats.Wpm | src/hooks/useStats.ts:15-19 | 0 below one elapsed second or with no correct unit; otherwise correct/5 per elapsed minute, rounded half up |
| Stats.Accuracy | src/hooks/useStats.ts:21-24 | 100 with nothing typed; otherwise correct/typed as a percentage, rounded half up |
| Stats.RoundDivMonotone | src/hooks/useStats.ts:18 | rounding preserves order |
| Stats.WpmMonotone | src/hooks/useStats.ts:15-19 | at a fixed elapsed time, more correct units never lower WPM |
| Stats.WpmNonNegative | src/hooks/useStats.ts:15-19 | WPM is never negative |
| Stats.AccuracyIsPercentage | src/hooks/useStats.ts:21-24 | accuracy is in 0..100, is 100 iff correct/typed rounds up to 100, and a fully correct run gives 100 |
| Countdown.TickStep | src/hooks/useTimer.ts:25-35 | a tick at 1 or less stops the clock at 0 and reports expiry; otherwise it counts down by one and keeps running |
| Countdown.Countdown | src/hooks/useTimer.ts:23-36 | from d seconds, k ticks leave d-k seconds running while k < d, and otherwise 0 stopped, with exactly one expiry |
| Countdown.NeverNegative | src/hooks/useTimer.ts:25-35 | the time left never goes negative, expiry fires at most once, and after it the clock is stopped |
| Countdown.Timer.constructor | src/hooks/useTimer.ts:9-10 | a new timer shows the full duration and is not running |
| Countdown.Timer.Start | src/hooks/useTimer.ts:23-36 | the timer runs afterwards with the time left unchanged, a no-op if it was already running |
| Countdown.Timer.Tick | src/hooks/useTimer.ts:25-35 | one interval firing is exactly `TickStep` |
| Countdown.Timer.Stop | src/hooks/useTimer.ts:38-43 | the timer stops with the time left frozen |
| Countdown.Timer.Reset | src/hooks/useTimer.ts:45-48 | the timer stops and shows the full duration again |
| Countdown.Timer.SyncDuration | src/hooks/useTimer.ts:18-21 | a new duration also resets the time left to it |
| Storage.ReadList | src/lib/storage.ts:21-28 | an absent or unreadable key reads as the empty list; otherwise as the stored list |
| Storage.OfLanguage | src/lib/storage.ts:32 | keeps exactly the scores of one language, each as many times as it is stored |
| Storage.OfLanguageAppend | src/lib/storage.ts:32 | the filter keeps the stored order: filtering a concatenation concatenates the filtered parts |
| Storage.TopWpm | src/lib/storage.ts:33-36 | the reduction seeded with 0 gives the largest wpm, or 0 when no score is positive |
| Storage.NewHighScoreIff | src/lib/storage.ts:30-39 | a score is new iff its wpm is positive and strictly above every stored score of its language |
| Storage.InsertDescPermutes | src/lib/storage.ts:42-43 | inserting into the sorted list adds exactly the entry |
| Storage.SortDesc | src/lib/storage.ts:42-43 | the sort by wpm, highest first, is a permutation of its input |
| Storage.SortDescIsStable | src/lib/storage.ts:42-43 | the sort is stable: records of equal wpm keep their relative order |
| Storage.TakeKeepsBest | src/lib/storage.ts:44 | slicing a sorted list keeps it sorted, and no dropped record beats a kept one |
| Storage.UpdatedHighScoresKeepsTopTen | src/lib/storage.ts:41-44 | the stored list is sorted, holds min(n+1, 10) of the old records and the entry, and no dropped record beats a kept one, across both languages |
| Storage.FirstMaxIndex | src/lib/storage.ts:53 | the unseeded reduction picks the first record of greatest wpm |
| Storage.GetBestScore | src/lib/storage.ts:50-54 | none iff no stored score has the language; otherwise a stored score of that language with the greatest wpm, and the first such one in stored order |
| Storage.UpdatedHistory | src/lib/storage.ts:67-71 | the entry goes first and is followed by the first 19 older entries, at most 20 in all |
| Storage.HistoryAfterSaves | src/lib/storage.ts:67-71 | after any sequence of saves the history is the newest 20 entries, most recent first |
| Storage.TwentyFiveSaves | src/lib/storage.ts:67-71 | after 25 saves from empty, the history holds the 25th through the 6th, newest first |
| Storage.LocalStorage.constructor | src/lib/storage.ts:24 | the storage starts with the given items |
| Storage.LocalStorage.SetItem | src/lib/storage.ts:46 | writing a key replaces that key only |
| Storage.LocalStorage.RemoveItem | src/lib/storage.ts:74 | removing a key removes that key only |
| Storage.SaveHighScore | src/lib/storage.ts:30-48 | returns whether the entry is a new high score; the stored high-score list becomes `UpdatedHighScores` and the history is untouched |
| Storage.SaveHistory | src/lib/storage.ts:67-71 | the stored history becomes `UpdatedHistory` and the high scores are untouched |
| Storage.ClearHistory | src/lib/storage.ts:73-75 | the history key is removed, so the history then reads as empty, and the high scores are untouched |
| Storage.TwoEnglishSaves | src/lib/storage.ts:30-48 | saving 40 then 35 English wpm: the first is new, the second is not, and both are stored, highest first |
| HighScorePanel.ShownAreTopFive | src/components/HighScorePanel.tsx:15-18 | the panel shows min(k, 5) scores, all of the language, sorted, and none left out beats one shown |
| TypingArea.AreaSegments | src/components/TypingArea.tsx:41-60 | empty text has no units; otherwise the area segments as the engine does |
| TypingArea.AreaSegmentsAgree | src/components/TypingArea.tsx:41-60 | with a well-formed segmenter the area and the engine agree on units |
| TypingArea.Classify | src/components/TypingArea.tsx:80-91 | a cell is untyped past the typed units, correct iff it matches, a space error iff it mismatches on a space, and otherwise a wrong character |
| TypingArea.Render | src/components/TypingArea.tsx:79-94 | one cell per passage unit, showing that unit with the colour `Classify` gives it, and carrying the cursor iff its index is the typed unit count |
| TypingArea.CursorPosition | src/components/TypingArea.tsx:93-94 | exactly one cell carries the cursor, the one at the typed unit count, while the passage is not consumed; none after that |
| TypingArea.CorrectCellsAreCorrectChars | src/components/TypingArea.tsx:82-84 | the number of green cells equals the engine's correct count |
| TypingArea.Forwarded | src/components/TypingArea.tsx:117-118 | input reaches the engine iff the area is neither finished nor locked, and then unchanged |
| KeyboardVisualizer.ToLower | src/components/KeyboardVisualizer.tsx:34 | lower-casing keeps the length and maps each character |
| KeyboardVisualizer.ToUpper | src/components/KeyboardVisualizer.tsx:54 | upper-casing keeps the length and maps each character |
| KeyboardVisualizer.Lookup | src/components/KeyboardVisualizer.tsx:55 | only a one-character name can have a map entry |
| KeyboardVisualizer.KeyLabel | src/components/KeyboardVisualizer.tsx:51-58 | multi-character names and every English key show their own name; only a one-character key in Nepali mode can show anything else |
| KeyboardVisualizer.GlyphsAreDevanagari | src/components/KeyboardVisualizer.tsx:18-25 | every map entry is non-empty and starts with a Devanagari code point, so the `|| key` fallback never fires for a mapped key |
| KeyboardVisualizer.LettersHaveGlyphs | src/components/KeyboardVisualizer.tsx:18-25 | every lower-case letter and its upper-case form have an entry |
| KeyboardVisualizer.LetterKeyLabels | src/components/KeyboardVisualizer.tsx:51-58 | in Nepali mode a letter key shows its own entry, and the entry of its upper-case form while Shift is down |
| KeyboardVisualizer.OwnNameIffNoEntry | src/components/KeyboardVisualizer.tsx:51-58 | in Nepali mode a key shows its own name iff the map has no entry for it, so the digits and `` ` - = [ ] \ `` show themselves |
| KeyboardVisualizer.ShiftOnlyChangesLetters | src/components/KeyboardVisualizer.tsx:54 | a one-character key other than a lower-case letter shows the same with and without Shift |
| KeyboardVisualizer.ShiftedPunctuationGlyphShape | src/components/KeyboardVisualizer.tsx:23-24 | the entries of `: " < > ?` are SA or RA with a virama, or the vowel UU, O or AU |
| KeyboardVisualizer.OtherGlyphsHaveOtherShapes | src/components/KeyboardVisualizer.tsx:18-25 | no other entry has one of those shapes |
| KeyboardVisualizer.LowerGlyphShapes | src/components/KeyboardVisualizer.tsx:19-21 | every lower-case letter has an entry, and none has one of those shapes |
| KeyboardVisualizer.UpperGlyphShapes | src/components/KeyboardVisualizer.tsx:22-24 | every upper-case letter has an entry, and none has one of those shapes |
| KeyboardVisualizer.LayoutKeyNames | src/components/KeyboardVisualizer.tsx:10-16 | every key of the layout has an ASCII name, and none is one of `: " < > ?` |
| KeyboardVisualizer.ShiftedPunctuationNotShown | src/components/KeyboardVisualizer.tsx:51-58 | an ASCII key other than `: " < > ?` never shows the entry of one of them, with or without Shift |
| KeyboardVisualizer.ShiftedPunctuationHidden | src/components/KeyboardVisualizer.tsx:51-58 | no key of the layout ever shows the entry of `: " < > ?`, with or without Shift |
| KeyboardVisualizer.ToLowerOfUpper | src/components/KeyboardVisualizer.tsx:34-39 | lower-casing after upper-casing is lower-casing |
| KeyboardVisualizer.PressedKeyIsActive | src/components/KeyboardVisualizer.tsx:66 | a key of the layout lights up after a keydown of its name or of the upper-case form of its name |
| KeyboardVisualizer.Keyboard.constructor | src/components/KeyboardVisualizer.tsx:29-30 | no key is active and Shift is up |
| KeyboardVisualizer.Keyboard.KeyDown | src/components/KeyboardVisualizer.tsx:33-36 | the pressed key, lower-cased, becomes active, and Shift becomes down when it is Shift |
| KeyboardVisualizer.Keyboard.KeyUp | src/components/KeyboardVisualizer.tsx:38-41 | the active key clears only if it is the released one, and Shift comes up when it is Shift |
| KeyboardVisualizer.PressAndRelease | src/components/KeyboardVisualizer.tsx:33-41 | pressing and releasing the same key, in any case, leaves no key active |
| FontSelector.Find | src/components/FontSelector.tsx:47 | none iff no option has the value; otherwise the first option with it |
| FontSelector.ClassOf | src/components/FontSelector.tsx:47 | the class of the first matching option, or the fallback when none matches |
| FontSelector.DefaultIsListed | src/components/FontSelector.tsx:46-48 | the initial font selection maps to the default class |
| FontSelector.DistinctValues | src/components/FontSelector.tsx:3-11 | the seven font values are distinct |
| FontSelector.GetFontClassSelects | src/components/FontSelector.tsx:46-48 | a listed value maps to its own class, and an unlisted one maps to `font-noto` |
| FontSelector.GetFontClassIsListed | src/components/FontSelector.tsx:46-48 | every result is the class of one of the seven fonts |
| Page.SessionAccuracyIsPercentage | src/app/page.tsx:103-107 | the shown accuracy is a percentage in 0..100 |
| Page.FallbackPerfectRunIsExact | src/app/page.tsx:103-107 | without a segmenter, typing a prefix of the passage shows 100% |
| Page.PerfectDevanagariRunShowsHalf | src/app/page.tsx:103-107 | typing a two-code-unit Devanagari cluster perfectly shows 50%, because correct clusters are divided by code units |
| Page.Progress | src/app/page.tsx:109 | undefined (NaN) only for an empty passage with nothing typed; otherwise a percentage capped at 100, equal to typed/passage*100 below the end |
| Page.SaveResult | src/app/page.tsx:122-123 | the result is saved to both lists, and whether it is a new high score is reported |
| Page.Home.constructor | src/app/page.tsx:40-67 | the initial configuration (Nepali, 60 s, Noto, sound on), the first passage, an idle engine and timer, and the stored lists loaded |
| Page.Home.Entry | src/app/page.tsx:114-121 | the saved record carries the shown WPM and accuracy, the language, the duration, the date and the id |
| Page.Home.FontClass | src/app/page.tsx:178-179 | English uses `font-sans`; Nepali uses the selected font's class |
| Page.Home.ClickStart | src/app/page.tsx:280-281 | clicking the area unlocks it unless it is finished; every other field, the engine, the timer and storage are unchanged |
| Page.Home.HandleStart | src/app/page.tsx:91-97 | the countdown and the elapsed counter start, the countdown keeps its time, and every other field is unchanged |
| Page.Home.FinishSession | src/app/page.tsx:78-85 | both clocks stop, keeping the time left, and the result card opens; the first opening saves the result and reloads the lists and flag, and a second one changes nothing stored; every other field is unchanged |
| Page.Home.OpenResult | src/app/page.tsx:112-127 | the card opens, the entry is saved to both lists, the new-high-score flag is set against the old list, the shown lists are reloaded, and every other field is unchanged |
| Page.Home.Type | src/app/page.tsx:273-281 | locked or finished, the page ignores input; otherwise the engine steps, the countdown keeps its time and duration, the first keystroke starts both clocks, a keystroke that neither starts nor finishes leaves the countdown running or stopped as it was, consuming the passage saves the entry to both lists and opens the card with the flag and lists reloaded, and anything else leaves storage and every other field untouched |
| Page.Home.HandleType | src/app/page.tsx:99-100 | one engine step; the countdown keeps its time and duration; the first keystroke starts both clocks, a keystroke that neither starts nor finishes leaves the countdown running or stopped as it was, consuming the passage stops them, saves the entry to both lists and opens the card with the flag and lists reloaded; otherwise storage and every field but the elapsed counter's running flag are unchanged |
| Page.Home.TimerTick | src/app/page.tsx:73-76 | a countdown tick steps the timer; expiry saves the entry to both lists once and opens the card with the flag and lists reloaded; otherwise storage and every page field are unchanged |
| Page.Home.ElapsedTick | src/app/page.tsx:94-96 | the elapsed counter goes up by one and every other field is unchanged |
| Page.Home.ResetSession | src/app/page.tsx:130-170 | the engine, timer, elapsed count, card and lock are reset around a new passage, and every other field is unchanged |
| Page.Home.Restart | src/app/page.tsx:130-142 | the session resets around the new passage, the new-high-score flag clears, the engine is idle, the timer is stopped at the full duration, storage is untouched, and every other field is unchanged |
| Page.Home.LanguageChange | src/app/page.tsx:145-156 | the language changes and the session resets with the timer at the same duration; every other field is unchanged |
| Page.Home.DurationChange | src/app/page.tsx:159-170 | the duration changes, the timer shows it, the session resets, and every other field is unchanged |
| Page.Home.ToggleSound | src/app/page.tsx:213 | sound flips and the engine sees it; every other field is unchanged |
| Page.Home.SelectFont | src/app/page.tsx:238 | the font selection changes and every other field is unchanged |
| Page.Home.ClearHistory | src/app/page.tsx:173-176 | the history is emptied in storage and on screen, the high scores are untouched, and every other field is unchanged |

## Left out

- `Intl.Segmenter` and the grapheme-cluster rules of Unicode Standard Annex #29: the segmenter is an opaque function. The model only assumes it partitions its input, and only in the lemmas that need that.
- The sound engine and Web Audio: the engine emits `Play` events in place of playing sounds.
- The dynamic `import()` and `await` inside `handleType`: each call is atomic. The interleaving of a suspended call with later keystrokes is not modelled.
- `setInterval` scheduling, React state batching and effect ordering: each interval firing is an explicit `TimerTick` or `ElapsedTick` call, and each handler applies its state updates at once.
- `JSON.parse` and the server-side `typeof window` branch: a stored value that is absent or cannot be parsed reads as `None`, which is the empty list.
- Stored values that parse as JSON but are not arrays of well-formed score records (`null`, `{}`, `5`, or an array of malformed records): the model assumes every stored value is such an array, as the app itself writes them. The source returns other values as they are, and its `filter`/`reduce` calls then throw; those exceptions are not modelled.
- `Math.random` passage choice and the passage data: the next passage is a parameter.
- `Date.now()` and the ISO date: the id and date of a saved record are a `Stamp` parameter.
- Stats.Wpm: computed with exact rationals and half-up rounding, not with double-precision arithmetic. A quotient that is within rounding error of .5 may round the other way in the source.
- Stats.Accuracy: exact half-up rounding, not double-precision arithmetic, as for `Stats.Wpm`.
- Page.Progress: an exact `real`, not a double.
- KeyboardVisualizer.ToLower: case mapping covers ASCII letters only. `toLowerCase` maps all of Unicode.
- KeyboardVisualizer.ToUpper: ASCII letters only, as for `ToLower`.
- KeyboardVisualizer.PressedKeyIsActive: a digit or punctuation key typed with Shift reports the shifted character (`!` for `1`), which names no key, so no key lights up. The model has only the key names, not the physical keys behind them.
- The presentation components (ResultCard, StatsBar, ProgressBar, HistoryPanel, toggles, selectors, footer) and all styling and animation are not part of this model, beyond the logic above.
- The engine's segmenter is fixed when the engine is built, as `segmenterRef` is filled only once. A later language change does not re-create it, and the model keeps it fixed too.
- The save effect of `src/app/page.tsx:112-127` runs again when its dependencies change while the card is open. The model saves once, when the card opens. While the card is open, the clocks are stopped and the page ignores input (the typing area counts as finished once the engine has finished or the countdown has reached 0), so those dependencies cannot change.
- Page.Home.LanguageChange: the engine keeps its first segmenter, as above.
