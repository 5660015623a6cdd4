# NoteNav piano trainer: a verified model of the game core

NoteNav is a note-reading trainer for a phone. A session shows a run of 3,
10, 25 or 100 notes, one at a time, as text or on a treble staff. The player
presses piano keys until each note is hit. The game counts right and wrong
presses, times the session and stores each finished session. From these
scores it shows statistics and a combined accuracy-and-speed progression
score.

This project models, in Dafny:

- **The session engine** (`piano_game.dfy`, from `hooks/usePianoGame.ts`):
  - note generation, with no key drawn twice in a row and a random sharp or
    flat spelling for black keys;
  - the octave fold that judges a press;
  - the session record's transitions: start, key press, pause, resume, the
    100 ms clock tick and reset;
  - the hook object, as the class `PianoGame`. It holds the per-key feedback
    map, the highlighted wrong key, the running interval, the 300 ms
    feedback-clear timeouts and the unmount cleanup.
- **Scoring** (`scoring.dfy`, from `utils/scoring.ts`): notes per minute, the
  clamped linear speed score, the 0.6/0.4 progression score, the average time
  per note and the "npm" label.
- **Progress** (`progress.dfy`, from `hooks/useProgress.ts`): the score list,
  newest first, as the class `ProgressStore`, and the statistics computed
  from it.
- **Settings** (`game_settings.dfy`, from `hooks/useGameSettings.ts`): the
  settings defaults, the merge of stored and patched fields, and the
  last-used level and note count, as the class `SettingsStore`.
- **Helpers**:
  - the difficulty labels and note-name string helpers (`game_utils.dfy`,
    from `utils/game.ts`);
  - the clock text `m:ss` (`game_timer.dfy`, from
    `components/piano/GameTimer.tsx`);
  - how the staff reads a display name (`staff_display.dfy`, from
    `components/piano/StaffDisplay.tsx`, and `staff_config.dfy`, from
    `constants/StaffConfig.ts`).
- **The constant tables** (`piano_config.dfy`, from
  `constants/PianoConfig.ts`) and the shared types (`piano_types.dfy`, from
  `types/piano.ts`).
- **Small modules for JavaScript and for Option values**:
  - `js_string.dfy` models JavaScript's `replace` with a string pattern,
    which replaces the first occurrence only. It also models how an integer
    is written out in a template literal.
  - `wrappers.dfy` holds `Option`.

Modelling choices:

- The clock (`Date.now()`) is the `now` parameter of each event.
- `Math.random` is a finite stream of values in [0, 1). The stream is read in
  the order the source calls it.
- The interval tick and the feedback-clear timeout are explicit event
  methods: `Tick(now)` and `FeedbackTimeout(id)`.
- Numbers are modelled as exact reals or unbounded integers, written to
  follow JavaScript where it matters:
  - `Math.round` is `Floor(x + 0.5)`.
  - `%` truncates toward zero.
  - `Math.floor` of a division is a floor division.
  - A start time of `0` is falsy in `prev.startTime || Date.now()`.

Where the code differs from its documentation or its tests, the model follows
the code:

- A finished session keeps `currentNoteIndex` at `notes.length - 1`. The
  code's finishing branch never moves the index.
- There is no per-level statistics operation in `hooks/useProgress.ts`, so
  none is modelled.
- The settings tests (hooks/__tests__/useGameSettings-test.ts:47, 91,
  199-211) use `lastDifficulty` and `saveLastDifficulty`. The hook has
  `lastDifficultyLevel`, `saveLastDifficultyLevel`, `lastNoteCount` and
  `saveLastNoteCount`, and those are modelled.
- The scoring tests (utils/__tests__/scoring-test.ts:135-165) build score
  records with `difficultyLevel` and `noteCount` fields. `GameScore` in
  `types/piano.ts` has `difficulty` instead, and `calculateScoreFromGame`
  reads `score.difficulty`, so the model's score record has `difficulty`.
- `hooks/useGameSettings.ts` imports `DEFAULT_DIFFICULTY_LEVEL` and
  `DEFAULT_NOTE_COUNT` from `constants/PianoConfig.ts`, but that file (104
  lines) does not define them, nor does `types/piano.ts` define the types
  `DifficultyLevel` and `NoteCount`. They are modelled as a string and an
  integer, and the defaults are passed to the store's constructor.
- `SHARP_SYMBOL` and `FLAT_SYMBOL` are U+266F and U+266D, the values the
  tests expect (utils/__tests__/game-test.ts:69-79). `SHARP_DISPLAY_NAMES`
  spells its sharps with an ASCII '#' and its flats with U+266D.

## Model

| member | source | states |
|---|---|---|
| JsString.ReplaceFirst | utils/game.ts:19-21 | A string without the character is returned unchanged. Otherwise the first occurrence only is replaced and the rest is kept. |
| JsString.ReplaceFirstAt | utils/game.ts:31-33 | A one-character replacement keeps the length and changes exactly the first occurrence's position. |
| JsString.IntToString | components/piano/GameTimer.tsx:14 | The text of a non-negative integer reads back as that integer. A negative one is a minus sign followed by text that reads back as its magnitude. |
| JsString.DecimalRoundTrip | components/piano/GameTimer.tsx:14 | Reading a number's decimal text back gives the number. |
| PianoConfig.NameOfInjective | constants/PianoConfig.ts:3-24 | Distinct note names are distinct strings. |
| PianoConfig.KeyOrderWellFormed | constants/PianoConfig.ts:40-61 | KEY_ORDER has 19 pairwise distinct names and holds every note name. Each entry is its own record's `name` in NOTES. |
| PianoConfig.IsBlackIffSharp | constants/PianoConfig.ts:3-24 | A note is a black key exactly when its name contains '#'. |
| PianoConfig.SecondOctaveSharesSound | constants/PianoConfig.ts:17-23 | Every second-octave entry has the sound file of the first-octave note named by removing its '2'. |
| PianoConfig.SharpDisplayNamesWellFormed | constants/PianoConfig.ts:27-37 | Spellings are defined exactly for the black keys. The first spelling is the key with its '2' removed; the second is the next letter with a flat sign. |
| PianoConfig.KeyListColours | constants/PianoConfig.ts:63-68 | Each colour list holds keys of its colour and of its octave. |
| PianoConfig.KeyColoursPartition | constants/PianoConfig.ts:63-68 | WHITE_KEYS and BLACK_KEYS are disjoint and together hold exactly the first-octave names. The octave-2 lists are disjoint; the white lists hold exactly the white keys and the black lists exactly the black keys. |
| PianoConfig.DifficultiesDistinct | constants/PianoConfig.ts:95-100 | The difficulty table has four entries with distinct values. |
| PianoConfig.DifficultyListed | constants/PianoConfig.ts:95-104 | Every difficulty, DEFAULT_DIFFICULTY included, has a table entry. |
| GameUtils.FindLabel | utils/game.ts:12 | `find` returns nothing exactly when no entry matches. Otherwise it returns the label of the first matching entry. |
| GameUtils.DifficultyLabels | utils/game.ts:11-13 | 3, 10, 25 and 100 map to Easy, Medium, Hard and Expert; every other number maps to "Unknown". |
| GameUtils.BaseNoteNameRemovesFirstTwo | utils/game.ts:19-21 | A string without '2', including "", is unchanged. Otherwise exactly the first '2' is removed. |
| GameUtils.BaseNoteNameExamples | utils/game.ts:19-21 | "C#2" becomes "C#", "F2" becomes "F", "D" and "" are unchanged, and "C22" becomes "C2". |
| GameUtils.FormatNoteAccidentalsAt | utils/game.ts:31-33 | Position by position, the first '#' becomes ♯, the first 'b' becomes ♭, and every other character is kept. |
| GameUtils.FormatNoteAccidentalsShape | utils/game.ts:31-33 | Formatting keeps the length and is the identity on strings with no '#' and no 'b'. |
| GameUtils.FormatNoteAccidentalsExamples | utils/game.ts:31-33 | "##" becomes "♯#", "bb" becomes "♭b", "C#" becomes "C♯" and "Db" becomes "D♭". "D♭" and "" are unchanged. |
| Scoring.Round | utils/scoring.ts:57 | `Math.round` gives the integer within half of x, with halves going up. |
| Scoring.RoundMonotone | utils/scoring.ts:57 | Rounding never reverses an order. |
| Scoring.Clamp | utils/scoring.ts:57 | The clamped value lies in [lo, hi]. It is lo for x below the range, hi for x above it, and x itself inside. |
| Scoring.NotesPerMinute | utils/scoring.ts:33-40 | The rate is 0 when no positive time elapsed, and otherwise satisfies npm × elapsedMs = noteCount × 60000. |
| Scoring.SpeedScore | utils/scoring.ts:46-58 | The speed score always lies in [10, 100] and is 10 for any rate ≤ 0. |
| Scoring.SpeedScoreExamples | utils/scoring.ts:49-57 | The scores at 30, 45, 60 and 120 npm are 50, 75, 100 and 100. A rate of 0 or −10 scores 10; 15 npm scores at least 10 and below 50. |
| Scoring.SpeedScoreMonotone | utils/scoring.ts:52-57 | A faster rate never gets a lower speed score. |
| Scoring.WeightsSumToOne | utils/scoring.ts:8-13 | The accuracy and speed weights sum to 1. |
| Scoring.ProgressionScore | utils/scoring.ts:64-76 | For an accuracy in [0, 100] the progression score lies in [4, 100]. |
| Scoring.ProgressionScoreExamples | utils/scoring.ts:64-76 | A perfect 60-note minute scores 100 and an empty game scores 4. Full accuracy at a slow pace beats 30% accuracy at a fast one. |
| Scoring.NotesPerMinuteRatio | utils/scoring.ts:33-40 | Equal ratios of notes to time give equal rates. |
| Scoring.ScoreFromGameScaleInvariant | utils/scoring.ts:81-87 | Take two games with equal accuracy and equal difficulty-to-time ratios (the difficulty is the note count). They have equal scores. |
| Scoring.ScoreFromGameExample | utils/scoring.ts:81-87 | 3 notes in 6 s and 25 notes in 50 s at full accuracy both score 80. |
| Scoring.AverageTimePerNote | utils/scoring.ts:93-99 | The average is 0 with no notes, and otherwise satisfies avg × noteCount = elapsedMs. |
| Scoring.FormatNotesPerMinuteReadsBack | utils/scoring.ts:104-106 | The label is all digits followed by " npm", and the digits read back as the rounded rate. |
| Scoring.FormatNotesPerMinuteExamples | utils/scoring.ts:104-106 | 30 shows as "30 npm", 30.7 as "31 npm" and 30.2 as "30 npm". |
| GameTimer.JsRem | components/piano/GameTimer.tsx:12 | JavaScript's remainder has the dividend's sign, is smaller than the divisor in magnitude, and differs from the dividend by a multiple of the divisor. |
| GameTimer.Clock | components/piano/GameTimer.tsx:10-12 | For ms ≥ 0, minutes ≥ 0 and the remainder is in [0, 59], and (minutes·60 + remainder) whole seconds is the floor of ms/1000. |
| GameTimer.PadStart2 | components/piano/GameTimer.tsx:14 | `padStart(2, '0')` gives length max(2, \|s\|), ending in s and preceded only by '0's. |
| GameTimer.FormatTimeShape | components/piano/GameTimer.tsx:10-14 | For ms ≥ 0 the text is the minutes' digits, ':', and exactly two digits of the remaining seconds. |
| GameTimer.FormatTimeReadsBack | components/piano/GameTimer.tsx:10-14 | The text before the colon reads back as the minutes and the two digits after it as the seconds. Together they are the whole seconds elapsed. |
| GameTimer.FormatTimeTruncatesMilliseconds | components/piano/GameTimer.tsx:10 | Sub-second milliseconds never change the text. |
| GameTimer.FormatTimeUnderAMinute | components/piano/GameTimer.tsx:10-14 | 0 ms shows "0:00" and 59 s shows "0:59". |
| GameTimer.FormatTimeDropsMilliseconds | components/piano/GameTimer.tsx:10-14 | 1999 ms and 1000 ms both show "0:01"; 2001 ms shows "0:02". |
| GameTimer.FormatTimeMinutes | components/piano/GameTimer.tsx:10-14 | 65 s shows "1:05" and ten minutes "10:00". |
| GameTimer.FormatTimeHours | components/piano/GameTimer.tsx:11-14 | Minutes are not reduced modulo 60: an hour shows "60:00" and 3661 s shows "61:01". |
| StaffConfig.StaffLandmarks | constants/StaffConfig.ts:17-30 | C sits at −6 (the ledger line), E at −4 (the bottom line) and B at 0 (the middle line). |
| StaffConfig.NaturalsConsecutive | constants/StaffConfig.ts:18-29 | The naturals C to B occupy the consecutive positions −6 to 0. |
| StaffConfig.SharpsOnTheirLetter | constants/StaffConfig.ts:18-28 | Each first-octave sharp has its natural letter's position. |
| StaffConfig.StaffTableKeys | constants/StaffConfig.ts:17-30 | A note name has a position exactly when it is a first-octave name. |
| PianoGame.NoteToBaseFolds | hooks/usePianoGame.ts:17-37 | NOTE_TO_BASE folds each name onto its first-octave name, except the missing 'F#2'. Each defined entry agrees with `getBaseNoteName`. |
| PianoGame.MissingEntryMatchesOnlyItself | hooks/usePianoGame.ts:151-153 | Because missing equals missing, 'F#2' matches only 'F#2'; 'F#' does not match it. |
| PianoGame.RandomIndex | hooks/usePianoGame.ts:47 | `Math.floor(r * n)` for r in [0, 1) is an index below n. |
| PianoGame.DisplayNameChoices | hooks/usePianoGame.ts:55-61 | A black key has two possible spellings and a white key one. |
| PianoGame.PlainSpellingIsChoice | hooks/usePianoGame.ts:55 | The name with its first '2' removed is the spelling of a key without a sharp/flat pair. |
| PianoGame.VariantIsChoice | hooks/usePianoGame.ts:58-61 | Either member of a sharp/flat pair is an allowed spelling. |
| PianoGame.TableNote | hooks/usePianoGame.ts:63-68 | A note built from a table entry and an allowed spelling comes from the table. |
| PianoGame.HasSpellingPairIsEntry | constants/PianoConfig.ts:27-37 | The eight keys C#, D#, F#, G#, A#, C#2, D#2 and F#2 are exactly those with a SHARP_DISPLAY_NAMES entry. |
| PianoGame.DrawKey | hooks/usePianoGame.ts:45-48 | The do-while draw yields a key different from the previous one and reads at least one value without passing the stream's end, or yields nothing when the stream runs out first. |
| PianoGame.DrawNote | hooks/usePianoGame.ts:45-61 | One pass of the loop body yields a key different from the previous one and reads at least one value without passing the stream's end. |
| PianoGame.DrawNoteAfterKey | hooks/usePianoGame.ts:57-61 | After the key draw, a key without a sharp/flat pair reads nothing more. A key with a pair reads one more value, index 0 picking the first spelling, and the pass fails if no value is left. |
| PianoGame.SpellingReadsAtMostOne | hooks/usePianoGame.ts:57-61 | After the key draw at most one more value is read, and one remaining value is always enough. |
| PianoGame.NoteOfFromTable | hooks/usePianoGame.ts:52-68 | Every note a draw shows has its table entry's name, colour and sound, and an allowed spelling. |
| PianoGame.SpellingAllowed | hooks/usePianoGame.ts:55-61 | Whichever way the spelling draw falls, the spelling is one generation may show for the key. |
| PianoGame.GeneratedNotes | hooks/usePianoGame.ts:63-68 | Draws with no two neighbouring keys equal show well-generated notes. |
| PianoGame.GenerateOutcome | hooks/usePianoGame.ts:39-72 | Neighbouring keys differ, and the first differs from the previous key. Success means exactly `count` draws. Failure happens only once the whole stream is read, and the read position only moves forward. |
| PianoGame.GeneratedFromStart | hooks/usePianoGame.ts:39-72 | From the start of the stream the notes are well generated, `count` of them on success, and failure means the whole stream was read. |
| PianoGame.GenerateSucceeds | hooks/usePianoGame.ts:43-61 | Generation succeeds on a stream with two values per note left in which no key draw repeats either of the two draws before it. |
| PianoGame.GenerateRedrawExample | hooks/usePianoGame.ts:46-48 | A repeated key is redrawn: the values 0.0, 0.0 and 0.12 give C and then D, reading all three. |
| PianoGame.DrawNextNote | hooks/usePianoGame.ts:44-69 | The loop body reads the stream exactly as DrawNote describes and builds the note its draw shows. When the stream runs out it draws nothing, and the whole stream counts as read. |
| PianoGame.GenerateRandomNotes | hooks/usePianoGame.ts:39-72 | The notes are those of Generate's draws, `ok` is Generate's success flag and `used` its read position. On success exactly `count` notes result, all well generated; on failure the whole stream was read. |
| PianoGame.InitialStateInv | hooks/usePianoGame.ts:74-84 | The initial record satisfies the session invariant. |
| PianoGame.Started | hooks/usePianoGame.ts:129-139 | The started record satisfies the session invariant. Its timer runs exactly when the start time is nonzero. |
| PianoGame.AfterPress | hooks/usePianoGame.ts:144-220 | A press keeps the session invariant: while playing, the index equals the correct count and points into the notes. A finished session keeps the index on the last note and records the final accuracy. The notes and difficulty never change. |
| PianoGame.PressOutcome | hooks/usePianoGame.ts:146-215 | Outside play, nothing changes. While playing, exactly one counter grows by one, the correct one exactly when the octave folds match. The session finishes exactly on a correct press of the last note, with elapsed = now − start; otherwise it keeps playing on the same clock. |
| PianoGame.AfterPause | hooks/usePianoGame.ts:222-235 | Pausing keeps the session invariant, the notes and the difficulty. |
| PianoGame.PauseOutcome | hooks/usePianoGame.ts:222-235 | Pausing acts only while playing. It stops the timer and freezes elapsed = now − start; the index, start and counters stay. |
| PianoGame.AfterResume | hooks/usePianoGame.ts:237-245 | Resuming keeps the session invariant, the notes and the difficulty. |
| PianoGame.ResumeOutcome | hooks/usePianoGame.ts:237-245 | Resuming acts only while paused. It backdates the start so that start + elapsed = now, keeping the elapsed time, index and counters. |
| PianoGame.AfterTick | hooks/usePianoGame.ts:104-109 | A tick keeps the session invariant, the notes and the difficulty. |
| PianoGame.TickOutcome | hooks/usePianoGame.ts:102-109 | A tick changes only the elapsed time, to now − start, and only while the timer runs. |
| PianoGame.PausedTimeIsFrozen | hooks/usePianoGame.ts:102-118 | After a pause, a tick changes nothing. |
| PianoGame.PauseResumeContinuity | hooks/usePianoGame.ts:222-245 | After pause and resume, a tick d ms later shows the frozen time plus d. The exception is a backdated start of 0, when no interval runs. |
| PianoGame.RunPresses | hooks/usePianoGame.ts:144-220 | Any run of presses keeps the session invariant. |
| PianoGame.RunPressesCounts | hooks/usePianoGame.ts:180-215 | Each press handled while playing adds one to exactly one counter. Neither counter ever decreases. |
| PianoGame.RunPressesWhenNotPlaying | hooks/usePianoGame.ts:146 | Presses on a session that is not playing change nothing. |
| PianoGame.LastCorrectPressFinishes | hooks/usePianoGame.ts:183-199 | A correct press on the last note finishes the session. Accuracy is (correct + 1)/(all presses), elapsed is taken now, and the index stays on the last note. |
| PianoGame.EarlyCorrectPressAdvances | hooks/usePianoGame.ts:201-207 | A correct press before the last note advances the index and the correct count together. |
| PianoGame.RunCorrectPressesFinishes | hooks/usePianoGame.ts:180-208 | Pressing the remaining notes in order finishes the session. Every note counts correct, earlier wrong presses stay in the accuracy, and the elapsed time is taken at the last press. |
| PianoGame.ExampleNotesGenerated | hooks/usePianoGame.ts:39-72 | C, D, E spelled plainly is a run generation can produce. |
| PianoGame.AccuracyExample | hooks/usePianoGame.ts:144-220 | Three notes with one wrong press first finish at accuracy 0.75 after 400 ms. |
| PianoGame.NoFeedbackMap | hooks/usePianoGame.ts:88-93 | The initial feedback map gives every key 'none'. |
| PianoGame.PressKeepsFeedbackCleared | hooks/usePianoGame.ts:156-178 | After a press flags its key and schedules a fresh clear, every flagged key and the highlighted wrong key still have a clear pending. |
| PianoGame.FireKeepsFeedbackCleared | hooks/usePianoGame.ts:168-177 | When a clear fires, it resets its key, and for a wrong press the highlight too. Every flag that remains is still covered. |
| PianoGame.PressKeepsEngineInv | hooks/usePianoGame.ts:144-220 | A press while playing keeps the hook's whole invariant, with the interval following the new status. |
| PianoGame.PianoGame.constructor | hooks/usePianoGame.ts:86-99 | The hook starts in the initial state with all feedback 'none', no interval and no timeouts. |
| PianoGame.PianoGame.SetDifficulty | hooks/usePianoGame.ts:120-122 | Only the record's difficulty changes. |
| PianoGame.PianoGame.StartGame | hooks/usePianoGame.ts:124-142 | A session starts exactly when generating `diff` notes succeeds, and it holds the generated notes. `diff` is the argument or else the current difficulty. A stream of two values per note with no near repeats always starts. The new session is playing, with `diff` well-generated notes and index, counters, elapsed and accuracy all 0. The interval runs when the start time is nonzero; feedback and timeouts are kept. |
| PianoGame.PianoGame.HandleKeyPress | hooks/usePianoGame.ts:144-220 | Outside play it returns false and nothing changes. Otherwise the result is whether the folds match and the record takes its next state. The key is flagged, a wrong key is highlighted, and one clear is scheduled under a fresh id. |
| PianoGame.PianoGame.FeedbackTimeout | hooks/usePianoGame.ts:168-177 | A pending clear resets its key, and for a wrong press the highlight, and is removed. A cancelled id does nothing. |
| PianoGame.PianoGame.Tick | hooks/usePianoGame.ts:104-109 | An interval tick refreshes the elapsed time and changes nothing else. |
| PianoGame.PianoGame.PauseGame | hooks/usePianoGame.ts:222-235 | The record is paused and the interval cleared, only while playing. |
| PianoGame.PianoGame.ResumeGame | hooks/usePianoGame.ts:237-245 | The record is resumed, only while paused, and the interval restarts when the backdated start is nonzero. |
| PianoGame.PianoGame.ResetGame | hooks/usePianoGame.ts:247-265 | The interval and all timeouts are cancelled, the initial record is restored, all feedback is 'none' and no key is highlighted. |
| PianoGame.PianoGame.Teardown | hooks/usePianoGame.ts:267-277 | On unmount, the interval and every pending clear are cancelled, so nothing fires later. |
| StaffDisplay.PositionBounds | components/piano/StaffDisplay.tsx:38-57 | Every name lands in [−6, 0] (a missing name at 0). The ledger line is drawn exactly for C and C#. |
| StaffDisplay.AsciiFlatSpellings | components/piano/StaffDisplay.tsx:16-31 | The ASCII flat of each black key ("Db" … "Bb") is read as that sharp, on the sharp's position, with a flat sign. |
| StaffDisplay.FlatTableKeys | components/piano/StaffDisplay.tsx:21-27 | The flat table holds exactly the five ASCII flats, each mapped to a sharp. |
| StaffDisplay.GeneratedSpellingShapes | constants/PianoConfig.ts:27-37 | A white key's one spelling is a single letter from A to G. A black key's two spellings are letter + '#' and the next letter + ♭. |
| StaffDisplay.GeneratedSpellingsOnStaff | components/piano/StaffDisplay.tsx:15-38 | A generated plain or sharp spelling is read as the key's first-octave name, with a sharp sign exactly for '#' and the ledger line exactly for C and C#. A generated flat is read as its bare letter. |
| StaffDisplay.NoteNamesOnStaff | components/piano/StaffDisplay.tsx:29-38 | A white second-octave name is read at its letter's position, while black second-octave names fall back to the middle line. |
| StaffDisplay.StaffExamples | components/piano/StaffDisplay.tsx:15-57 | "Db" is read as C# with a ledger line, and "C#" with a sharp sign. "db" is read as D and "e" as E; "" is read as "" at 0. |
| StaffDisplay.GeneratedFlatReadAsNatural | components/piano/StaffDisplay.tsx:16-36 | As written, every generated flat spelling is read as the natural letter above its key, with no sign. "D♭" shows a plain D at −5. |
| StaffDisplay.IntendedAgreesWithoutFlatSign | components/piano/StaffDisplay.tsx:15-36 | With the flat sign read as 'b', names without ♭ are read and signed exactly as before. |
| StaffDisplay.IntendedStaffShowsGeneratedNote | components/piano/StaffDisplay.tsx:15-36 | With the flat sign read as 'b', every generated spelling is read as the key it was generated for. It is drawn with the sign it is spelled with. |
| Progress.MaxAccuracy | hooks/useProgress.ts:71 | The best accuracy is at least every accuracy and equal to one of them. |
| Progress.EmptyStats | hooks/useProgress.ts:57-65 | With no scores every statistic is 0 and the per-difficulty map is empty. |
| Progress.CountsAreOccurrences | hooks/useProgress.ts:74-80 | A difficulty is a key exactly when some score has it. Its count is the number of scores that have it. |
| Progress.CountsSumToTotal | hooks/useProgress.ts:67-80 | The per-difficulty counts sum to the number of games. |
| Progress.AccuracySumAtMost | hooks/useProgress.ts:69 | The accuracy total is at most the count times any upper bound. |
| Progress.AccuracySumAtLeast | hooks/useProgress.ts:69 | The accuracy total is at least the count times any lower bound. |
| Progress.AverageWithinBounds | hooks/useProgress.ts:68-70 | The rounded mean accuracy lies between the rounded bounds of the accuracies. |
| Progress.AverageAtMostBest | hooks/useProgress.ts:68-71 | The rounded mean accuracy never exceeds the rounded best. |
| Progress.StatsAfterAdd | hooks/useProgress.ts:67-80 | A score added in front adds one game and its time. The best becomes the larger of the two, and only its difficulty's count grows by one. |
| Progress.AverageExample | hooks/useProgress.ts:67-70 | Accuracies 80, 90 and 100 give three games with mean 90. |
| Progress.BestExample | hooks/useProgress.ts:71 | Accuracies 80, 95 and 85 give a best of 95. |
| Progress.TimeExample | hooks/useProgress.ts:72 | Games of 30 s and 25 s give 55 s played. |
| Progress.CountsExample | hooks/useProgress.ts:74-80 | Difficulties 10, 25, 10 and 100 give two games at 10 and one each at 25 and 100. |
| Progress.ProgressStore.constructor | hooks/useProgress.ts:8 | The list starts empty. |
| Progress.ProgressStore.Load | hooks/useProgress.ts:11-26 | A stored list replaces the current one; with nothing stored the list is kept. |
| Progress.ProgressStore.AddScore | hooks/useProgress.ts:28-45 | The new score carries the clock's decimal text as its id and the clock as its timestamp. It becomes the head of the list, with the old list as its tail. |
| Progress.ProgressStore.ResetProgress | hooks/useProgress.ts:47-54 | The list becomes empty. |
| Progress.IdsFollowTheClock | hooks/useProgress.ts:32 | Ids from different non-negative clock readings differ, and an id reads back as its clock reading. |
| Settings.FieldsDetermineSettings | types/piano.ts:46-56 | A settings record is determined by its nine field values. |
| Settings.ApplyPatchFields | hooks/useGameSettings.ts:64 | A field in the patch takes the patch's value; every other field keeps its value. |
| Settings.ApplyPatchIdempotent | hooks/useGameSettings.ts:64 | Applying a patch twice is applying it once. |
| Settings.EmptyPatchIsIdentity | hooks/useGameSettings.ts:64 | The empty patch changes nothing. |
| Settings.LoadedSettingsFields | hooks/useGameSettings.ts:13-45 | A stored field overrides its default and each missing field keeps its default. With nothing stored the settings are the defaults. |
| Settings.LoadedSettingsExample | hooks/useGameSettings.ts:43-45 | A stored record with only white-key labels turns them on, and the newer fields keep their defaults. |
| Settings.SettingsStore.constructor | hooks/useGameSettings.ts:25-31 | The store starts with the default settings and the given level and note count. |
| Settings.SettingsStore.Load | hooks/useGameSettings.ts:34-60 | Stored settings are merged over the defaults. The stored level and count replace theirs, and anything missing is kept. |
| Settings.SettingsStore.UpdateSettings | hooks/useGameSettings.ts:62-74 | The patch is merged over the current settings; the level and count are untouched. |
| Settings.SettingsStore.SaveLastDifficultyLevel | hooks/useGameSettings.ts:76-87 | Only the last difficulty level changes. |
| Settings.SettingsStore.SaveLastNoteCount | hooks/useGameSettings.ts:89-97 | Only the last note count changes. |

## Left out

- Storage, not modelled:
  - every storage read and write, their failures and the error logging; what storage held is an `Option` parameter;
  - JSON text, with its parse and stringify;
  - the `loaded` flags of the progress and settings hooks.
- A stored item is present exactly when it is `Some`. JavaScript's falsiness of an empty stored string and a parse that throws part-way are left out.
- Audio, haptics and the error sound file: foreign library calls with no state here.
- `Date.now()` is the `now` parameter. Real timer scheduling, ordering and delays are left out; the interval tick and the 300 ms clear are events the caller delivers.
- The distribution of `Math.random` (a uniform key draw and a 50/50 spelling) is left out. The model fixes only which value each call consumes.
- PianoGame.GenerateRandomNotes: with a finite stream, generation can run out before `count` notes. It then reports `ok = false` and returns the notes drawn so far; the source always completes. PianoGame.PianoGame.StartGame then leaves the session unchanged. PianoGame.GenerateSucceeds gives one sufficient condition for success, not the exact one.
- Floating point: every number is an exact real or an unbounded integer, so rounding error in JavaScript doubles is out of scope. The visiting order of the sum folds is not modelled, because exact sums do not depend on it.
- `toUpperCase` maps ASCII letters only; other scripts are left out.
- JavaScript object lookups such as `flatToSharpMap[note]` are modelled as plain maps. A display name equal to an `Object.prototype` property name is left out.
- Partial settings patches carry each field or omit it. A field present with the value `undefined` is left out.
- The staff's drawing geometry (STAFF_CONFIG, coordinates, SVG paths), the keyboard layout table BLACK_KEY_POSITIONS and the rest of the rendering are UI with no state.
- The inactivity timeout hook is left out: it is a thin wrapper around a timer, whose point is timing.
- The themes, screens, navigation and modals are UI.
- The key order of `gamesByDifficulty` as a JavaScript object is not modelled; it is a map.
- PianoGame.PianoGame.Valid does not include "the notes are well generated". StartGame's ensures states it for every started session instead.
- NOTE_TO_BASE is modelled as a function on names with an `Option` result (missing for 'F#2'), not as a dictionary.

## Findings

| source | as written | input that shows it | evidently intended | confidence | as-written member | corrected member |
|---|---|---|---|---|---|---|
| components/piano/StaffDisplay.tsx:16 | Flats are detected by an ASCII 'b' (`note.includes('b')`), but generation (constants/PianoConfig.ts:28-36) spells flats with U+266D. Every generated flat spelling is therefore taken as a natural with no accidental. | The display name "D♭", generated for C#, C#2, is drawn as a plain D at position −5, with no flat sign and no ledger line. | A flat spelling is recognised, mapped to its sharp (D♭ to C#) and drawn with a flat sign, as the prop comment at components/piano/StaffDisplay.tsx:8 and the table at lines 21-27 expect. The effect on screen is inferred from StaffDisplay alone: app/piano/game.tsx:71-72 renders the current note with NoteDisplay, and none of the screens under app/ renders StaffDisplay. | medium, not executed | StaffDisplay.GeneratedFlatReadAsNatural | StaffDisplay.IntendedStaffShowsGeneratedNote |
