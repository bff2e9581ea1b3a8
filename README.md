# Subtitle timing and narration of the video-translation activity

A Dafny model of the subtitle logic in `MainActivity.kt` of the
video-translation Android app. While a video plays, the activity polls
the player's position every 300 ms. It looks up the subtitle cue whose
display window holds that position. When the cue changes, it shows the
cue's text. When narration is on, it also mutes the player and has the
platform speech engine read the text, at a rate chosen so that the
speech fills the cue's window. That rate comes from a heuristic: the
words are counted by splitting on single spaces, syllables are counted
as runs of vowels, and a three-tier words-per-second table gives the
expected speaking time.

Modules:

- `Wrappers`: `Option`, for Kotlin's nullable values.
- `Words`: Kotlin's `text.split(" ")`, which keeps empty tokens, with its
  inverse `Join`, both round trips, and the word count.
- `Syllables`: the cleaning of a word, vowel runs, the silent-`e`
  correction and the sum over tokens, as functions. `estimateSyllables`
  keeps its nested loops as the method `EstimateSyllables`, which is
  proved equal to the function `TextSyllables`.
- `SpeechRate`: the words-per-second tiers, the speaking-time estimate
  and the rate handed to the speech engine. Kotlin `Float` arithmetic is
  modelled with exact reals.
- `Cues`: the `Subtitle` record (`Cues.Subtitle`, `MainActivity.kt:32-37`),
  the hardcoded cue list (`Cues.Subtitles`, `MainActivity.kt:39-43`) and the
  lookup of the first cue whose window `[startTime, endTime)` holds a
  position.
- `CueExamples`: worked values: "a b c d e" over 3500 ms, and the first
  hardcoded cue. `FirstCueSplitting` proves how that cue's text splits into
  words.
- `Playback`: the state the handlers touch, as a `Screen` value. The
  function `AfterUpdate` specifies `updateSubtitle`, and three more
  functions specify the poll, the narration button and
  `stopRunnableHandler`. Lemmas cover de-duplication, the effects of a
  cue change, "narration off stays off" and an invariant kept by every
  event sequence. The class `MainActivity` holds the same state as
  fields. Its methods do what the Kotlin handlers do, step by step, and
  each is proved to produce the state the matching function gives.

Behaviour of the code worth knowing:

- Pausing or ending playback (`stopRunnableHandler`,
  `MainActivity.kt:120-123`) only stops the speech. It does not restore
  the player's volume. After a narrated cue, the video stays muted
  through a pause (`Playback.StopPollingKeepsVolume`).
- A change to "no cue" only hides the text (`MainActivity.kt:166`). It
  neither stops the speech nor restores the volume
  (`Playback.HideKeepsAudio`, `Playback.GapAfterSecondCue`).
- Words are counted by cutting at single spaces, so double spaces and
  leading or trailing spaces add words. Other whitespace is not a
  separator.
- `calculateWordsPerSecond` has a default tier for a text with no words.
  That branch can never run, because `split(" ")` always yields at least
  one token.

## Model

| member | source | states |
|---|---|---|
| Words.Split | app/src/main/java/com/insheera/video/translation/MainActivity.kt:230 | `split(" ")` always yields at least one token |
| Words.SplitCount | app/src/main/java/com/insheera/video/translation/MainActivity.kt:174 | the number of tokens is the number of spaces plus one, empty tokens included |
| Words.SplitTokensHaveNoSpace | app/src/main/java/com/insheera/video/translation/MainActivity.kt:230 | no token contains the separator |
| Words.WordCount | app/src/main/java/com/insheera/video/translation/MainActivity.kt:209 | the word count is the number of spaces plus one, hence at least 1 |
| Words.JoinSplit | app/src/main/java/com/insheera/video/translation/MainActivity.kt:230 | gluing the tokens back with single spaces gives the text back: splitting loses nothing |
| Words.SplitNoSpace | app/src/main/java/com/insheera/video/translation/MainActivity.kt:230 | a text without spaces is a single token |
| Words.SplitCons | app/src/main/java/com/insheera/video/translation/MainActivity.kt:230 | a leading space opens a new empty token; any other character joins the first token |
| Words.SplitAround | app/src/main/java/com/insheera/video/translation/MainActivity.kt:230 | the tokens of `a + " " + b` are the tokens of `a` followed by those of `b` |
| Words.SplitJoin | app/src/main/java/com/insheera/video/translation/MainActivity.kt:230 | space-free tokens survive gluing and splitting: the other round trip |
| Words.WordCountAround | app/src/main/java/com/insheera/video/translation/MainActivity.kt:174 | word counts add up across a space |
| Syllables.Lower | app/src/main/java/com/insheera/video/translation/MainActivity.kt:234 | ASCII letters map into a–z, and nothing else lands there except a–z itself |
| Syllables.IsVowel | app/src/main/java/com/insheera/video/translation/MainActivity.kt:229 | the vowel set is exactly a, e, i, o, u: `y` and upper-case letters are not vowels (case is removed by the cleaning first) |
| Syllables.Clean | app/src/main/java/com/insheera/video/translation/MainActivity.kt:234 | the cleaned word holds only a–z and is no longer than the word |
| Syllables.CleanKeepsLetters | app/src/main/java/com/insheera/video/translation/MainActivity.kt:234 | every ASCII letter of the word survives cleaning, lower-cased |
| Syllables.CleanFixed | app/src/main/java/com/insheera/video/translation/MainActivity.kt:234 | a word made of a–z only is left unchanged |
| Syllables.CleanIdempotent | app/src/main/java/com/insheera/video/translation/MainActivity.kt:234 | cleaning twice is cleaning once |
| Syllables.VowelRuns | app/src/main/java/com/insheera/video/translation/MainActivity.kt:238-244 | the run count is at most the number of vowels, and zero exactly when there is no vowel |
| Syllables.VowelRunsCountsRunStarts | app/src/main/java/com/insheera/video/translation/MainActivity.kt:238-244 | the count kept by the character loop equals the number of positions that open a maximal vowel run |
| Syllables.VowelRunsStep | app/src/main/java/com/insheera/video/translation/MainActivity.kt:239-243 | one character adds one to the count exactly when it is a vowel after a non-vowel or at the start |
| Syllables.EndsWithE | app/src/main/java/com/insheera/video/translation/MainActivity.kt:247 | `cleanWord.endsWith("e")`: a non-empty word whose last character is `e` |
| Syllables.WordSyllables | app/src/main/java/com/insheera/video/translation/MainActivity.kt:234-249 | a word's count is its vowel runs, less one when the cleaned word ends in `e` and has more than one run; never negative; at least 1 exactly when the cleaned word has a vowel; at most its number of vowels |
| Syllables.SumSyllables | app/src/main/java/com/insheera/video/translation/MainActivity.kt:233-251 | the total over a token list: the first token's count plus the total of the rest, 0 for no tokens |
| Syllables.TextSyllables | app/src/main/java/com/insheera/video/translation/MainActivity.kt:227-254 | the syllable estimate of a text is the total over the tokens of `split(" ")`, empty tokens included |
| Syllables.SumSyllablesAppend | app/src/main/java/com/insheera/video/translation/MainActivity.kt:250 | the total over two token lists is the sum of their totals |
| Syllables.SumSyllablesStep | app/src/main/java/com/insheera/video/translation/MainActivity.kt:250 | one more token adds that token's count |
| Syllables.TextSyllablesAround | app/src/main/java/com/insheera/video/translation/MainActivity.kt:230-251 | the syllable total is additive over the text on either side of a space |
| Syllables.SumSyllablesBound | app/src/main/java/com/insheera/video/translation/MainActivity.kt:233-251 | a text never has more syllables than vowels |
| Syllables.EstimateSyllables | app/src/main/java/com/insheera/video/translation/MainActivity.kt:227-254 | the nested loops return exactly the sum over the tokens of each token's count |
| Syllables.WordSyllablesOf | app/src/main/java/com/insheera/video/translation/MainActivity.kt:247-249 | a word's count from its cleaned form and its run count |
| Syllables.TextSyllablesOfWord | app/src/main/java/com/insheera/video/translation/MainActivity.kt:230-250 | a text without spaces counts as its single word |
| Syllables.RunsOf | app/src/main/java/com/insheera/video/translation/MainActivity.kt:238-244 | the loop's run count of a word equals its number of run starts |
| Syllables.CleanWordSyllables | app/src/main/java/com/insheera/video/translation/MainActivity.kt:238-249 | the count of an already clean word from its number of run starts |
| Syllables.KnowledgeSyllables | app/src/main/java/com/insheera/video/translation/MainActivity.kt:247-249 | "knowledge" counts 2: three runs, the final `e` taken as silent |
| Syllables.LineSyllables | app/src/main/java/com/insheera/video/translation/MainActivity.kt:247-249 | "line" counts 1 |
| Syllables.BySyllables | app/src/main/java/com/insheera/video/translation/MainActivity.kt:229 | "by" counts 0: `y` is not a vowel |
| Syllables.ESyllables | app/src/main/java/com/insheera/video/translation/MainActivity.kt:247 | "e" keeps its one syllable: the correction needs more than one run |
| SpeechRate.Tier | app/src/main/java/com/insheera/video/translation/MainActivity.kt:217-221 | the tier is always 1.8, 2.2 or 2.5: 2.5 for at most 8 syllables, 2.2 for 9 to 15, 1.8 for 16 or more |
| SpeechRate.TierNonIncreasing | app/src/main/java/com/insheera/video/translation/MainActivity.kt:217-221 | more syllables never give a faster tier |
| SpeechRate.WordsPerSecond | app/src/main/java/com/insheera/video/translation/MainActivity.kt:208-225 | the result is the tier of the text's syllable count, whatever the text: the default branch never decides; always positive |
| SpeechRate.SpeechDuration | app/src/main/java/com/insheera/video/translation/MainActivity.kt:173-176 | the duration times the words-per-second rate is the word count times 1000; always positive |
| SpeechRate.EstimatedMs | app/src/main/java/com/insheera/video/translation/MainActivity.kt:157-158 | the estimate is 400 ms a word in the fast tier, 5000/11 ms in the middle tier and 5000/9 ms in the slow one; always positive |
| SpeechRate.EstimateMonotone | app/src/main/java/com/insheera/video/translation/MainActivity.kt:157-158 | for the same number of words, more syllables never give a shorter estimate |
| SpeechRate.AdjustedRate | app/src/main/java/com/insheera/video/translation/MainActivity.kt:159 | the rate times the cue's duration is the estimate; positive for a positive estimate; above 1 exactly when the estimate exceeds the cue's duration |
| SpeechRate.AboveOne | app/src/main/java/com/insheera/video/translation/MainActivity.kt:159 | a factor exceeds 1 exactly when it makes a positive duration longer |
| SpeechRate.CueRate | app/src/main/java/com/insheera/video/translation/MainActivity.kt:154-159 | the rate handed to the engine for a cue: the estimate of its text over the length of its window, defined only for a non-empty window |
| Cues.FindCue | app/src/main/java/com/insheera/video/translation/MainActivity.kt:146-148 | none exactly when no cue's window holds the position; a cue found is in the list and its window holds the position, so its window is not empty |
| Cues.FindCueFirst | app/src/main/java/com/insheera/video/translation/MainActivity.kt:146-148 | the first cue in list order whose window holds the position is the one found |
| Cues.FindCueUnique | app/src/main/java/com/insheera/video/translation/MainActivity.kt:146-148 | on a list of disjoint, time-ordered cues, the one cue holding the position is found |
| Cues.EndExcluded | app/src/main/java/com/insheera/video/translation/MainActivity.kt:147 | a cue is never found at its own end time |
| Cues.SubtitlesGaps | app/src/main/java/com/insheera/video/translation/MainActivity.kt:40-43 | the hardcoded cues are time-ordered and disjoint, and 6500 and 8000 fall in gaps |
| CueExamples.SumOfFour | app/src/main/java/com/insheera/video/translation/MainActivity.kt:250 | the total over four tokens is the sum of their counts |
| CueExamples.SumOfFive | app/src/main/java/com/insheera/video/translation/MainActivity.kt:250 | the total over five tokens is the sum of their counts |
| CueExamples.LetterSyllables | app/src/main/java/com/insheera/video/translation/MainActivity.kt:238-244 | "a" counts 1; "b", "c" and "d" count 0 |
| CueExamples.LettersTokens | app/src/main/java/com/insheera/video/translation/MainActivity.kt:233-251 | the tokens a, b, c, d, e carry 2 syllables |
| CueExamples.LettersJoin | app/src/main/java/com/insheera/video/translation/MainActivity.kt:230 | the five letters glued with spaces are "a b c d e" |
| CueExamples.LettersSplit | app/src/main/java/com/insheera/video/translation/MainActivity.kt:230 | "a b c d e" splits into its five letters |
| CueExamples.LettersText | app/src/main/java/com/insheera/video/translation/MainActivity.kt:209-212 | "a b c d e" has 5 words and 2 syllables |
| CueExamples.EstimateOf | app/src/main/java/com/insheera/video/translation/MainActivity.kt:157-158 | the estimate of a text follows from its word and syllable counts |
| CueExamples.LettersEstimate | app/src/main/java/com/insheera/video/translation/MainActivity.kt:157-158 | "a b c d e" is spoken at 2.5 words per second, an estimated 2000 ms |
| CueExamples.FourSevenths | app/src/main/java/com/insheera/video/translation/MainActivity.kt:159 | 2000 ms of speech over a 3500 ms window gives rate 4/7 |
| CueExamples.LettersRate | app/src/main/java/com/insheera/video/translation/MainActivity.kt:154-159 | the estimate of "a b c d e" over 3500 ms gives rate 4/7 |
| CueExamples.LettersCueRate | app/src/main/java/com/insheera/video/translation/MainActivity.kt:154-159 | a 3500 ms cue reading "a b c d e" is narrated at rate 4/7 |
| CueExamples.SirSyllables | app/src/main/java/com/insheera/video/translation/MainActivity.kt:234 | "Sir," counts 1: the comma is dropped and the capital lower-cased |
| CueExamples.HowSyllables | app/src/main/java/com/insheera/video/translation/MainActivity.kt:238-244 | "how" counts 1 |
| CueExamples.DidSyllables | app/src/main/java/com/insheera/video/translation/MainActivity.kt:238-244 | "did" counts 1 |
| CueExamples.YouSyllables | app/src/main/java/com/insheera/video/translation/MainActivity.kt:238-244 | "you" counts 1: `y` is a consonant and "ou" is one run |
| CueExamples.GetSyllables | app/src/main/java/com/insheera/video/translation/MainActivity.kt:238-244 | "get" counts 1 |
| CueExamples.SoSyllables | app/src/main/java/com/insheera/video/translation/MainActivity.kt:238-244 | "so" counts 1 |
| CueExamples.MuchSyllables | app/src/main/java/com/insheera/video/translation/MainActivity.kt:238-244 | "much" counts 1 |
| CueExamples.FirstCueHead | app/src/main/java/com/insheera/video/translation/MainActivity.kt:233-251 | the tokens "Sir," "how" "did" "you" carry 4 syllables |
| CueExamples.FirstCueTail | app/src/main/java/com/insheera/video/translation/MainActivity.kt:233-251 | the tokens "get" "so" "much" "knowledge" carry 5 syllables |
| CueExamples.FirstCueSum | app/src/main/java/com/insheera/video/translation/MainActivity.kt:233-251 | the eight tokens of the first cue carry 9 syllables |
| FirstCueSplitting.FourWordsSplit | app/src/main/java/com/insheera/video/translation/MainActivity.kt:230 | four space-free words glued with single spaces split back into exactly those four words |
| FirstCueSplitting.FirstCueHeadSplit | app/src/main/java/com/insheera/video/translation/MainActivity.kt:230 | "Sir, how did you" splits into "Sir," "how" "did" "you" |
| FirstCueSplitting.FirstCueTailSplit | app/src/main/java/com/insheera/video/translation/MainActivity.kt:230 | "get so much knowledge" splits into "get" "so" "much" "knowledge" |
| FirstCueSplitting.FirstCueText | app/src/main/java/com/insheera/video/translation/MainActivity.kt:40 | the first hardcoded cue reads "Sir, how did you get so much knowledge" |
| FirstCueSplitting.FirstCueSplit | app/src/main/java/com/insheera/video/translation/MainActivity.kt:230 | the first hardcoded cue's text splits into its eight tokens |
| CueExamples.FirstCueEstimateOf | app/src/main/java/com/insheera/video/translation/MainActivity.kt:208-225 | a text with the first cue's tokens is in the 2.2 tier and is estimated at 40000/11 ms |
| CueExamples.EightyOverSeventySeven | app/src/main/java/com/insheera/video/translation/MainActivity.kt:159 | 40000/11 ms over 3500 ms gives rate 80/77 |
| CueExamples.FirstCueAdjusted | app/src/main/java/com/insheera/video/translation/MainActivity.kt:154-159 | the estimate of such a text over 3500 ms gives rate 80/77 |
| CueExamples.FirstCueEstimate | app/src/main/java/com/insheera/video/translation/MainActivity.kt:157-158 | the first hardcoded cue is spoken at 2.2 words per second, an estimated 40000/11 ms |
| CueExamples.FirstCueRateOf | app/src/main/java/com/insheera/video/translation/MainActivity.kt:154-159 | a cue from 0 to 3500 ms whose text has the first cue's tokens is narrated at 80/77 |
| CueExamples.FirstCueRate | app/src/main/java/com/insheera/video/translation/MainActivity.kt:154-159 | the first hardcoded cue has a non-empty window and is narrated at 80/77, slightly faster than its natural pace |
| Playback.Initial | app/src/main/java/com/insheera/video/translation/MainActivity.kt:30 | the state on creation: no cue recorded, narration on, full volume, the engine's normal rate, no request sent |
| Playback.AfterUpdate | app/src/main/java/com/insheera/video/translation/MainActivity.kt:145-171 | the state after `updateSubtitle`: unchanged when the cue found has the recorded id; otherwise, for a cue, narration (when on) sets its rate, mutes and speaks its text, then the text is shown; for no cue, only the view is hidden; the id found is recorded |
| Playback.AfterTick | app/src/main/java/com/insheera/video/translation/MainActivity.kt:136-139 | one run of the polling runnable: an update only while the player is playing |
| Playback.AfterTAudioClick | app/src/main/java/com/insheera/video/translation/MainActivity.kt:63-67 | the narration button: narration off, volume 1, a stop request |
| Playback.AfterStopPolling | app/src/main/java/com/insheera/video/translation/MainActivity.kt:120-123 | `stopRunnableHandler`: a stop request and nothing else |
| Playback.Step | app/src/main/java/com/insheera/video/translation/MainActivity.kt:85-105 | a poll, a button press, or the listener's pause or end, each mapped to its handler |
| Playback.Run | app/src/main/java/com/insheera/video/translation/MainActivity.kt:134-141 | the events applied one after another from a given state |
| Playback.NarrateRate | app/src/main/java/com/insheera/video/translation/MainActivity.kt:154-159 | the rate worked out from the window, the words per second and the estimate is the cue's rate |
| Playback.UpdateRecordsId | app/src/main/java/com/insheera/video/translation/MainActivity.kt:169 | after an update, `lastSubtitleId` is the id of the cue found, or none |
| Playback.UpdateDeduplicates | app/src/main/java/com/insheera/video/translation/MainActivity.kt:149 | a second update at a position resolving to the same cue, or to none again, changes nothing at all |
| Playback.NarratedCueChange | app/src/main/java/com/insheera/video/translation/MainActivity.kt:150-165 | with narration on, a change to a cue mutes the player, sets the engine's rate to the cue's rate and logs exactly one speak request with the cue's text and that rate; the text is shown |
| Playback.SilentCueChange | app/src/main/java/com/insheera/video/translation/MainActivity.kt:150-165 | with narration off, a change to a cue only shows its text and records its id |
| Playback.HideKeepsAudio | app/src/main/java/com/insheera/video/translation/MainActivity.kt:166-169 | a change to no cue hides the text and clears the id; volume, rate and speech are untouched |
| Playback.GapAfterSecondCue | app/src/main/java/com/insheera/video/translation/MainActivity.kt:40-43 | on the hardcoded list, moving from the second cue to 6500 ms hides the text and leaves the volume as it was |
| Playback.PausedTickIgnored | app/src/main/java/com/insheera/video/translation/MainActivity.kt:136-139 | a poll while the player is not playing leaves all state unchanged |
| Playback.NarrationStaysOff | app/src/main/java/com/insheera/video/translation/MainActivity.kt:153 | once narration is off at full volume, any events keep it off, keep the volume at 1 and the rate as it was, and add only stop requests |
| Playback.TAudioClickSilences | app/src/main/java/com/insheera/video/translation/MainActivity.kt:63-67 | after the button, whatever follows: narration off, volume 1, and only stop requests, the first of them from the button itself |
| Playback.StopPollingKeepsVolume | app/src/main/java/com/insheera/video/translation/MainActivity.kt:120-123 | pausing or ending playback logs a stop and leaves the volume and the narration flag as they were |
| Playback.InitialInv | app/src/main/java/com/insheera/video/translation/MainActivity.kt:30 | the state on creation satisfies the invariant |
| Playback.CueRatePositive | app/src/main/java/com/insheera/video/translation/MainActivity.kt:154-160 | the rate set for any cue the lookup can return is positive |
| Playback.UpdateInv | app/src/main/java/com/insheera/video/translation/MainActivity.kt:145-171 | an update keeps the invariant: visible exactly while an id is recorded, showing that cue's text; volume 0 or 1, and 0 only with narration on; all rates positive |
| Playback.StepInv | app/src/main/java/com/insheera/video/translation/MainActivity.kt:63-141 | every event keeps the invariant: the poll (:134-141), the button (:63-67) and the pause or end handler (:120-123) |
| Playback.RunInv | app/src/main/java/com/insheera/video/translation/MainActivity.kt:134-141 | any sequence of events keeps the invariant |
| Playback.MainActivity.constructor | app/src/main/java/com/insheera/video/translation/MainActivity.kt:30 | starts with the hardcoded cues, no cue shown, narration on and full volume |
| Playback.MainActivity.SetSpeechRate | app/src/main/java/com/insheera/video/translation/MainActivity.kt:160 | sets the engine's rate and nothing else |
| Playback.MainActivity.SpeakText | app/src/main/java/com/insheera/video/translation/MainActivity.kt:178-181 | mutes the player and logs one speak request at the current rate; nothing else changes |
| Playback.MainActivity.NarrateCue | app/src/main/java/com/insheera/video/translation/MainActivity.kt:153-161 | sets the engine's rate to the cue's rate, mutes the player and logs one speak request with the cue's text at that rate; nothing else changes |
| Playback.MainActivity.UpdateSubtitle | app/src/main/java/com/insheera/video/translation/MainActivity.kt:145-171 | the new state is `AfterUpdate` of the old one |
| Playback.MainActivity.Tick | app/src/main/java/com/insheera/video/translation/MainActivity.kt:134-141 | the new state is `AfterTick` of the old one: an update only while playing |
| Playback.MainActivity.OnTAudioClick | app/src/main/java/com/insheera/video/translation/MainActivity.kt:63-67 | narration off, volume 1, one stop request; nothing else changes |
| Playback.MainActivity.StopRunnableHandler | app/src/main/java/com/insheera/video/translation/MainActivity.kt:120-123 | one stop request; volume and everything else unchanged |

## Left out

- `convertTextToSpeech.kt`, and the `convertTextToSpeechAndPlay("This is you ")` call it receives on creation: a network speech-synthesis client and audio playback, with no subtitle logic.
- Player construction, media loading and the listener wiring (`MainActivity.kt:72-118`): third-party glue. The listener is reduced to the `isPlaying` flag of a poll and to the pause/end event.
- `Handler` scheduling: the 300 ms re-posting of the runnable, `removeCallbacks` and the caught `NullPointerException`. Real-time message-loop plumbing; a run of events stands for the polls.
- The speech engine's own behaviour: `onInit`, language, pitch, what `QUEUE_FLUSH` and `stop` do to audio, `shutdown`. The model logs the requests sent to the engine and keeps the engine's rate. Lifecycle callbacks and `Log` calls are left out too.
- The text view's visibility and text on creation come from a layout file that is not part of this model; `Playback.Initial` takes the view to start hidden and empty.
- Playback.MainActivity.constructor: takes the player's volume to start at 1 and the engine's rate at its normal value 1. The platform defaults are not part of this model.
- Playback.CueRatePositive: cue times are unbounded integers, not Kotlin `Long`. The source computes `endTime - startTime` in 64-bit arithmetic before `toFloat()`, which wraps for a window wider than 2^63 - 1 ms; from `Long.MIN_VALUE` to `Long.MAX_VALUE` it gives -1 and a negative rate. So this lemma and the positive-rate part of `Playback.UpdateInv` hold only for cues without that overflow. The hardcoded cues are far below the limit.
- SpeechRate.AdjustedRate: exact real arithmetic, not IEEE `Float`. The rounding of the division and of the tier constants is not modelled.
- Syllables.Lower: ASCII lower-casing only; every other character is left as it is and then dropped by the cleaning. Kotlin's `lowercase(Locale.getDefault())` can turn some of them into a–z letters that survive: the Kelvin sign U+212A becomes `k`, and U+0130 becomes `i` followed by a combining dot, whose `i` is kept. Under a Turkish or Azerbaijani default locale it also turns ASCII `I` into the dotless `ı`, which the cleaning drops, so "Islam" (cues 2 and 4) cleans to "slam" with one vowel run where the model counts two. The model assumes a locale that lower-cases ASCII as ASCII.
- The commented-out cue lists and the trailing SRT text (`MainActivity.kt:45-52`, `:257-278`): not executed.
