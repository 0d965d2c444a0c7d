# Twistopia, modelled in Dafny

Twistopia is a browser game. It hands the player a tongue-twister, records
their attempt and asks a remote AI service to grade the pronunciation. This
project models the game's core logic and proves properties of it:

- the offline twister catalog, and the rule that picks a fallback twister from it;
- the three service operations (generate, grade, speak) and what each does
  without a client, on a remote failure and on a success;
- decoding of raw 16-bit little-endian mono PCM, and the microphone recorder's
  chunk bookkeeping;
- the game's phase machine (`App`) and the game screen's record/playback flags;
- the result screen's score tiers and the mascot's mood, which agree with each other.

Every remote, browser or timer call becomes a parameter that states its
outcome. A random draw `Math.random()` is a real `u` with `0 <= u < 1`;
the index it picks is `Floor(u * n)`. A promise is a `Settled<T>` value:
`Resolved`, `Rejected(reason)`, or `Pending` for a promise that never
settles.

Modules, one per source file: `Types` (types.ts, plus the promise and
random-index shapes), `Catalog` (data/fallbackTwisters.ts), `GeminiService`,
`AudioUtils`, `App`, `Gameplay`, `ResultView` and `Mascot`.

The code has no repetition-count formula, no XP or level arithmetic, no
derivation of `xpEarned` and no zero-score grading result offline:
- no code assigns `repetitionCount`, and catalog entries lack it, so it is
  `Option<int>` and absent for every catalog twister;
- `xpEarned` is declared but never set, and is passed through untouched;
- `gradePronunciation` without a client rejects; it does not return a result.

The code has two edge cases that are easy to miss, and the model includes both:
- `stop()` on a recorder that has already stopped never settles. MediaRecorder
  fires no `stop` event when it is already inactive.
- Decoding an empty PCM payload fails. Web Audio's `createBuffer` refuses a
  buffer of zero frames.

`start` passes no timeslice, so the whole recording usually arrives as one
chunk, delivered by `mediaRecorder.stop()` just before the stop event. The
model's `Stop` therefore takes that final chunk. Chunks delivered earlier
through `OnDataAvailable` are covered as well.

## Model

| member | source | states |
|---|---|---|
| Types.RandomIndex | services/geminiService.ts:58 | `Math.floor(Math.random() * n)` is an index in `[0, n)` and is the floor of `u * n` |
| Types.RandomElementReachesAll | components/Mascot.tsx:109 | every element of a non-empty list is picked by some draw of `Math.random()` |
| Catalog.GroupsAreUniform | data/fallbackTwisters.ts:4-227 | the Easy, Medium and Hard groups hold only their own difficulty, with 13, 18 and 13 entries |
| Catalog.CatalogIsGrouped | data/fallbackTwisters.ts:4-227 | every Easy entry precedes every Medium entry, which precedes every Hard entry |
| Catalog.EveryDifficultyPresent | data/fallbackTwisters.ts:3-229 | the catalog has 44 entries and each difficulty occurs (at indices 0, 13 and 31) |
| Catalog.FirstEntryIsRedLorry | data/fallbackTwisters.ts:5-9 | entry 0 is the Easy "Red lorry, yellow lorry." with no repetition count |
| Catalog.EntriesAreWellFormed | data/fallbackTwisters.ts:5-228 | every entry has a non-empty text and topic and no repetition count |
| GeminiService.Candidates | services/geminiService.ts:54 | the filter keeps exactly the catalog entries of the requested difficulty |
| GeminiService.CandidatesOfConcat | services/geminiService.ts:54 | filtering a concatenation filters each part, keeping the order |
| GeminiService.CandidatesOfGroup | services/geminiService.ts:54 | filtering a single-difficulty list keeps all of it or none of it |
| GeminiService.CandidatesOfGrouped | services/geminiService.ts:54 | filtering a list grouped Easy, Medium, Hard gives the group of the requested difficulty |
| GeminiService.CatalogCandidates | services/geminiService.ts:54 | on the real catalog the candidates are exactly the difficulty's group: 13, 18 or 13 entries |
| GeminiService.PickFallback | services/geminiService.ts:53-60 | the pick is a catalog member; it has the requested difficulty if any entry does, and is entry 0 if none does |
| GeminiService.GetFallbackTwister | services/geminiService.ts:53-60 | over the real catalog the fallback always has the requested difficulty and no repetition count |
| GeminiService.FallbackReachesEveryCandidate | services/geminiService.ts:58-59 | every catalog entry of a difficulty is a possible fallback for it |
| GeminiService.NoMatchGivesFirstEntry | services/geminiService.ts:55-57 | with no entry of the difficulty, the pick is entry 0 whatever the draw |
| GeminiService.GenerateTongueTwister | services/geminiService.ts:12-50 | never rejects; no request without a client; a parsed reply is returned unchanged; any other outcome falls back to the catalog |
| GeminiService.GradePronunciation | services/geminiService.ts:62-114 | rejects without a client and makes no request; sends the text and audio as given; rejects on failure or empty text; a parsed result is returned unchanged |
| GeminiService.GradingResolvesOnlyOnParsedReply | services/geminiService.ts:111-113 | grading resolves exactly when a client exists and the reply parsed; `isCorrect` and `xpEarned` are the remote's |
| GeminiService.SpeakText | services/geminiService.ts:116-164 | always resolves; plays the decoded remote PCM when there is a client, audio and a successful decode; otherwise the platform fallback (silent, or en-US at rate 0.9) |
| GeminiService.RemoteSpeechIsDecodedPcm | services/geminiService.ts:133-138 | remote speech with an even, non-empty payload decodes at 24000 Hz into `len/2` samples in `[-1, 1)` |
| AudioUtils.Int16Le | utils/audioUtils.ts:23 | a pair of bytes is read as the signed 16-bit value that is congruent to `lo + 256*hi` mod 65536 |
| AudioUtils.Int16LeRoundTrip | utils/audioUtils.ts:23 | reading and writing a 16-bit value in little-endian order are mutual inverses |
| AudioUtils.DecodedMeaning | utils/audioUtils.ts:16-35 | decoding rejects exactly on an odd or empty input; a decode is mono with `len/2` frames, sample i the value of bytes 2i and 2i+1 over 32768, in `[-1, 1)` |
| AudioUtils.DecodeAudioData | utils/audioUtils.ts:11-35 | the two copy loops produce exactly the decoding described by `Decoded` |
| AudioUtils.PcmRoundTrip | utils/audioUtils.ts:23-31 | encoding any 16-bit values and decoding them loses no samples: each comes back as value / 32768 |
| AudioUtils.Split | utils/audioUtils.ts:79 | `split(',')` yields at least one part, and no part holds the separator |
| AudioUtils.SplitJoin | utils/audioUtils.ts:79 | joining the parts of `split` with the separator gives back the string |
| AudioUtils.SplitWithoutSep | utils/audioUtils.ts:79 | a string without the separator splits into itself alone |
| AudioUtils.SplitAfterPrefix | utils/audioUtils.ts:79 | splitting a separator-free prefix, a separator and a rest gives the prefix followed by the parts of the rest |
| AudioUtils.SplitHasManyParts | utils/audioUtils.ts:79 | there is a second part exactly when the separator occurs |
| AudioUtils.PayloadOfDataUrl | utils/audioUtils.ts:79 | `split(',')[1]` is present exactly when the data URL contains a comma |
| AudioUtils.DataUrlRoundTrip | utils/audioUtils.ts:79 | the text after the comma of `data:<type>;base64,<b64>` is exactly `<b64>` |
| AudioUtils.RecordSession | utils/audioUtils.ts:54-94 | after a granted start, any deliveries and a stop, the blob holds every delivered byte in arrival order, including the final chunk, so dropping the empty chunks loses nothing; the payload resolves exactly when the reader succeeds, and then, for comma-free base64 text, is exactly that text with "audio/webm" |
| AudioUtils.AudioRecorder.constructor | utils/audioUtils.ts:50-52 | a new recorder has no MediaRecorder and no chunks |
| AudioUtils.AudioRecorder.Start | utils/audioUtils.ts:54-66 | with access granted, recording starts with an empty chunk list; a refusal rejects and changes nothing |
| AudioUtils.AudioRecorder.OnDataAvailable | utils/audioUtils.ts:59-63 | only chunks of non-zero size are appended, at the end |
| AudioUtils.AudioRecorder.Stop | utils/audioUtils.ts:68-94 | rejects with "Recorder not initialized" before any start; never settles on a stopped recorder; otherwise hands the final chunk that `stop()` delivers to the data handler, then concatenates the chunks, releases the tracks and resolves with the text after the comma and "audio/webm", or rejects on a reader error |
| App.App.constructor | App.tsx:9-13 | the initial state is MENU, Easy, nothing bound, no error |
| App.App.BeginStartGame | App.tsx:15-18 | records the difficulty, enters LOADING_TWISTER and clears the error before generating, keeping `Valid` |
| App.App.FinishStartGame | App.tsx:19-27 | on success binds the twister and plays; on failure returns to MENU with the error, keeping the old twister; `Valid` is kept |
| App.App.StartGame | App.tsx:15-28 | always ends in PLAYING with the generated twister, the chosen difficulty and no error, keeping `Valid` |
| App.App.BeginGrading | App.tsx:33 | enters GRADING, changing nothing else and keeping `Valid` |
| App.App.FinishGrading | App.tsx:34-43 | on success shows RESULT with the verdict; on failure returns to PLAYING with the error and one more clearing timer; `Valid` is kept, as only a client yields a verdict |
| App.App.HandleGrade | App.tsx:30-44 | no twister: no change; otherwise grades the twister's text; RESULT only on a parsed remote verdict, else PLAYING with the error; the twister is kept |
| App.App.ErrorTimerFires | App.tsx:42 | a pending timer clears the error message and nothing else |
| App.App.HandleNext | App.tsx:46-48 | generates again with the stored difficulty and ends in PLAYING with the parsed remote twister, or else exactly the catalog pick for that difficulty and draw |
| App.App.HandleRetry | App.tsx:50-52 | returns from RESULT to PLAYING with the same twister |
| App.App.ReturnToMenu | App.tsx:87-98 | from the game or result screen, the only screens with the back button or the menu link, go to MENU, changing nothing else |
| App.OfflineRound | App.tsx:15-44 | without a client, a fresh session's round plays the catalog pick of the chosen difficulty, and grading returns to PLAYING with the error, never RESULT |
| Gameplay.DifficultyColorIsInjective | components/Gameplay.tsx:58-60 | the badge colour tells the three difficulties apart |
| Gameplay.RepetitionHintOnlyForRemoteTwisters | components/Gameplay.tsx:93 | a twister that shows the "Repeat n times fast" hint is never a catalog entry |
| Gameplay.OfflineGameShowsNoHint | components/Gameplay.tsx:93 | the fallback twister never shows the hint, for any difficulty and draw |
| Gameplay.Status | components/Gameplay.tsx:128-131 | the status line shows analyzing whenever grading, recording only when recording and not grading |
| Gameplay.RecordingCanStop | components/Gameplay.tsx:104-121 | while recording and not grading the record button is enabled, and the TTS button is disabled |
| Gameplay.Gameplay.constructor | components/Gameplay.tsx:15-17 | both flags are false and the recorder is fresh |
| Gameplay.Gameplay.HandleToggleRecord | components/Gameplay.tsx:38-56 | stopping clears the flag, keeps the final chunk if it is non-empty, and hands grading exactly the reader's text after the comma and "audio/webm" when stop resolves; starting sets the flag only when start resolves, or alerts |
| Gameplay.Gameplay.BeginPlayTts | components/Gameplay.tsx:25-28 | a no-op while audio plays; otherwise sets the playing flag |
| Gameplay.Gameplay.FinishPlayTts | components/Gameplay.tsx:30-35 | clears the playing flag on every outcome and alerts only on a rejection |
| Gameplay.Gameplay.HandlePlayTts | components/Gameplay.tsx:25-36 | unless audio is already playing, speaks the twister's text: the decoded remote PCM when there is a client, audio and a successful decode, else the platform fallback for that text; it ends with the flag cleared and no alert, since speech always resolves |
| Gameplay.Gameplay.ClickRecord | components/Gameplay.tsx:117-121 | a disabled record button ignores the click and changes nothing; an enabled one either stops, keeping a non-empty final chunk and grading the reader's text after the comma with "audio/webm" (or failing on a reader error), or starts exactly when access is granted, with an empty chunk list; with `start` taken as one step, the recording flag and the `isPlayingAudio` flag are never both set |
| Gameplay.Gameplay.ClickTts | components/Gameplay.tsx:100-104 | a disabled TTS button ignores the click; once the `isPlayingAudio` flag is set the record button is disabled |
| ResultView.FlagsMatchTiers | components/ResultView.tsx:14-15 | `isPerfect` iff score >= 90, `isGood` iff 70 <= score < 90, never both |
| ResultView.HeadingAndEmojiFollowTier | components/ResultView.tsx:23-28 | heading and emoji follow the same tier; "Nice Try!" exactly below 70, "Masterful!" exactly from 90 |
| Mascot.Mood | components/Mascot.tsx:100-134 | MENU is academic, loading and playing are determined, RESULT follows the score, GRADING and ERROR keep academic with an empty bubble; the message comes from the phase's list |
| Mascot.MoodAgreesWithResultView | components/Mascot.tsx:119-129 | in RESULT the mascot is happy iff perfect, winks iff good and is exhausted iff "Nice Try!", also for 0; an absent score gives exhausted |
| Mascot.ClickReaction | components/Mascot.tsx:92-95 | a click shows the love expression and one of the clicked messages |

## Left out

- The remote generative service is a parameter that states its outcome. Its
  prompts, models and response schemas are not modelled.
- `JSON.parse(text) as Twister` is an unchecked cast. The model takes the parsed
  value as a well-typed `Twister` or `GradingResult`, so a reply whose fields
  have the wrong types cannot be represented.
- `atob` (base64 as in RFC 4648, section 4) is not modelled. The speech reply
  carries the binary string `atob` produces, or nothing when `atob` throws.
  The FileReader's base64 encoding of the blob is a parameter too.
- `getUserMedia`, `MediaRecorder`, `Blob`, `FileReader`, `AudioContext`,
  `playAudioBuffer` and `speechSynthesis` are foreign calls. They appear only
  as the outcomes their callers see.
- GeminiService.SpeakText: does not model a missing `AudioContext` constructor,
  or a platform utterance that never fires `onend` or `onerror`.
- AudioUtils.DecodeAudioData: assumes a little-endian platform for the
  `Int16Array` view, and does not check that `createBuffer` accepts the sample
  rate. The only caller passes 24000.
- Timers are events: `App.ErrorTimerFires` stands for the three-second timeout.
- Async interleavings are not modelled. Each handler is atomic, except for the
  Begin/Finish halves given for `startGame`, `handleGrade` and `handlePlayTTS`.
  Not covered, for example: pressing Back while grading, followed by a late
  result; or `start` being called twice.
- Gameplay.Gameplay.ClickRecord: `Valid`'s "the recording flag and the
  `isPlayingAudio` flag are never both set" holds only with `start` taken as one step. While `start` waits, for
  example on the permission prompt, both flags are false, so the TTS button is
  enabled. A TTS click then sets `isPlayingAudio`, and when `start` resolves
  `isRecording` is set as well. That interleaving is not modelled.
- Remote PCM playback is not tracked. `speakText` resolves once
  `source.start()` has been called, so the `isPlayingAudio` flag is cleared,
  and the record button is enabled again, while the decoded audio is still
  audible. The model's flag properties concern the flag only.
- Pressing Back while recording is not modelled. Back is never disabled,
  `Gameplay`'s cleanup effect is empty, and the unmounted screen's recorder
  keeps the microphone tracks live. `App` and `Gameplay` are separate,
  uncomposed classes in the model, so it cannot show this.
- `console` logging is not modelled. `alert(...)` calls appear as returned
  messages.
- The mascot's `teleport` (positions, `setTimeout`, visibility) and all
  rendering and styling are not modelled. The mascot's score is an integer,
  so a NaN score is not modelled.
- components/GameMenu.tsx (three fixed bindings), components/Button.tsx,
  api/generate.ts and the src/ files are not part of this model.
- `PlayerStats` (types.ts:30-34) is never used by the code, and there is no
  repetition, XP or level arithmetic to model.
