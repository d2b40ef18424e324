# ClarityAI core, modelled in Dafny

ClarityAI is a single-page application. The user types a speech or dictates it,
the text goes to a remote analysis service, and the app shows alternative versions
of the speech written for different demographics, each of which can be read aloud.
This project models the logic inside the `ClarityAI` component and the `useTheme`
hook. It proves properties of that model.

- `wrappers.dfy` (`Wrappers`): `Option`, standing for JavaScript's `null`.
- `strings.dfy` (`Strings`): the JavaScript string operations the component uses.
  These are `trim` (over ECMAScript's whitespace and line-terminator characters),
  `toLowerCase`, `includes` and `join`.
- `voices.dfy` (`Voices`): `getVoiceType` and the `voices` table lookup of
  `playTextToSpeech`.
- `recognition.dfy` (`Recognition`): the loop of the recognizer's `onresult`,
  which builds the final transcript.
- `analysis.dfy` (`Analysis`): the analysis result, and the clipboard text that
  `copyResults` builds from it.
- `clarity_ai.dfy` (`ClarityComponent`): the class `ClarityAI`. It has the
  component's state fields, and one method per event handler or browser callback.
  The intro timer, the error timer, the end of the `/analyze` request, the
  recognizer's `onstart`/`onend`/`onerror`/`onresult`, and the speech engines'
  `onend`/`onerror` each become a method the environment calls. What the browser
  would report becomes a parameter: whether ResponsiveVoice or speech synthesis
  exists, and whether `start()` or `speak` throws. `Valid()` is the invariant
  every handler keeps: the results screen always has a result to show, and
  `isListening` and `isTranscribing` always agree. The results-screen buttons
  (`PlayClicked`, `CopyClicked`) rely on it to find the result. Every handler states its whole
  new state as an update of the old `State()` snapshot.
- `theme.dfy` (`Theme`): how the first mode is chosen, the mode-to-string mapping,
  round trips through the storage slot, and the class `ThemeHook`. `ThemeHook`
  holds the mode, the storage slot, the `data-theme` attribute and the body class.

Behaviour of the code worth knowing:

- `resetApp` does not clear `isPlayingAudio`. After a reset during playback,
  the slot stays marked until the engine's `onend` arrives.
- Replaying a slot does not toggle it. Every play button is disabled while any
  slot is playing (`PlayEnabled`, which `PlayClicked` requires).
- `analyzeSpeech` checks only the trimmed text. It does not refuse a submission
  while the recognizer listens; only the button's enabled state
  (`AnalyzeEnabled`) does that.
- A response that arrives after a reset is not discarded. `ReceiveAnalysis` has
  no guard.
- When ResponsiveVoice reports an error, the slot is cleared *before* the text
  goes to speech synthesis. So the fallback plays while no slot is marked as
  playing, and the play buttons are enabled again (`ResponsiveVoiceFailed`).
  That callback runs outside the `try` of `playTextToSpeech`. So if speech
  synthesis throws there, no error message is shown.
- The clipboard text starts with the lines `ClarityAI Analysis Results` and
  `========================`, then the category line.

## Model

| member | source | states |
|---|---|---|
| `Strings.Trim` | src/components/ClarityAI.js:105 | `trim` gives the empty string exactly when every character is whitespace; otherwise the result neither starts nor ends with whitespace |
| `Strings.TrimIsSliceOf` | src/components/ClarityAI.js:105 | `trim` keeps a contiguous slice of the text: everything before it and after it is whitespace, and the slice has no whitespace at either end |
| `Strings.ContainsIff` | src/components/ClarityAI.js:235-237 | the `includes` scan succeeds exactly when the keyword occurs at some index of the text |
| `Strings.ToLower` | src/components/ClarityAI.js:234 | `toLowerCase` keeps the length and maps each character on its own: ASCII capitals to their small letters, everything else unchanged |
| `Strings.Join` | src/components/ClarityAI.js:216-219 | `join` gives "" for no elements and the element itself for one |
| `Strings.JoinSnoc` | src/components/ClarityAI.js:216-219 | `join` builds the text from left to right: adding an element at the end appends the separator and that element, so every element appears in order with the separator between |
| `Strings.JoinStartsWithFirst` | src/components/ClarityAI.js:216-219 | the joined text starts with the first element, followed by the separator when there are more elements |
| `Strings.JoinEndsWithLast` | src/components/ClarityAI.js:216-219 | the joined text ends with the last element |
| `Voices.GetVoiceType` | src/components/ClarityAI.js:233-238 | the result is always one of the four keys of the voice table |
| `Voices.IncludesIff` | src/components/ClarityAI.js:234-237 | lowering the label and then searching is the same as a case-insensitive match at some position |
| `Voices.VoiceTypeClassification` | src/components/ClarityAI.js:233-238 | "progressive"/"liberal" gives `progressive` and wins over every later keyword; otherwise "conservative"/"right" gives `conservative`; otherwise "moderate"/"center" gives `moderate`; otherwise `default`; each way as an if-and-only-if |
| `Voices.VoiceTypeIgnoresCase` | src/components/ClarityAI.js:234 | two labels that differ only in letter case get the same voice type |
| `Voices.VoiceTypeUnmatchedExample` | src/components/ClarityAI.js:238 | "Reddit" contains no keyword and gets `default` |
| `Voices.VoiceTypeOrderExamples` | src/components/ClarityAI.js:235 | "Progressive" matches in spite of its capital letter, and "Liberal Right" is `progressive` although it also contains "right" |
| `Voices.VoiceName` | src/components/ClarityAI.js:142-149 | a key in the table gives its entry; any other key gives the default entry, 'US English Male' |
| `Voices.VoiceForDemographic` | src/components/ClarityAI.js:149 | the key chosen for a demographic label always has its own entry, so the lookup never falls back |
| `Recognition.FinalTranscript` | src/components/ClarityAI.js:34-42 | the loop's result is the concatenation, in order, of the transcripts of exactly the final results at index `resultIndex` or later |
| `Recognition.NoFinalNoText` | src/components/ClarityAI.js:39-47 | when no visited result is final, the event contributes the empty string |
| `Recognition.InterimIgnored` | src/components/ClarityAI.js:39-41 | an interim result anywhere among the visited ones does not change the transcript |
| `Recognition.FinalContributes` | src/components/ClarityAI.js:37-41 | a final result contributes its whole transcript, after the text of the results before it |
| `Recognition.EarlierResultsSkipped` | src/components/ClarityAI.js:37 | results before `resultIndex` contribute nothing |
| `Analysis.CopyResults` | src/components/ClarityAI.js:208-220 | with no result there is no text; with a result the text starts with the heading, the category line, the demographics joined by ", " and "Alternative Speeches:" |
| `Analysis.ResultsTextStartsWithHeader` | src/components/ClarityAI.js:211-220 | the final trim never cuts into the heading, category and demographics part |
| `Analysis.ResultsTextWithAlternatives` | src/components/ClarityAI.js:211-220 | when the last speech ends in a visible character, the text is the header, a line break, and the `demographic: speech` entries separated by blank lines, and nothing else |
| `Analysis.ResultsTextWithoutAlternatives` | src/components/ClarityAI.js:218-220 | without alternatives the text ends right after "Alternative Speeches:" |
| `Analysis.ResultsTextTrimsLastEntry` | src/components/ClarityAI.js:211-220 | for every result with alternatives, the text is the header, a line break, and the joined entries with only their trailing whitespace removed; the visible colon of each entry keeps the trim from reaching further back |
| `Analysis.ResultsTextEmptyLastSpeech` | src/components/ClarityAI.js:219-220 | a single alternative with an empty speech loses the space after its colon to the trim |
| `Analysis.ResultsTextExample` | src/components/ClarityAI.js:211-220 | the full text for a result with category "Economics" and two demographics |
| `ClarityComponent.ClarityAI.constructor` | src/components/ClarityAI.js:4-11 | the initial state: intro screen, empty text, no result, not loading, no error, not listening, nothing playing |
| `ClarityComponent.ClarityAI.AnalyzeEnabled` | src/components/ClarityAI.js:290-416 | the analyze button, drawn only on the input screen, is enabled exactly there while the text has a non-whitespace character, nothing is loading and the recognizer is not listening |
| `ClarityComponent.ClarityAI.ClearEnabled` | src/components/ClarityAI.js:290-381 | the clear button exists only on the input screen and with a recognizer, and is enabled exactly there while the text has a non-whitespace character and the recognizer is not listening |
| `ClarityComponent.ClarityAI.MicrophoneEnabled` | src/components/ClarityAI.js:290-364 | the microphone button exists only on the input screen and with a recognizer, and is enabled exactly there while nothing is loading; `MicrophoneClicked` requires it |
| `ClarityComponent.ClarityAI.PlayEnabled` | src/components/ClarityAI.js:556 | the play buttons are enabled exactly when no slot is playing; `PlayClicked` requires it, so no second slot can start while one plays |
| `ClarityComponent.ClarityAI.IntroTimerFired` | src/components/ClarityAI.js:64-68 | the timer shows the input screen and changes nothing else |
| `ClarityComponent.ClarityAI.EditText` | src/components/ClarityAI.js:308-309 | typing replaces the text and changes nothing else |
| `ClarityComponent.ClarityAI.ClearText` | src/components/ClarityAI.js:100-102 | the text becomes empty and nothing else changes |
| `ClarityComponent.ClarityAI.Submit` | src/components/ClarityAI.js:104-111 | blank text (all whitespace, which is what an empty `Trim` means): the empty-input error is set, no request is made, and the screen and `isLoading` stay as they were; otherwise the loading screen with `isLoading` true, and the request carries the text |
| `ClarityComponent.ClarityAI.ReceiveAnalysis` | src/components/ClarityAI.js:113-133 | success stores the result and shows the results screen; a response that is not ok, or a thrown error, sets its own "Analysis failed…" message, goes back to input and keeps the previous result; `isLoading` ends false on every path |
| `ClarityComponent.ClarityAI.ResetApp` | src/components/ClarityAI.js:201-206 | the text, result and error are cleared and the input screen shown; loading, listening and `isPlayingAudio` are untouched |
| `ClarityComponent.ClarityAI.StartListening` | src/components/ClarityAI.js:81-92 | with no recognizer: the "not supported" error; when `start()` throws: the "could not start" error; otherwise the recognizer is started and no state changes |
| `ClarityComponent.ClarityAI.StopListening` | src/components/ClarityAI.js:94-98 | the recognizer is asked to stop exactly when it exists and is listening |
| `ClarityComponent.ClarityAI.MicrophoneClicked` | src/components/ClarityAI.js:363-364 | an enabled button always finds a recognizer: while listening it asks for a stop and changes nothing; otherwise it starts, or reports a `start()` that throws; a click never sets the "not supported" error of line 83 |
| `ClarityComponent.ClarityAI.RecognitionStarted` | src/components/ClarityAI.js:29-32 | `onstart` sets both recognition flags and nothing else |
| `ClarityComponent.ClarityAI.RecognitionEnded` | src/components/ClarityAI.js:50-53 | `onend` clears both recognition flags and nothing else |
| `ClarityComponent.ClarityAI.RecognitionFailed` | src/components/ClarityAI.js:55-60 | `onerror` clears both flags and shows "Speech recognition error: " followed by the error name |
| `ClarityComponent.ClarityAI.RecognitionResult` | src/components/ClarityAI.js:34-48 | `onresult` appends the event's final transcript (see `Recognition.FinalTranscript`) to the text, and changes nothing else |
| `ClarityComponent.ClarityAI.ErrorTimerFired` | src/components/ClarityAI.js:76-79 | the error timer clears the message and nothing else |
| `ClarityComponent.ClarityAI.PlayTextToSpeech` | src/components/ClarityAI.js:137-175 | a successful hand-over marks the slot as playing; ResponsiveVoice gets the text and the table's voice, speech synthesis gets the text alone; with no engine, or when speaking throws, the slot is cleared and the matching error shown |
| `ClarityComponent.ClarityAI.PlayClicked` | src/components/ClarityAI.js:553-556 | an enabled play button on the results screen plays its own alternative's speech, with the voice chosen for its demographic; when the hand-over succeeds that slot is marked and every play button is disabled; with no engine or a throwing `speak` the right error is shown and nothing plays |
| `ClarityComponent.ClarityAI.CopyClicked` | src/components/ClarityAI.js:208-220 | on the results screen there is always a result, so the copy button always has text, and the text starts with that result's header (the button is at line 578) |
| `ClarityComponent.ClarityAI.FallbackToSpeechSynthesis` | src/components/ClarityAI.js:178-199 | with speech synthesis the text is spoken and nothing changes; without it the slot is cleared and "not supported" shown |
| `ClarityComponent.ClarityAI.PlaybackEnded` | src/components/ClarityAI.js:185-187 | either engine's `onend` (also lines 157-159) clears the playing slot and nothing else |
| `ClarityComponent.ClarityAI.ResponsiveVoiceFailed` | src/components/ClarityAI.js:160-164 | ResponsiveVoice's `onerror` clears the slot, then hands the text to the fallback; when speech synthesis throws there, nothing catches the error, so no message is shown and nothing plays |
| `ClarityComponent.ClarityAI.SynthesisFailed` | src/components/ClarityAI.js:189-192 | the utterance's `onerror` clears the slot and shows "Text-to-speech failed" |
| `ClarityComponent.BlankSubmission` | src/components/ClarityAI.js:105-108 | submitting blank text from the input screen stays on it, leaves `isLoading` alone and shows the empty-input error |
| `Theme.InitialMode` | src/hooks/useTheme.js:4-13 | the initializer reads a stored 'dark' as dark and a stored 'light' as light, and with nothing stored follows the system preference |
| `Theme.InitialModeFromStorage` | src/hooks/useTheme.js:6-9 | a non-empty stored string decides the initial mode: dark exactly when it equals 'dark' |
| `Theme.InitialModeFallback` | src/hooks/useTheme.js:12 | with no stored string, or an empty one, the initial mode is the system's dark-scheme preference |
| `Theme.UnknownStoredStringIsLight` | src/hooks/useTheme.js:8 | a non-empty stored string other than 'dark' gives light mode |
| `Theme.ThemeName` | src/hooks/useTheme.js:17-21 | the stored and `data-theme` string is 'dark' exactly in dark mode and 'light' otherwise |
| `Theme.BodyClass` | src/hooks/useTheme.js:18 | the body class is the same dark/light name followed by "-theme" |
| `Theme.ThemeRoundTrip` | src/hooks/useTheme.js:6-21 | reading the stored string back through the initializer gives the same mode, whatever the system preference |
| `Theme.ThemeHook.constructor` | src/hooks/useTheme.js:4-13 | mounting takes the mode from the storage slot or the system preference |
| `Theme.ThemeHook.ToggleTheme` | src/hooks/useTheme.js:24-26 | toggling negates the mode |
| `Theme.ThemeHook.ApplyTheme` | src/hooks/useTheme.js:15-22 | the effect writes the mode's name to the storage slot and `data-theme`, and its class to the body |
| `Theme.ToggleTwice` | src/hooks/useTheme.js:24-26 | toggling twice restores the mode |
| `Theme.ToggleThenReload` | src/hooks/useTheme.js:4-26 | after a toggle and its effect, a new start-up from the stored slot begins in the toggled mode |

## Left out

- The `/analyze` request: the URL, the JSON body, and the parsing and shape of the
  response. Its end is the event `ReceiveAnalysis` with an abstract outcome.
- The browser APIs: the recognizer object and its settings (`continuous`,
  `interimResults`, `lang`), ResponsiveVoice, `speechSynthesis`,
  `navigator.clipboard`, `alert` and `console.error`. Whether each exists, and
  whether a call throws, is a parameter. `isSpeechSupported` becomes the
  constant `recognitionSupported`.
- The clipboard write and its alerts after `copyResults`. Only the text is modelled.
- Timer durations (3000 ms intro, 5000 ms error). Each firing is a discrete event.
  Also left out: clearing the intro timer on unmount, and the race in which an
  older error timer clears a newer message.
- The rate, pitch and volume given to the speech engines (floating point).
- The JSX rendering and its styles. Only the enabled conditions of the analyze,
  clear, microphone and play buttons are modelled, with the clicks of the
  microphone, play and copy buttons.
- `Strings.ToLower`: models `toLowerCase` on ASCII letters only. The keywords are
  ASCII. The only other letters that lower to ASCII are U+212A KELVIN SIGN (to
  "k", which no keyword contains) and U+0130 (to "i" followed by a combining dot,
  which breaks any keyword match). So the classification does not depend on this.
- `Voices.VoiceName`: models the table as a map. JavaScript's `voices[voiceType]`
  would also find inherited properties such as `constructor`. The only caller
  passes a key from `getVoiceType`.
- `ClarityComponent.ClarityAI.PlayTextToSpeech`: `speechIndex` is a natural
  number. The default arguments of `playTextToSpeech` (`'default'`, `null`) are never
  used by its only caller.
- `Recognition.SpeechResult`: keeps only the first alternative of each result
  (`results[i][0]`).
- The commented-out earlier version of the component (src/components/ClarityAI.js:618-904).
- src/components/NotFound.js, which is static presentation only.
