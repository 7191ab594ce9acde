# Explanation evaluator sessions in Dafny

This project models the two explanation-evaluator components in `scanchef/src/components/`.

**The richer component (`feynmind.js`).** A user records a spoken explanation or uploads an audio file, and gives a topic.
- The audio is sent to a speech-to-text service.
- The transcript is then scored against the topic by a chat service.
- A flashcard deck can be generated from the transcript and browsed card by card.
- Uploads are checked for size and type.
- A new recording or an accepted upload resets the session. No transcript, score, deck, file name, duration or source tag of an earlier artifact survives; the playback element and its playing flag do.
- The evaluation guard trims the topic and asks for three characters.

**The thinner duplicate (`snapchef.js`).**
- It has no upload checks and no reset.
- It has no file name, duration, playback state or deck.
- Its guard only asks for a non-empty topic.

**How they are modelled.** Each component is a `Session` class whose fields are its state variables. The fields also include the media recorder (`hasRecorder`), its chunk buffer and, in the richer component, the playback element (`player`).
- Every handler is a method.
- A method's `modifies` clause names exactly the fields the handler sets, so "nothing else changes" is part of every contract.
- `Consistent()` holds between handlers and whenever a handler waits for a reply:
  - the deck cursor stays in range;
  - `audioSource` and `fileName` describe the artifact;
  - only a created recorder records;
  - playback runs only on an existing element.
- `Valid()` is the invariant every handler requires and keeps: the state is consistent and no busy flag is set, since each handler clears the flag it sets before it returns.

**Outside calls.** A reply from a remote service, or the answer to the microphone permission request, is an `Outcome` parameter (`Ok(value)` or `Err(message)`).
- A handler returns the requests it sent, in order.
- It also returns, as ghost data, what each request saw of the session when it went out.
- Browser callbacks are event methods: the recorder's `ondataavailable` and `onstop`, the element's `onloadedmetadata` and `onended`.

**The shared pipeline.** Both components run the same transcribe-then-score block. It is defined once, as the pure function `Pipeline.Explain`, and each component's `ProcessExplanation` method is proved to leave exactly that run's result in its fields.

**Supporting modules.**
- `formatTime` is a pure function. Its contract is that it round-trips through a reader for the `m:ss` form.
- `Text` gives JavaScript's `trim`, `startsWith` and `padStart`, with their whitespace set.
- `Scenarios` drives fresh sessions through the handlers, one user story each.

## Model

| member | source | states |
|---|---|---|
| Text.TrimStart | scanchef/src/components/feynmind.js:322 | the result is a suffix of the input, everything dropped is whitespace, and the result does not start with whitespace |
| Text.TrimEnd | scanchef/src/components/feynmind.js:322 | the result is a prefix of the input, everything dropped is whitespace, and the result does not end with whitespace |
| Text.WhitespaceSet | scanchef/src/components/feynmind.js:322 | the whitespace set `trim` strips: below 0x80 it is exactly tab, line feed, vertical tab, form feed, carriage return and space; no-break space, the byte-order mark and the line and paragraph separators are in it too |
| Text.Trim | scanchef/src/components/feynmind.js:322 | `trim`: the result is no longer than the input and neither end of it is whitespace |
| Text.TrimIsInfix | scanchef/src/components/feynmind.js:322 | `trim` drops exactly the whitespace at both ends: the result is the stretch of the input after its leading whitespace, and only whitespace lies before and after that stretch |
| Text.TrimEmptyIffBlank | scanchef/src/components/feynmind.js:322 | a string trims to empty exactly when all its characters are whitespace |
| Text.StartsWithPointwise | scanchef/src/components/feynmind.js:195 | `startsWith(prefix)` holds exactly when the prefix is no longer than the string and agrees with it character by character |
| Text.PadStart | scanchef/src/components/feynmind.js:56 | `padStart(width, fill)`: the result is at least `width` long, ends with the input and is filled in front with `fill` only |
| TimeFormat.NatToString | scanchef/src/components/feynmind.js:56 | `toString` of a non-negative integer: decimal digits, a leading zero only for zero, one digit exactly below 10, at most two below 100 |
| TimeFormat.ParseNatToString | scanchef/src/components/feynmind.js:56 | the decimal digits read back as the number |
| TimeFormat.FormatTimeShape | scanchef/src/components/feynmind.js:53-57 | `formatTime(s)` is `s div 60` as `toString` writes it (so a leading '0' only when it is zero), a colon and exactly two digits holding `s mod 60` |
| TimeFormat.SecondsPart | scanchef/src/components/feynmind.js:55-56 | seconds below 60, padded to two characters with '0', are two digits that read back as the seconds |
| TimeFormat.ParseClockParts | scanchef/src/components/feynmind.js:56 | a minutes string, a colon and two digits below 60 read back as minutes * 60 + seconds |
| TimeFormat.Clock | scanchef/src/components/feynmind.js:53-57 | the clock built from `q` minutes and `k < 60` seconds reads back as `q * 60 + k` |
| TimeFormat.FormatTime | scanchef/src/components/feynmind.js:53-57 | reading the output of `formatTime(s)` back gives `s` |
| TimeFormat.FormatTimeInjective | scanchef/src/components/feynmind.js:53-57 | two different durations never show the same clock |
| Groq.Transcribe | scanchef/src/components/feynmind.js:225-258 | `transcribeWithGroq` yields the reply's text on success; every failure, whatever its status text, is rethrown as "Failed to transcribe audio. Please try again." |
| Groq.Evaluate | scanchef/src/components/feynmind.js:260-319 | `evaluateWithGroq` yields the parsed scoring object on success; every failure is rethrown as "Failed to evaluate explanation. Please try again." |
| Groq.ShownError | scanchef/src/components/feynmind.js:343 | `error.message \|\| fallback` is never empty, is the thrown message whenever that is non-empty, and is the fallback text "An error occurred during evaluation. Please try again." when it is empty |
| Pipeline.Explain | scanchef/src/components/feynmind.js:335-347 | the scoring request goes out only after a transcript came back and carries that transcript and the topic; a scoring failure still yields the transcript; the run ends error-free exactly when both replies succeed, otherwise with the failing step's fixed message, never the fallback |
| Feynmind.EvaluateRejection | scanchef/src/components/feynmind.js:322-330 | the guard of `evaluateExplanation`: it refuses only with the "record or upload" message or the "at least 3 characters" message, always with the first when there is no artifact, and lets the request go only with an artifact and a topic of at least 3 characters |
| Feynmind.EvaluateRejectionCases | scanchef/src/components/feynmind.js:322-330 | the guard asks for artifact and topic exactly when there is no artifact or the topic is all whitespace; it says "at least 3 characters" exactly when the topic has a non-whitespace character but fewer than 3 characters; it lets the request go exactly in the remaining case |
| Feynmind.PaddedTopicPasses | scanchef/src/components/feynmind.js:327 | the length test counts the untrimmed topic, so "  a" passes |
| Feynmind.Session.constructor | scanchef/src/components/feynmind.js:7-27 | the state at mount: no artifact, results, deck, recorder or element, nothing busy, no error |
| Feynmind.Session.SetTopic | scanchef/src/components/feynmind.js:383 | the topic input sets the topic and nothing else |
| Feynmind.Session.ResetAll | scanchef/src/components/feynmind.js:59-74 | the artifact, transcript, score, file name, duration, source, deck, deck visibility, cursor and flip flag return to their values at mount; the topic, error, recorder, chunk buffer, element, playing flag and busy flags are untouched |
| Feynmind.Session.ClearArtifact | scanchef/src/components/feynmind.js:60-65 | the first six resets of `resetAll` |
| Feynmind.Session.ClearDeck | scanchef/src/components/feynmind.js:66-69 | the deck resets of `resetAll` |
| Feynmind.Session.HandleFileUpload | scanchef/src/components/feynmind.js:187-215 | a file over 25 MiB gets "File size exceeds 25MB limit", and that check runs first; a type not starting with "audio/" gets "Please upload an audio file"; in both cases nothing but the error changes; an accepted file is reset-then-stored with the error cleared |
| Feynmind.Session.AcceptUpload | scanchef/src/components/feynmind.js:199-210 | an accepted file becomes the artifact with source "upload" and its own name, with no transcript, score or deck and duration 0 until metadata arrives |
| Feynmind.Session.OnMetadataLoaded | scanchef/src/components/feynmind.js:173-175 | the loaded duration is stored |
| Feynmind.Session.StartRecording | scanchef/src/components/feynmind.js:154-185 | the session is reset before the microphone is asked for, even when it is refused; a granted microphone starts recording and clears the error, a refused one sets the microphone message |
| Feynmind.Session.OnDataAvailable | scanchef/src/components/feynmind.js:160-162 | a chunk is appended to the end of the buffer |
| Feynmind.Session.OnRecorderStop | scanchef/src/components/feynmind.js:164-171 | the buffered chunks, in order, become a "audio/wav" artifact named "Recorded Audio" with source "recording"; the buffer is emptied |
| Feynmind.Session.StopRecording | scanchef/src/components/feynmind.js:217-223 | acts exactly when a recorder exists and is recording, and then only clears `isRecording` |
| Feynmind.Session.GenerateFlashcards | scanchef/src/components/feynmind.js:76-138 | without a transcript or a topic, only the error changes (busy flag included) and nothing is sent; otherwise one request with transcript and topic, sent while busy with no error; either way it starts and ends with no busy flag set (`Valid()`) |
| Feynmind.Session.RequestFlashcards | scanchef/src/components/feynmind.js:82-137 | a returned deck replaces the old one and is shown from card 0, unflipped; a failure sets "Failed to generate flashcards. Please try again." and keeps the old deck |
| Feynmind.Session.NextCard | scanchef/src/components/feynmind.js:140-145 | moves by exactly one, unflipped, when not on the last card; otherwise changes nothing; the cursor stays in range |
| Feynmind.Session.PreviousCard | scanchef/src/components/feynmind.js:147-152 | moves back by exactly one, unflipped, when not on the first card; otherwise changes nothing |
| Feynmind.Session.FlipCard | scanchef/src/components/feynmind.js:574 | clicking the card negates the flip flag |
| Feynmind.Session.CloseFlashcards | scanchef/src/components/feynmind.js:564 | closing hides the deck and keeps it |
| Feynmind.Session.EvaluateExplanation | scanchef/src/components/feynmind.js:321-348 | a guard failure sets its message, sends nothing and leaves the busy flag, transcript and score alone; otherwise the session ends holding exactly the result of `Explain` for its artifact and topic |
| Feynmind.Session.ProcessExplanation | scanchef/src/components/feynmind.js:332-347 | busy with the error cleared before each request; the transcript is stored before scoring starts; the busy flag is cleared at the end; the fields end as `Explain` says |
| Feynmind.Session.ScoreTranscript | scanchef/src/components/feynmind.js:340-347 | a returned score is stored; a failure shows the fixed evaluation message and keeps the old score; the busy flag is cleared |
| Feynmind.Session.PlayRecording | scanchef/src/components/feynmind.js:350-366 | nothing without an artifact; while playing, a click pauses; otherwise the existing element, or a new one made from the current artifact, plays |
| Feynmind.Session.OnPlaybackEnded | scanchef/src/components/feynmind.js:361 | playback ending clears the playing flag |
| Snapchef.EvaluateRejection | scanchef/src/components/snapchef.js:155-158 | the guard refuses exactly when there is no artifact or the topic is empty, with the "record or upload" message |
| Snapchef.Session.constructor | scanchef/src/components/snapchef.js:7-17 | the state at mount |
| Snapchef.Session.SetTopic | scanchef/src/components/snapchef.js:200 | the topic input sets the topic and nothing else |
| Snapchef.Session.StartRecording | scanchef/src/components/snapchef.js:19-42 | a granted microphone starts recording and clears the error without touching the artifact or results; a refused one sets the microphone message |
| Snapchef.Session.HandleFileUpload | scanchef/src/components/snapchef.js:44-48 | any file becomes the artifact with source "upload" and the error cleared; the transcript and score stay |
| Snapchef.Session.OnDataAvailable | scanchef/src/components/snapchef.js:24-26 | a chunk is appended to the end of the buffer |
| Snapchef.Session.OnRecorderStop | scanchef/src/components/snapchef.js:28-33 | the buffered chunks, in order, become a "audio/wav" artifact with source "recording"; the buffer is emptied |
| Snapchef.Session.StopRecording | scanchef/src/components/snapchef.js:50-56 | acts exactly when a recorder exists and is recording, and then only clears `isRecording` |
| Snapchef.Session.EvaluateExplanation | scanchef/src/components/snapchef.js:154-178 | a guard failure sets its message and sends nothing; otherwise the session ends holding exactly the result of `Explain` |
| Snapchef.Session.ProcessExplanation | scanchef/src/components/snapchef.js:160-177 | busy with the error cleared before each request; the transcript is stored before scoring; the busy flag is cleared at the end |
| Snapchef.Session.ScoreTranscript | scanchef/src/components/snapchef.js:170-177 | a returned score is stored; a failure shows the fixed evaluation message and keeps the old score; the busy flag is cleared |
| Snapchef.Session.PlayRecording | scanchef/src/components/snapchef.js:180-185 | every click plays the artifact held at that moment (a new element each time), and no state changes |
| Variants.StricterGuard | scanchef/src/components/feynmind.js:322-330 | whatever the richer guard lets through, the simpler guard (snapchef.js:155-158) lets through too |
| Variants.BlankTopicSplits | scanchef/src/components/snapchef.js:155-158 | a non-empty all-whitespace topic is sent by the simpler component and refused with the same message by the richer one |
| Variants.SameMissingInput | scanchef/src/components/snapchef.js:155-158 | apart from a non-empty blank topic, both guards refuse for missing input on the same inputs |
| Scenarios.DemoRun | scanchef/src/components/feynmind.js:187-215 | the demo upload ("demo.wav", 10 KiB, audio/wav) is accepted under its own name with source "upload"; one transcription and one scoring request go out in order; the transcript and scores are exactly those returned, with no error |
| Scenarios.NoStaleResults | scanchef/src/components/feynmind.js:199-202 | after a scored run and a generated deck, a second accepted upload leaves no transcript, score or deck |
| Scenarios.RejectedUploadsKeepSession | scanchef/src/components/feynmind.js:190-197 | a 26 MiB file and a text file each set only their message; the scored demo stays |
| Scenarios.ShortTopicSendsNothing | scanchef/src/components/feynmind.js:327-330 | a two-character topic with an artifact present sends nothing, shows the length message and never becomes busy |
| Scenarios.RecordChunks | scanchef/src/components/feynmind.js:160-171 | any sequence of delivered chunks becomes one artifact with those chunks in delivery order, named "Recorded Audio"; the first stop acts, the second does nothing |
| Scenarios.RefusedMicrophoneResets | scanchef/src/components/feynmind.js:156-183 | a refused microphone still clears the scored demo and shows only the permission message |
| Scenarios.BrowseDeck | scanchef/src/components/feynmind.js:140-152 | on a two-card deck, back from card 0 stays, forward goes to card 1 showing the front, forward from the last card stays |
| Scenarios.FailedDeckKeepsDeck | scanchef/src/components/feynmind.js:132-137 | after the deck is browsed and closed, a failed second deck request keeps the first deck and cursor, shows its message and clears the busy flag |
| Scenarios.PlaybackOutlivesReset | scanchef/src/components/feynmind.js:59-74 | the element survives a reset: after a new upload the button still plays the first artifact, and an upload during playback leaves the playing flag set, so the next click only pauses |
| Scenarios.ShownDuration | scanchef/src/components/feynmind.js:53-57 | a 75-second artifact shows "1:15" |
| Scenarios.SnapchefStory | scanchef/src/components/snapchef.js:154-178 | a topic of three spaces is sent; a scoring failure keeps the new transcript and shows the fixed message; a later upload keeps that transcript |
| Scenarios.SnapchefRecordKeepsArtifact | scanchef/src/components/snapchef.js:35-37 | starting a recording keeps the uploaded artifact |

## Left out

- HTTP requests to the speech-to-text and chat services: endpoints, headers, bodies and prompt text. A reply is an `Outcome` parameter. The status text of a failure is discarded by both clients, as in the source.
- JSON parsing of the chat replies and field access on them.
  - A malformed reply or a missing field is just an `Err` here; the source may instead fault at render time.
  - The score ranges (0–100), the 3–5 feedback items and the 15-card deck limit exist only in the prompt text, so no contract claims them.
- A transcription reply without a `text` field (an undefined transcript) is not modelled: the transcript is always a string.
- Browser primitives: `getUserMedia`, `MediaRecorder`, `Audio`, object URLs and their revocation, and stopping the microphone tracks.
  - The recorder is the flag `hasRecorder`, the element is the artifact it was made from, and the element's own paused or revoked state is not modelled.
  - A `MediaRecorder` constructor or `start` that throws is not told apart from a refused permission.
- The recording timer (`setInterval`, `recordingTime`) and the `useEffect` cleanup: timing and lifecycle plumbing.
- `Math.round(audio.duration)`: floating point. The duration is a natural number handed to `OnMetadataLoaded`.
- Durations are JavaScript numbers: `toString`'s exponent notation from 1e21 on and the loss of integer precision above 2^53 are not modelled; `NatToString` and `FormatTime` take every natural number.
- Interleaving of asynchronous handlers, such as a reset or a second click while a request is out, and stale callbacks.
  - Each handler runs to completion with its replies given up front.
  - The ghost `inFlight` output only records what each request saw when it was sent.
- JSX rendering, including the `disabled` attributes that keep the controls off while busy, and all `console` logging.
- Topic length: the source's `length` counts UTF-16 code units, while a Dafny `string` counts Unicode scalar values. The two differ only for characters outside the Basic Multilingual Plane.
- `scanchef/src/app/page.js` and `feynmind/src/app/layout.js` only wrap the component and set metadata; they are not part of this model.
