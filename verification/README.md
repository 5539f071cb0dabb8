# Hinglish Voice Wizard — session controller in Dafny

`HinglishVoiceWizard` (frontend/src/App.tsx) is a React component. The user holds a mic
button, speaks a Hinglish command such as "whatsapp kholo", and releases the button. The
component then POSTs the command and the current "vibe" to a local execution service and
shows the reply. Behind the page sits a small state machine over one session record:
`status`, `currentVibe`, `history`, `isListening`, `transcript` and `micPermission`.
This project models that state machine and proves what its handlers guarantee.

Modules, one per concern of the controller:

- `Text`: JavaScript's `String.prototype.trim` over the ECMAScript whitespace and
  line-terminator set. Also `.length`, which counts UTF-16 code units, so a character
  outside the Basic Multilingual Plane counts two.
- `Commands`: the validation guard of `executeCommand` (trimmed length below 3 is
  rejected) and the release threshold of `stopListening` (trimmed length above 2 is
  dispatched).
- `History`: the bounded log `[...prev.slice(-4), entry]`, with `slice(-4)` clamped at the
  start as in JavaScript, and a proof that it is first-in-first-out eviction at capacity 5.
- `Vibes`: the round-robin over the key order of `vibeColors`, written with `indexOf`
  and `%` as in the source. An unknown vibe has index -1 and so moves to "chill".
- `Screens`: which of the three screens renders. The support check comes first, then the
  permission check.
- `Session`: class `SessionState` holds the six fields; each event handler is a method.
  Effects on the outside world (tones, starting and stopping speech capture, the POST, the
  2-second timer) are returned as a list of `Effect` values. What the outside world answers
  comes in as a parameter: whether `getUserMedia` succeeded, the live transcript, and the
  service's reply or a network/decoding failure.
  - `executeCommand` is split at its `await`. `Dispatch` is the synchronous part: it
    validates, stops listening, shows the processing status and emits the POST with the
    vibe current at that moment. `Settle` is the continuation. It computes the next vibe
    from the vibe the request carried, which is the value the handler's closure captured.
  - `ExecuteCommand` runs the two back to back. That is what a quick-command button or a
    mic release does when no other event intervenes.
- `Scenarios`: methods that walk through the controller's main flows using only the
  handlers' contracts. Two of them show interleavings the code permits, described below.

Three behaviours of the code that a reader might not expect, each shown in the model:

- **The reset timer is never cancelled.** `setTimeout` at App.tsx:108-111 drops the
  timer's handle, and nothing cancels it, so it fires two seconds after every decoded
  reply whatever happened since. If the user starts speaking within those two seconds,
  the timer clears the live transcript and replaces the listening prompt.
  `Scenarios.ResetFiresDuringNextCapture` shows this: after a reply, `StartListening`,
  a new transcript and then `DisplayReset` leave the session listening with an empty
  transcript and the ready prompt.
- **A second submission can start while one is in flight.** Nothing in the mic handlers
  (App.tsx:413-417) or the quick-command buttons (App.tsx:455) checks for a pending
  request. Each reply rotates the vibe from the vibe its own request captured at
  App.tsx:88 and 101, so two successes started from the same vibe advance it by one step,
  not two. Both entries are logged. `Scenarios.OverlappingSubmissions` shows this.
- **An unsupported browser gets no quick commands.** The early return at App.tsx:165
  renders only the support notice, so the quick-command buttons at App.tsx:452-455 are
  not shown and no command can be submitted. `Screens.ScreenFor` states that without
  speech recognition the screen is the support notice whatever the permission.

## Model

| member | source | states |
|---|---|---|
| Text.IsJsWhitespace | frontend/src/App.tsx:73 | the set `trim` removes: the ECMAScript WhiteSpace and LineTerminator code points, all inside the Basic Multilingual Plane |
| Text.WhitespaceBoundaries | frontend/src/App.tsx:73 | tab, space, no-break space, byte order mark and line separator are trimmed; next line, the Mongolian vowel separator and the zero-width space are not |
| Text.SkipLeading | frontend/src/App.tsx:73 | the first position at or after `i` without whitespace: everything skipped is whitespace, and what follows is not |
| Text.SkipTrailing | frontend/src/App.tsx:73 | walking back from `e`, the end of the last non-whitespace character: everything skipped is whitespace |
| Text.Trim | frontend/src/App.tsx:73 | `trim()` never lengthens, leaves no whitespace at either end, and is empty exactly when the input is all whitespace |
| Text.TrimIsSlice | frontend/src/App.tsx:73 | any slice `s[a..b]` with only whitespace outside it and none at its own ends is the trim of `s`, which pins `Trim` down uniquely |
| Text.TrimOfUnpadded | frontend/src/App.tsx:73 | a non-empty string with no whitespace at either end is its own trim |
| Text.TrimIdempotent | frontend/src/App.tsx:73 | trimming twice is trimming once |
| Text.Utf16Length | frontend/src/App.tsx:73 | `.length` lies between the character count and twice it, and is zero only for the empty string |
| Text.Utf16LengthOfBmp | frontend/src/App.tsx:73 | for text inside the Basic Multilingual Plane, `.length` is the character count |
| Commands.IsValidCommand | frontend/src/App.tsx:73 | an empty command or a trimmed length below 3 is rejected; an accepted command is not blank and keeps at least two characters after trimming, and three trimmed characters always pass |
| Commands.ReleaseDispatches | frontend/src/App.tsx:145 | `transcript && transcript.trim().length > 2` dispatches; a dispatched transcript is not blank and keeps at least two characters after trimming, and more than two trimmed characters always dispatch |
| Commands.ReleaseThresholdMatchesValidation | frontend/src/App.tsx:145 | the release threshold (`> 2`) and the validation guard (`>= 3` after the truthiness test) accept exactly the same strings |
| Commands.BlankNeverDispatched | frontend/src/App.tsx:73 | an all-whitespace transcript or command is neither dispatched on release nor accepted by validation |
| History.SliceFromEnd | frontend/src/App.tsx:93 | `slice(-k)` returns the last `k` elements, or all of them when there are fewer |
| History.Append | frontend/src/App.tsx:93 | the new log has 1 to 5 entries, its length is one more than the smaller of the old length and 4, and it is the newest old entries in their old order followed by the new entry |
| History.AppendBelowCapacity | frontend/src/App.tsx:93 | with fewer than five entries, nothing is evicted and the entry is added at the end |
| History.EvictOldestKeepsNewest | frontend/src/App.tsx:93 | repeatedly evicting the oldest entry down to a capacity keeps exactly the newest entries |
| History.AppendIsFifoEviction | frontend/src/App.tsx:93 | slice-then-append equals appending and then evicting oldest-first down to five |
| History.AppendAllKeepsNewest | frontend/src/App.tsx:93 | starting from a log within capacity, any series of replies leaves exactly the newest five of all entries, in the order recorded |
| Vibes.VibeKeys | frontend/src/App.tsx:36-43 | `Object.keys(vibeColors)` at line 100: the six tags in declaration order, starting with the initial vibe "chill" |
| Vibes.VibeKeysDistinct | frontend/src/App.tsx:36-43 | the six vibe keys are pairwise different |
| Vibes.IndexOf | frontend/src/App.tsx:101 | `indexOf` is -1 exactly for a value not in the list, and otherwise the first position holding it |
| Vibes.IndexOfDistinct | frontend/src/App.tsx:101 | in a list without repeats, `indexOf` of the key at position `k` is `k` |
| Vibes.NextKey | frontend/src/App.tsx:100-101 | the next key is always one of the keys, and a value that is not a key moves to the first key |
| Vibes.NextIndexIsSuccessorMod | frontend/src/App.tsx:101 | `(i + 1) % length` is the next position, wrapping from the last back to the first |
| Vibes.NextKeyAt | frontend/src/App.tsx:100-101 | the key after the one at position `k` is the one at the next position, wrapping round |
| Vibes.RotateAt | frontend/src/App.tsx:100-101 | `n` successive rotations from the key at position `k` reach the key `n` positions further round |
| Vibes.NextVibe | frontend/src/App.tsx:99-102 | the vibe after a success is always one of the six tags, and an unknown vibe becomes "chill" |
| Vibes.VibeCycle | frontend/src/App.tsx:36-43 | the successor order is chill, productive, creative, energetic, relaxed, focused, then chill again |
| Vibes.RotateIndexSix | frontend/src/App.tsx:101 | among six positions, `n` steps from `i` land on `(i + n) % 6` |
| Vibes.ShiftReturns | frontend/src/App.tsx:101 | counting round six positions, `n` steps return to the start exactly when `n` is a multiple of six |
| Vibes.ReturnsIffMultipleOfSix | frontend/src/App.tsx:100-101 | in six distinct keys, a key returns to itself after `n` rotations exactly when six divides `n` |
| Vibes.ReturnsAfterMultiplesOfSix | frontend/src/App.tsx:99-102 | a vibe comes back after `n` successes in a row exactly when `n` is a multiple of six, so six successes return to the start |
| Screens.ScreenFor | frontend/src/App.tsx:165-200 | without speech recognition the support notice shows whatever the permission; otherwise a denied microphone shows the blocked notice; the wizard shows exactly when both checks pass |
| Session.ProcessingStatus | frontend/src/App.tsx:82 | the processing status quotes the command untrimmed: it is 19 characters longer than the command, which can be read back from position 13 on |
| Session.SubmitEffects | frontend/src/App.tsx:78-89 | a valid submission stops capture and plays a click before exactly one request, posted last to the execution endpoint; it schedules no display reset |
| Session.ReplyEffects | frontend/src/App.tsx:95-111 | a decoded reply plays the success tone exactly when it reports success and the error tone exactly when it does not, ends with the 2-second display reset and posts nothing |
| Session.QuickCommands | frontend/src/App.tsx:157-163 | the five quick-command phrases, in button order |
| Session.ProcessingIsNotRejection | frontend/src/App.tsx:74-82 | the processing status never equals the validation rejection |
| Session.SessionState.constructor | frontend/src/App.tsx:46-51 | the initial state is the ready status, vibe "chill", empty log, not listening, empty transcript, permission "prompt" |
| Session.SessionState.ObservePermission | frontend/src/App.tsx:56-70 | a state reported by the permissions API becomes `micPermission` and nothing else changes |
| Session.SessionState.TranscriptChanged | frontend/src/App.tsx:53 | the speech library's new transcript replaces the old one, and listening is unaffected |
| Session.SessionState.StartListening | frontend/src/App.tsx:119-139 | with mic access: listening, transcript cleared, the listening status, a click and a continuous "en-IN" capture. Without: permission denied, the denied message, an error tone, and listening and transcript untouched. Log and vibe never change |
| Session.SessionState.Dispatch | frontend/src/App.tsx:72-89 | a command failing validation only sets the rejection status, emits nothing and leaves listening alone. A valid one stops listening, shows the processing status and emits stop, click and a POST of the command with the vibe current at that moment |
| Session.SessionState.Settle | frontend/src/App.tsx:91-116 | a decoded reply is appended to the log and its message shown. Success rotates the vibe from the request's vibe; failure keeps it. A tone and the 2-second reset follow. A network or decoding failure only shows the network-error status with an error tone: no log entry, no vibe change, no reset. The vibe stays a tag and the log stays within five entries |
| Session.SessionState.ExecuteCommand | frontend/src/App.tsx:72-117 | the whole submission run to completion: the rejection path leaves everything but the status unchanged; the network-error path leaves log and vibe unchanged; a reply appends to the log, shows the message and rotates the vibe exactly on success; the effects are the submission's followed by the reply's |
| Session.SessionState.StopListening | frontend/src/App.tsx:141-150 | listening always stops. A transcript above the threshold is dispatched with the current vibe; otherwise "No command detected" is shown and capture only stops. The status is never the validation rejection |
| Session.SessionState.DisplayReset | frontend/src/App.tsx:108-111 | the timer clears the transcript and shows the ready prompt; listening, log and vibe are untouched |
| Session.SessionState.CurrentScreen | frontend/src/App.tsx:165-200 | the wizard is shown exactly when speech recognition is supported and the microphone is not denied |
| Scenarios.UnpaddedIsTrimmed | frontend/src/App.tsx:73 | a phrase of three or more characters with no whitespace at either end passes validation |
| Scenarios.QuickCommandIsValid | frontend/src/App.tsx:157-163 | each quick-command phrase passes the validation guard at line 73 |
| Scenarios.QuickCommandsAreValid | frontend/src/App.tsx:455 | pressing any quick-command button never shows the rejection status, because every phrase passes validation |
| Scenarios.TooShortToDispatch | frontend/src/App.tsx:145-148 | any two-character transcript inside the Basic Multilingual Plane, with or without whitespace, is below the release threshold, so releasing on it shows "No command detected" |
| Scenarios.LogTwo | frontend/src/App.tsx:93 | two replies logged on an empty history are both kept, in arrival order |

## Left out

- `playSound` (App.tsx:7-33) uses the Web Audio API with floating-point frequencies and gains. It appears only as a `Play` effect naming the tone.
- The browser APIs are parameters or effects, not behaviour:
  - `navigator.permissions.query` and its `onchange` feed `ObservePermission`. The catch branch that logs "Permission API not supported" changes no state.
  - `getUserMedia` success or failure is the `micGranted` parameter.
  - `SpeechRecognition.startListening` and `stopListening` are `StartCapture` and `StopCapture` effects.
  - `fetch` and `response.json()` are the `Outcome` parameter.
  - `setTimeout` is a `ScheduleDisplayReset` effect plus the `DisplayReset` event.
- Session.SessionState.Settle: the reply's `success` is modelled as a boolean and `message` as a string. A reply whose `success` is some other truthy or falsy value, or which lacks a message, is not modelled.
- Session.SessionState.Settle: HTTP status codes are not distinguished. `fetch` only throws on transport failure, so a non-2xx response with a JSON body is handled like any other reply. A body that is not JSON lands in the network-error branch, as `NetworkFailure`.
- Interleavings are modelled only through the `Dispatch`/`Settle` split. Which event happens between them, and React's batching of state updates, are up to the caller.
- The library's own `listening` flag (App.tsx:53, shown at line 407) is not modelled. Only the component's `isListening` is.
- The tutorial toggle (App.tsx:152-155) and all JSX, inline styles, hover handlers and gradient strings are left out. Of `vibeColors`, only the key order is kept.
- The reload button on the blocked-microphone screen (App.tsx:227) reloads the page. That is a fresh constructor call, so it is not a separate operation.
- `console.log` and `console.error` calls are left out.
- The backend service that interprets and runs commands is not part of this model.
- The smoke-test scripts test-backend.js, test-commands.js and test-voice-commands.js only send requests and print results, so they are left out.
