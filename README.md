# Speech-to-text widget: recognition hook and transcript component in Dafny

The widget captures speech through the browser's speech-recognition object. It shows the
recognised text as a final transcript plus a grey interim preview. Users can copy the transcript
or clear it. Two pieces of logic are modelled:

- `use_speech_recognition.dfy`, module `UseSpeechRecognition`, models the hook
  `useSpeechRecognition`. `PartitionResults` is the `onresult` loop. It walks the result list
  from `resultIndex` to the end and collects final and non-final transcripts into two strings.
  The method is proved against the specification function `Collect`. Two lemmas relate `Collect`
  to independent definitions: an in-order concatenation of the selected transcripts, and the
  total transcript length. The class `SpeechRecognitionHook` holds the hook's state: the
  capability flag, `isListening`, `recognitionRef.current`, and bookkeeping for the instances
  created, started and still running, and the permission requests still open. The browser's callbacks and the
  two outcomes of the microphone request are event methods. Each event method returns the
  `Callback` (`onResult`, `onError` or `onEnd`) that it passes on to the caller.
- `speech_to_text.dfy`, module `SpeechToTextComponent`, models the component `SpeechToText`.
  The class `SpeechToText` has the four state cells and owns one hook. Its handlers apply the
  hook's callbacks. `SyncRecording` is the effect that copies `isListening` into `isRecording`.
  React runs that effect only when `isListening` changes. The component keeps the invariant
  "the recording indicator is on only while the hook listens". `TranscriptAfter` folds the
  `onResult` updater over any series of callbacks. A lemma shows that the result equals the old
  transcript followed by the separated non-empty final texts, in arrival order.
- `js_strings.dfy`, module `JsStrings`, models `String.prototype.trim`, using ECMA-262's
  white-space and line-terminator characters. `hasTranscription` depends on it.

External inputs become parameters of the event methods:
- the capability probe is the `isSupported` argument of the constructor;
- `constructed` says whether the browser object could be built;
- `mediaDevicesAvailable` says whether the microphone API exists;
- the permission answer is the choice between `MicrophoneGranted` and `MicrophoneDenied`.

Behaviour of the code worth noting:
- Final text is appended at the end of the transcript (SpeechToText.tsx:24).
- `start` always replaces the stored instance, even while one is listening
  (useSpeechRecognition.ts:120). It is not idempotent. `ErrorWhileListeningScenario` shows an
  error that turns the indicator off while the first session still runs. The record button then
  starts a second instance.
- `onerror` leaves `isListening` as it is; only `onend` clears it (useSpeechRecognition.ts:93-102).
- The interim text is replaced only by a later result or by clear; the end of a session leaves
  it (SpeechToText.tsx:26, 87).
- A `start` call while unsupported reports nothing from the hook
  (useSpeechRecognition.ts:113-116). The component's button shows its own notification instead.
- The copy guard tests the untrimmed transcript, but the buttons test the trimmed one
  (SpeechToText.tsx:14, 65).
- The `.catch` after `.then(() => recognitionRef.current.start())` also catches failures of
  `start()` itself (useSpeechRecognition.ts:126-133). The model reports "Microphone access
  denied" in two such cases: no instance is stored when permission arrives, or the stored
  instance is still running, i.e. no error or end event has fired since its last accepted
  start (the Web Speech API throws InvalidStateError). An instance that has ended starts
  again; `GrantAfterEndScenario` shows this.

## Model

| member | source | states |
|---|---|---|
| `UseSpeechRecognition.InRange` | client/src/lib/useSpeechRecognition.ts:80 | the visited results are exactly those at index `resultIndex` and after, in order; none when `resultIndex` is past the end |
| `UseSpeechRecognition.PartitionResults` | client/src/lib/useSpeechRecognition.ts:77-86 | the loop's final string is the accumulation of the final transcripts in range and its interim string that of the non-final ones |
| `UseSpeechRecognition.CollectIsConcatOfSelected` | client/src/lib/useSpeechRecognition.ts:80-86 | each accumulated string is the in-order concatenation of the transcripts of the results of its kind: nothing reordered, dropped or repeated |
| `UseSpeechRecognition.CollectSplitsEveryResult` | client/src/lib/useSpeechRecognition.ts:80-85 | every visited result goes to exactly one string: the two lengths add up to the total transcript length in range |
| `UseSpeechRecognition.InitializeRecognition` | client/src/lib/useSpeechRecognition.ts:58-108 | an instance exists iff recognition is supported and construction succeeded; it carries the options' continuous, interimResults and language, and maxAlternatives 1 |
| `UseSpeechRecognition.SpeechRecognitionHook.constructor` | client/src/lib/useSpeechRecognition.ts:34-37 | not listening, no stored instance, options as given |
| `UseSpeechRecognition.SpeechRecognitionHook.Start` | client/src/lib/useSpeechRecognition.ts:112-142 | unsupported: no change and no callback; otherwise the stored instance is always replaced; no instance gives "Failed to initialize speech recognition", a missing microphone API gives "Failed to start speech recognition", otherwise one permission request opens; `isListening` untouched |
| `UseSpeechRecognition.SpeechRecognitionHook.PermissionGranted` | client/src/lib/useSpeechRecognition.ts:126-133 | the instance stored at that moment is started if it exists and is not still running (no error or end since its last start); otherwise "Microphone access denied" and nothing starts |
| `UseSpeechRecognition.SpeechRecognitionHook.PermissionDenied` | client/src/lib/useSpeechRecognition.ts:130-133 | "Microphone access denied" is reported and no instance is started |
| `UseSpeechRecognition.SpeechRecognitionHook.OnStart` | client/src/lib/useSpeechRecognition.ts:70-73 | `isListening` becomes true; nothing else changes |
| `UseSpeechRecognition.SpeechRecognitionHook.OnResult` | client/src/lib/useSpeechRecognition.ts:75-91 | exactly one `onResult` call, carrying the final and interim texts of the results in range; the hook's state is untouched |
| `UseSpeechRecognition.SpeechRecognitionHook.OnError` | client/src/lib/useSpeechRecognition.ts:93-96 | the error code is forwarded to `onError`; `isListening` and the stored instance are untouched; the instance that failed is no longer running |
| `UseSpeechRecognition.SpeechRecognitionHook.OnEnd` | client/src/lib/useSpeechRecognition.ts:98-102 | `isListening` becomes false, `onEnd` is called once, and the instance that ended is no longer running |
| `UseSpeechRecognition.SpeechRecognitionHook.Stop` | client/src/lib/useSpeechRecognition.ts:145-154 | a stop request goes to the stored instance iff one exists; no state changes, so `isListening` waits for `onend` |
| `JsStrings.TrimStart` | client/src/components/SpeechToText.tsx:14 | the result is a suffix of the input, the removed prefix is all white space, and the result is empty or starts with a non-white-space character |
| `JsStrings.TrimEnd` | client/src/components/SpeechToText.tsx:14 | the result is a prefix of the input, the removed suffix is all white space, and the result is empty or ends with a non-white-space character |
| `JsStrings.Trim` | client/src/components/SpeechToText.tsx:14 | the result is a slice of the input whose removed prefix and suffix are all white space, and when non-empty it starts and ends with non-white-space |
| `JsStrings.TrimEmptyIffBlank` | client/src/components/SpeechToText.tsx:14 | trimming yields the empty string iff the input is all white space |
| `SpeechToTextComponent.HasTranscription` | client/src/components/SpeechToText.tsx:14 | holds iff the transcript has a non-white-space character; then the transcript is non-empty, so an enabled copy button always passes the copy guard |
| `SpeechToTextComponent.AppendFinalHasTranscription` | client/src/components/SpeechToText.tsx:14-28 | after a result, `hasTranscription` holds iff it held before or the final text has a non-white-space character |
| `SpeechToTextComponent.TranscriptAfterKeepsTranscription` | client/src/components/SpeechToText.tsx:14-37 | once the copy and clear buttons are enabled, no series of callbacks disables them |
| `SpeechToTextComponent.TranscriptAfterAppendsSpoken` | client/src/components/SpeechToText.tsx:22-37 | after any series of callbacks the transcript is the old one followed by each non-empty final text plus a space, in arrival order; interim texts, errors and ends add nothing |
| `SpeechToTextComponent.SpeechToText.constructor` | client/src/components/SpeechToText.tsx:10-21 | empty texts, both flags false, a fresh hook with the default options |
| `SpeechToTextComponent.SpeechToText.ActionsEnabled` | client/src/components/SpeechToText.tsx:153-170 | the copy and clear buttons are enabled iff the transcript has a non-white-space character |
| `SpeechToTextComponent.SpeechToText.HandleResult` | client/src/components/SpeechToText.tsx:22-28 | a non-empty final text appends `final + " "`, an empty one leaves the transcript; the interim text is replaced; `isProcessing` is "no final text and some interim text"; `isRecording` is untouched |
| `SpeechToTextComponent.SpeechToText.HandleError` | client/src/components/SpeechToText.tsx:29-36 | `isRecording` becomes false; both texts and `isProcessing` are untouched |
| `SpeechToTextComponent.SpeechToText.Deliver` | client/src/components/SpeechToText.tsx:16-37 | each callback runs its handler; the transcript moves by one `Step`; the default `onEnd` changes nothing |
| `SpeechToTextComponent.SpeechToText.SyncRecording` | client/src/components/SpeechToText.tsx:40-42 | `isRecording` takes the value of `isListening` when that changed during the event, and is kept otherwise |
| `SpeechToTextComponent.SpeechToText.ToggleRecording` | client/src/components/SpeechToText.tsx:45-61 | unsupported: no state changes and neither start nor stop; not recording: `isProcessing` is cleared and the hook starts; recording: only a stop request; the transcript never changes; the indicator invariant is kept |
| `SpeechToTextComponent.SpeechToText.RecognitionStarted` | client/src/components/SpeechToText.tsx:39-42 | the hook listens; `isRecording` becomes true only if the hook was not already listening |
| `SpeechToTextComponent.SpeechToText.RecognitionResult` | client/src/lib/useSpeechRecognition.ts:75-91 | the transcript gains the partitioned final text (plus a space, when non-empty); the interim text becomes the partitioned interim text; `isProcessing` follows the pair |
| `SpeechToTextComponent.SpeechToText.RecognitionError` | client/src/components/SpeechToText.tsx:29-36 | recording is off afterwards; both texts, `isProcessing` and `isListening` are kept; the failed instance is no longer running |
| `SpeechToTextComponent.SpeechToText.RecognitionEnded` | client/src/lib/useSpeechRecognition.ts:98-102 | the hook stops listening and `isRecording` is false; both texts are kept |
| `SpeechToTextComponent.SpeechToText.MicrophoneGranted` | client/src/lib/useSpeechRecognition.ts:126-133 | the stored instance is started unless it is still running; otherwise the failure is reported, nothing starts and recording is off |
| `SpeechToTextComponent.SpeechToText.MicrophoneDenied` | client/src/lib/useSpeechRecognition.ts:130-133 | the denial is reported, recording is off, nothing starts, and the transcript is kept |
| `SpeechToTextComponent.SpeechToText.CopyToClipboard` | client/src/components/SpeechToText.tsx:64-82 | the transcript is written iff it is non-empty, untrimmed; otherwise nothing is written |
| `SpeechToTextComponent.SpeechToText.ClearTranscription` | client/src/components/SpeechToText.tsx:85-92 | both texts become empty and the flags stay; the copy and clear buttons become disabled |

## Left out

- Notifications (toasts), `console` logging, the JSX markup, the placeholder text, the
  "Recording…" and "Processing…" indicators and the CSS classes are presentation only.
- The capability probe (`window.SpeechRecognition || window.webkitSpeechRecognition`) is
  replaced by its outcome, the constructor's `isSupported`. The first render, before the
  probe's effect has run, is not modelled.
- `navigator.mediaDevices.getUserMedia` and `navigator.clipboard.writeText` are asynchronous
  browser APIs. Only their outcomes are modelled: permission granted or denied, and the text
  handed to the clipboard. The clipboard's success or failure only produces a notification.
- Audio capture and recognition are the browser's business. The event methods require only
  what the browser guarantees: events come from an instance whose `start()` was accepted, and
  a permission answer needs an open request.
- Each result keeps only the transcript of its first alternative, because the hook sets
  `maxAlternatives` to 1 and reads `[0]`.
- Unmount cleanup (useSpeechRecognition.ts:157-167), `useCallback` dependency lists and
  React's batching of state updates are framework plumbing. Every handler sees the current
  state.
- The errors swallowed around `stop()` have no effect on the state, so they are not modelled.
- The server-side storage stubs, the page layout and the build configuration are not part of
  this model.
