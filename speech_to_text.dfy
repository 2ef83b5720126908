/** The speech-to-text component: four state cells (the final transcript, the interim text,
    the recording flag and the processing flag) updated by the hook's callbacks and by the
    record, copy and clear buttons. */
module SpeechToTextComponent {
  import opened JsStrings
  import opened UseSpeechRecognition

  // ---------------------------------------------------------------------------------------
  // The transcript reducer
  // ---------------------------------------------------------------------------------------

  /** The updater applied to the final transcript by `onResult`: a non-empty final text is
      appended at the end, followed by one space. */
  function AppendFinal(prev: string, final: string): string {
    if final != "" then prev + final + " " else prev
  }

  /** The processing flag set by `onResult`: no final text and some interim text. */
  predicate Processing(final: string, interim: string) {
    final == "" && |interim| > 0
  }

  /** The final transcript after one callback: results append, errors and ends leave it. */
  function Step(transcript: string, cb: Callback): string {
    match cb
    case ResultCallback(final, _) => AppendFinal(transcript, final)
    case _ => transcript
  }

  /** The final transcript after a series of callbacks, applied one after another. */
  function TranscriptAfter(transcript: string, cbs: seq<Callback>): string {
    if cbs == [] then transcript
    else Step(TranscriptAfter(transcript, cbs[..|cbs| - 1]), cbs[|cbs| - 1])
  }

  /** What one callback contributes to the transcript. */
  function Piece(cb: Callback): string {
    if cb.ResultCallback? && cb.finalText != "" then cb.finalText + " " else ""
  }

  /** Reference definition: the separated non-empty final texts of a series of callbacks,
      in the order they arrived. */
  function Spoken(cbs: seq<Callback>): string {
    if cbs == [] then "" else Piece(cbs[0]) + Spoken(cbs[1..])
  }

  lemma {:induction false} SpokenSnoc(cbs: seq<Callback>, cb: Callback)
    ensures Spoken(cbs + [cb]) == Spoken(cbs) + Piece(cb)
  {
    if cbs != [] {
      assert (cbs + [cb])[1..] == cbs[1..] + [cb];
      SpokenSnoc(cbs[1..], cb);
    }
  }

  /** The transcript only grows at its end: after any series of callbacks it is the earlier
      transcript followed by each non-empty final text and a space, in arrival order, whatever
      the interim texts, errors and ends in between. */
  lemma {:induction false} TranscriptAfterAppendsSpoken(transcript: string, cbs: seq<Callback>)
    ensures TranscriptAfter(transcript, cbs) == transcript + Spoken(cbs)
  {
    if cbs != [] {
      var init, last := cbs[..|cbs| - 1], cbs[|cbs| - 1];
      assert cbs == init + [last];
      TranscriptAfterAppendsSpoken(transcript, init);
      SpokenSnoc(init, last);
    }
  }

  /** `hasTranscription`: the trimmed final transcript is non-empty, that is, the transcript
      holds at least one character that is not white space. */
  function HasTranscription(transcript: string): (has: bool)
    ensures has <==> !Blank(transcript)
    ensures has ==> transcript != ""
  {
    TrimEmptyIffBlank(transcript);
    |Trim(transcript)| > 0
  }

  /** A result enables the copy and clear buttons exactly when the transcript already did or
      its final text has a non-white-space character. */
  lemma AppendFinalHasTranscription(prev: string, final: string)
    ensures HasTranscription(AppendFinal(prev, final))
        <==> HasTranscription(prev) || HasTranscription(final)
  {
    if final != "" {
      BlankConcat(prev + final, " ");
      BlankConcat(prev, final);
    }
  }

  /** Once enabled, the copy and clear buttons stay enabled whatever callbacks arrive. */
  lemma TranscriptAfterKeepsTranscription(transcript: string, cbs: seq<Callback>)
    requires HasTranscription(transcript)
    ensures HasTranscription(TranscriptAfter(transcript, cbs))
  {
    TranscriptAfterAppendsSpoken(transcript, cbs);
    BlankConcat(transcript, Spoken(cbs));
  }

  // ---------------------------------------------------------------------------------------
  // The component's state
  // ---------------------------------------------------------------------------------------

  class SpeechToText {
    /** The hook instance, called with `onResult` and `onError` and default options. */
    const recognition: SpeechRecognitionHook
    var finalTranscription: string
    var interimTranscription: string
    var isRecording: bool
    var isProcessing: bool

    /** The recording indicator is only ever on while the hook is listening. */
    ghost predicate Valid()
      reads this, recognition
    {
      recognition.Valid() && (isRecording ==> recognition.isListening)
    }

    /** Mounting the component; `isSupported` is the outcome of the capability probe. */
    constructor (isSupported: bool)
      ensures Valid() && fresh(recognition)
      ensures recognition.isSupported == isSupported && recognition.options == DefaultOptions
      ensures !recognition.isListening && recognition.current == None
      ensures recognition.created == 0 && recognition.started == {} && recognition.running == {}
      ensures recognition.pendingPermissions == 0
      ensures finalTranscription == "" && interimTranscription == ""
      ensures !isRecording && !isProcessing
    {
      recognition := new SpeechRecognitionHook(isSupported, DefaultOptions);
      finalTranscription := "";
      interimTranscription := "";
      isRecording := false;
      isProcessing := false;
    }

    /** The copy and clear buttons are enabled exactly when `hasTranscription` holds. */
    function ActionsEnabled(): (enabled: bool)
      reads this
      ensures enabled <==> !Blank(finalTranscription)
    {
      HasTranscription(finalTranscription)
    }

    /** The `onResult` handler. */
    method HandleResult(final: string, interim: string)
      modifies this
      ensures finalTranscription == AppendFinal(old(finalTranscription), final)
      ensures interimTranscription == interim
      ensures isProcessing == Processing(final, interim)
      ensures isRecording == old(isRecording)
    {
      if final != "" {
        finalTranscription := finalTranscription + final + " ";
      }
      interimTranscription := interim;
      isProcessing := final == "" && |interim| > 0;
    }

    /** The `onError` handler (its notification is not modelled). */
    method HandleError(error: string)
      modifies this
      ensures !isRecording
      ensures finalTranscription == old(finalTranscription)
      ensures interimTranscription == old(interimTranscription)
      ensures isProcessing == old(isProcessing)
    {
      isRecording := false;
    }

    /** Runs the handler the hook calls back: `onResult`, `onError`, or the default `onEnd`,
        which does nothing. */
    method Deliver(cb: Callback)
      modifies this
      ensures finalTranscription == Step(old(finalTranscription), cb)
      ensures cb.ResultCallback? ==>
        interimTranscription == cb.interimText
        && isProcessing == Processing(cb.finalText, cb.interimText)
        && isRecording == old(isRecording)
      ensures cb.ErrorCallback? ==>
        !isRecording && interimTranscription == old(interimTranscription)
        && isProcessing == old(isProcessing)
      ensures cb.EndCallback? ==>
        interimTranscription == old(interimTranscription)
        && isProcessing == old(isProcessing) && isRecording == old(isRecording)
    {
      match cb
      case ResultCallback(final, interim) => HandleResult(final, interim);
      case ErrorCallback(error) => HandleError(error);
      case EndCallback =>
    }

    /** The effect that copies `isListening` into `isRecording`; React runs it only when
        `isListening` changed since the last render. */
    method SyncRecording(wasListening: bool)
      modifies this
      ensures isRecording ==
        if recognition.isListening != wasListening then recognition.isListening else old(isRecording)
      ensures finalTranscription == old(finalTranscription)
      ensures interimTranscription == old(interimTranscription)
      ensures isProcessing == old(isProcessing)
    {
      if recognition.isListening != wasListening {
        isRecording := recognition.isListening;
      }
    }

    /** The record button: nothing when unsupported; when not recording, clears the processing
        flag and starts the hook; when recording, asks the hook to stop. Returns the id of the
        instance asked to stop. */
    method ToggleRecording(constructed: bool, mediaDevicesAvailable: bool)
      returns (stopping: Option<nat>)
      requires Valid()
      modifies this, recognition
      ensures Valid()
      ensures finalTranscription == old(finalTranscription)
      ensures interimTranscription == old(interimTranscription)
      ensures !recognition.isSupported ==>
        stopping == None && unchanged(this) && unchanged(recognition)
      ensures recognition.isSupported && old(isRecording) ==>
        unchanged(this) && unchanged(recognition)
        && (stopping.Some? <==> recognition.current.Some?)
        && (stopping.Some? ==> stopping.value == recognition.current.value.id)
      ensures recognition.isSupported && !old(isRecording) ==>
        stopping == None && !isProcessing && !isRecording
        && recognition.isListening == old(recognition.isListening)
        && recognition.started == old(recognition.started)
        && recognition.running == old(recognition.running)
        && recognition.created == old(recognition.created) + (if constructed then 1 else 0)
        && recognition.current == InitializeRecognition(
             true, constructed, old(recognition.created), recognition.options)
        && recognition.pendingPermissions ==
             old(recognition.pendingPermissions) + (if constructed && mediaDevicesAvailable then 1 else 0)
    {
      if !recognition.isSupported {
        return None;
      }
      if !isRecording {
        isProcessing := false;
        var cb := recognition.Start(constructed, mediaDevicesAvailable);
        if cb.Some? {
          Deliver(cb.value);
        }
        stopping := None;
      } else {
        stopping := recognition.Stop();
      }
    }

    /** The browser's `onstart` from instance `id`. `isRecording` follows only if the hook was
        not listening yet: after an error while listening it stays off. */
    method RecognitionStarted(id: nat)
      requires Valid() && id in recognition.started
      modifies this, recognition
      ensures Valid() && recognition.isListening
      ensures isRecording == if old(recognition.isListening) then old(isRecording) else true
      ensures finalTranscription == old(finalTranscription)
      ensures interimTranscription == old(interimTranscription)
      ensures isProcessing == old(isProcessing)
      ensures recognition.current == old(recognition.current)
      ensures recognition.created == old(recognition.created)
      ensures recognition.started == old(recognition.started)
      ensures recognition.running == old(recognition.running)
      ensures recognition.pendingPermissions == old(recognition.pendingPermissions)
    {
      var wasListening := recognition.isListening;
      recognition.OnStart(id);
      SyncRecording(wasListening);
    }

    /** The browser's `onresult`: the partitioned texts go through `onResult`. */
    method RecognitionResult(results: seq<SpeechResult>, resultIndex: nat)
      requires Valid()
      modifies this
      ensures Valid()
      ensures finalTranscription ==
        AppendFinal(old(finalTranscription), Collect(InRange(results, resultIndex), true))
      ensures interimTranscription == Collect(InRange(results, resultIndex), false)
      ensures isProcessing ==
        Processing(Collect(InRange(results, resultIndex), true),
                   Collect(InRange(results, resultIndex), false))
      ensures isRecording == old(isRecording)
    {
      var cb := recognition.OnResult(results, resultIndex);
      Deliver(cb);
    }

    /** The browser's `onerror` from instance `id`: recording stops showing; the transcript is
        kept; the hook keeps listening until `onend`. */
    method RecognitionError(id: nat, error: string)
      requires Valid() && id in recognition.started
      modifies this, recognition
      ensures Valid() && !isRecording
      ensures finalTranscription == old(finalTranscription)
      ensures interimTranscription == old(interimTranscription)
      ensures isProcessing == old(isProcessing)
      ensures recognition.isListening == old(recognition.isListening)
      ensures recognition.running == old(recognition.running) - {id}
      ensures recognition.current == old(recognition.current)
      ensures recognition.created == old(recognition.created)
      ensures recognition.started == old(recognition.started)
      ensures recognition.pendingPermissions == old(recognition.pendingPermissions)
    {
      var cb := recognition.OnError(id, error);
      Deliver(cb);
    }

    /** The browser's `onend` from instance `id`: the hook stops listening and the recording
        flag follows. */
    method RecognitionEnded(id: nat)
      requires Valid() && id in recognition.started
      modifies this, recognition
      ensures Valid() && !recognition.isListening && !isRecording
      ensures finalTranscription == old(finalTranscription)
      ensures interimTranscription == old(interimTranscription)
      ensures isProcessing == old(isProcessing)
      ensures recognition.current == old(recognition.current)
      ensures recognition.created == old(recognition.created)
      ensures recognition.started == old(recognition.started)
      ensures recognition.running == old(recognition.running) - {id}
      ensures recognition.pendingPermissions == old(recognition.pendingPermissions)
    {
      var wasListening := recognition.isListening;
      var cb := recognition.OnEnd(id);
      Deliver(cb);
      SyncRecording(wasListening);
    }

    /** Microphone access granted: the stored instance starts unless it is still running, or
        the failure is reported. */
    method MicrophoneGranted()
      requires Valid() && recognition.pendingPermissions > 0
      modifies this, recognition
      ensures Valid()
      ensures recognition.pendingPermissions == old(recognition.pendingPermissions) - 1
      ensures recognition.isListening == old(recognition.isListening)
      ensures recognition.current == old(recognition.current)
      ensures recognition.created == old(recognition.created)
      ensures finalTranscription == old(finalTranscription)
      ensures interimTranscription == old(interimTranscription)
      ensures isProcessing == old(isProcessing)
      ensures old(recognition.current).Some?
              && old(recognition.current).value.id !in old(recognition.running) ==>
        recognition.started == old(recognition.started) + {old(recognition.current).value.id}
        && recognition.running == old(recognition.running) + {old(recognition.current).value.id}
        && isRecording == old(isRecording)
      ensures old(recognition.current).None?
              || old(recognition.current).value.id in old(recognition.running) ==>
        recognition.started == old(recognition.started)
        && recognition.running == old(recognition.running) && !isRecording
    {
      var cb := recognition.PermissionGranted();
      if cb.Some? {
        Deliver(cb.value);
      }
    }

    /** Microphone access denied: reported, recording off, nothing started. */
    method MicrophoneDenied()
      requires Valid() && recognition.pendingPermissions > 0
      modifies this, recognition
      ensures Valid() && !isRecording
      ensures recognition.pendingPermissions == old(recognition.pendingPermissions) - 1
      ensures recognition.started == old(recognition.started)
      ensures recognition.running == old(recognition.running)
      ensures recognition.isListening == old(recognition.isListening)
      ensures recognition.current == old(recognition.current)
      ensures recognition.created == old(recognition.created)
      ensures finalTranscription == old(finalTranscription)
      ensures interimTranscription == old(interimTranscription)
      ensures isProcessing == old(isProcessing)
    {
      var cb := recognition.PermissionDenied();
      Deliver(cb);
    }

    /** `copyToClipboard`: the text written to the clipboard, none when the (untrimmed)
        transcript is empty. The clipboard's answer only produces a notification. */
    method CopyToClipboard() returns (written: Option<string>)
      ensures written.Some? <==> finalTranscription != ""
      ensures written.Some? ==> written.value == finalTranscription
    {
      if finalTranscription == "" {
        return None;
      }
      written := Some(finalTranscription);
    }

    /** `clearTranscription`: both texts become empty; the flags stay. */
    method ClearTranscription()
      requires Valid()
      modifies this
      ensures Valid()
      ensures finalTranscription == "" && interimTranscription == ""
      ensures isRecording == old(isRecording) && isProcessing == old(isProcessing)
      ensures !ActionsEnabled()
    {
      finalTranscription := "";
      interimTranscription := "";
    }
  }

  /** A session that goes through permission, start, two results, stop and end. */
  method ListeningScenario()
  {
    var c := new SpeechToText(true);
    var stopping := c.ToggleRecording(true, true);
    assert c.recognition.current == Some(Recognizer(0, true, true, "en-US", 1));
    c.MicrophoneGranted();
    assert c.recognition.started == {0};
    c.RecognitionStarted(0);
    assert c.isRecording;
    c.RecognitionResult([SpeechResult(true, "hello")], 0);
    assert c.finalTranscription == "hello ";
    c.RecognitionResult([SpeechResult(true, "hello"), SpeechResult(false, "wor")], 1);
    assert c.finalTranscription == "hello " && c.interimTranscription == "wor" && c.isProcessing;
    stopping := c.ToggleRecording(true, true);
    assert stopping == Some(0) && c.recognition.isListening;
    c.RecognitionEnded(0);
    assert !c.isRecording && c.finalTranscription == "hello ";
  }

  /** An error while listening turns the indicator off although the session still runs, so the
      record button starts a second instance beside the first. */
  method ErrorWhileListeningScenario()
  {
    var c := new SpeechToText(true);
    var stopping := c.ToggleRecording(true, true);
    assert c.recognition.current == Some(Recognizer(0, true, true, "en-US", 1));
    c.MicrophoneGranted();
    c.RecognitionStarted(0);
    c.RecognitionError(0, "network");
    assert !c.isRecording && c.recognition.isListening;
    stopping := c.ToggleRecording(true, true);
    assert stopping == None && c.recognition.current == Some(Recognizer(1, true, true, "en-US", 1));
    c.MicrophoneGranted();
    c.RecognitionStarted(1);
    assert !c.isRecording && c.recognition.started == {0, 1} && c.recognition.running == {1};
  }

  /** Two presses before any permission answer leave two requests open for the second
      instance. The first grant starts it; the second grant arrives after it ended and starts
      it again, and the indicator comes back on. */
  method GrantAfterEndScenario()
  {
    var c := new SpeechToText(true);
    var stopping := c.ToggleRecording(true, true);
    stopping := c.ToggleRecording(true, true);
    assert c.recognition.current == Some(Recognizer(1, true, true, "en-US", 1));
    assert c.recognition.pendingPermissions == 2;
    c.MicrophoneGranted();
    assert c.recognition.running == {1};
    c.RecognitionStarted(1);
    c.RecognitionEnded(1);
    assert c.recognition.running == {} && !c.isRecording;
    c.MicrophoneGranted();
    assert c.recognition.running == {1};
    c.RecognitionStarted(1);
    assert c.isRecording;
  }
}
