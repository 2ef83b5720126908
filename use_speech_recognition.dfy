/** The speech-recognition hook: it wraps the browser's recognition object, partitions each
    result event into a final and an interim transcript, and keeps the `isListening` flag.
    Browser callbacks (`onstart`, `onresult`, `onerror`, `onend`) and the outcome of the
    microphone permission request are event methods; each reports the callback it passes on
    to the hook's caller as a `Callback` value. */
module UseSpeechRecognition {

  datatype Option<T> = None | Some(value: T)

  /** One entry of the event's result list, reduced to what the handler reads:
      `isFinal` and the transcript of its first (and, with maxAlternatives = 1, only) alternative. */
  datatype SpeechResult = SpeechResult(isFinal: bool, transcript: string)

  // ---------------------------------------------------------------------------------------
  // Partitioning a result event
  // ---------------------------------------------------------------------------------------

  /** The results the handler visits: indices `resultIndex` up to the end of the list
      (none when `resultIndex` is past the end). */
  function InRange(results: seq<SpeechResult>, resultIndex: nat): (rs: seq<SpeechResult>)
    ensures |rs| == if resultIndex <= |results| then |results| - resultIndex else 0
    ensures forall k | 0 <= k < |rs| :: rs[k] == results[resultIndex + k]
  {
    if resultIndex <= |results| then results[resultIndex..] else []
  }

  /** The text accumulated from `rs` read left to right, keeping the transcripts of the results
      whose `isFinal` equals `finals` (true: the final transcript, false: the interim one). */
  function Collect(rs: seq<SpeechResult>, finals: bool): string {
    if rs == [] then ""
    else
      var last := rs[|rs| - 1];
      Collect(rs[..|rs| - 1], finals) + (if last.isFinal == finals then last.transcript else "")
  }

  /** Reference definition: the transcripts of the results of the requested kind, in index order. */
  function TranscriptsOf(rs: seq<SpeechResult>, finals: bool): seq<string> {
    if rs == [] then []
    else (if rs[0].isFinal == finals then [rs[0].transcript] else []) + TranscriptsOf(rs[1..], finals)
  }

  /** Concatenation of a list of strings, first to last. */
  function Concat(ts: seq<string>): string {
    if ts == [] then "" else ts[0] + Concat(ts[1..])
  }

  /** Sum of the transcript lengths of `rs`. */
  function TotalLength(rs: seq<SpeechResult>): nat {
    if rs == [] then 0 else |rs[0].transcript| + TotalLength(rs[1..])
  }

  lemma {:induction false} ConcatAppend(a: seq<string>, b: seq<string>)
    ensures Concat(a + b) == Concat(a) + Concat(b)
  {
    if a != [] {
      assert (a + b)[1..] == a[1..] + b;
      ConcatAppend(a[1..], b);
    } else {
      assert a + b == b;
    }
  }

  lemma {:induction false} TranscriptsOfSnoc(rs: seq<SpeechResult>, x: SpeechResult, finals: bool)
    ensures TranscriptsOf(rs + [x], finals)
         == TranscriptsOf(rs, finals) + (if x.isFinal == finals then [x.transcript] else [])
  {
    if rs != [] {
      assert (rs + [x])[1..] == rs[1..] + [x];
      TranscriptsOfSnoc(rs[1..], x, finals);
    }
  }

  lemma {:induction false} TotalLengthSnoc(rs: seq<SpeechResult>, x: SpeechResult)
    ensures TotalLength(rs + [x]) == TotalLength(rs) + |x.transcript|
  {
    if rs != [] {
      assert (rs + [x])[1..] == rs[1..] + [x];
      TotalLengthSnoc(rs[1..], x);
    }
  }

  /** The accumulated text is the in-order concatenation of the transcripts of the results of
      the requested kind: nothing is reordered, dropped or repeated. */
  lemma {:induction false} CollectIsConcatOfSelected(rs: seq<SpeechResult>, finals: bool)
    ensures Collect(rs, finals) == Concat(TranscriptsOf(rs, finals))
  {
    if rs != [] {
      var init, last := rs[..|rs| - 1], rs[|rs| - 1];
      assert rs == init + [last];
      CollectIsConcatOfSelected(init, finals);
      TranscriptsOfSnoc(init, last, finals);
      var tail := if last.isFinal == finals then [last.transcript] else [];
      ConcatAppend(TranscriptsOf(init, finals), tail);
      assert Concat(tail) == if last.isFinal == finals then last.transcript else "" by {
        if tail != [] { assert tail[1..] == []; }
      }
    }
  }

  /** Every visited result goes to exactly one of the two strings: their lengths add up to the
      total length of the visited transcripts. */
  lemma {:induction false} CollectSplitsEveryResult(rs: seq<SpeechResult>)
    ensures |Collect(rs, true)| + |Collect(rs, false)| == TotalLength(rs)
  {
    if rs != [] {
      var init, last := rs[..|rs| - 1], rs[|rs| - 1];
      assert rs == init + [last];
      CollectSplitsEveryResult(init);
      TotalLengthSnoc(init, last);
    }
  }

  /** The `onresult` loop: walks the results from `resultIndex` to the end and appends each
      transcript to the final or the interim accumulator according to `isFinal`. */
  method PartitionResults(results: seq<SpeechResult>, resultIndex: nat)
    returns (finalTranscript: string, interimTranscript: string)
    ensures finalTranscript == Collect(InRange(results, resultIndex), true)
    ensures interimTranscript == Collect(InRange(results, resultIndex), false)
  {
    interimTranscript := "";
    finalTranscript := "";
    var i := resultIndex;
    while i < |results|
      invariant resultIndex <= i
      invariant resultIndex <= |results| ==> i <= |results|
      invariant resultIndex <= |results| ==>
        finalTranscript == Collect(results[resultIndex..i], true)
        && interimTranscript == Collect(results[resultIndex..i], false)
      invariant resultIndex > |results| ==> finalTranscript == "" && interimTranscript == ""
    {
      assert results[resultIndex..i + 1][..i - resultIndex] == results[resultIndex..i];
      if results[i].isFinal {
        finalTranscript := finalTranscript + results[i].transcript;
      } else {
        interimTranscript := interimTranscript + results[i].transcript;
      }
      i := i + 1;
    }
    assert resultIndex <= |results| ==> results[resultIndex..i] == InRange(results, resultIndex);
  }

  // ---------------------------------------------------------------------------------------
  // Recognition instances
  // ---------------------------------------------------------------------------------------

  /** The hook's options and their defaults. */
  datatype Options = Options(continuous: bool, interimResults: bool, language: string)

  const DefaultOptions := Options(true, true, "en-US")

  /** A browser recognition object as configured by the hook; `id` tells instances apart. */
  datatype Recognizer = Recognizer(
    id: nat, continuous: bool, interimResults: bool, lang: string, maxAlternatives: nat)

  /** `initializeRecognition`: no instance when recognition is unsupported or when constructing
      the browser object throws (`constructed` is false); otherwise a new instance configured
      from the options, with one alternative per result. */
  function InitializeRecognition(isSupported: bool, constructed: bool, id: nat, options: Options)
    : (r: Option<Recognizer>)
    ensures r.Some? <==> isSupported && constructed
    ensures r.Some? ==> r.value.id == id && r.value.continuous == options.continuous
                        && r.value.interimResults == options.interimResults
                        && r.value.lang == options.language && r.value.maxAlternatives == 1
  {
    if !isSupported then None
    else if !constructed then None
    else Some(Recognizer(id, options.continuous, options.interimResults, options.language, 1))
  }

  /** What the hook passes on to its caller's `onResult`, `onError` and `onEnd`. */
  datatype Callback =
    | ResultCallback(finalText: string, interimText: string)
    | ErrorCallback(error: string)
    | EndCallback

  const InitFailedMessage := "Failed to initialize speech recognition"
  const MicrophoneDeniedMessage := "Microphone access denied"
  const StartFailedMessage := "Failed to start speech recognition"

  // ---------------------------------------------------------------------------------------
  // The hook's state
  // ---------------------------------------------------------------------------------------

  class SpeechRecognitionHook {
    /** Outcome of the capability probe. */
    const isSupported: bool
    const options: Options
    var isListening: bool
    /** `recognitionRef.current`. */
    var current: Option<Recognizer>
    /** Number of instances constructed so far; the next one gets this id. */
    var created: nat
    /** Ids of the instances whose `start()` the browser ever accepted: only these fire events. */
    var started: set<nat>
    /** Ids of the instances started and not stopped since: no error or end event has fired
        after their last accepted `start()`. Calling `start()` on one of them throws. */
    var running: set<nat>
    /** Microphone permission requests not yet answered. */
    var pendingPermissions: nat

    ghost predicate Valid()
      reads this
    {
      (current.Some? ==> current.value.id < created)
      && (forall id | id in started :: id < created)
      && running <= started
      && (pendingPermissions > 0 ==> created > 0)
      && (isListening ==> started != {})
      && (!isSupported ==> created == 0)
    }

    constructor (isSupported: bool, options: Options)
      ensures Valid() && this.isSupported == isSupported && this.options == options
      ensures !isListening && current == None && created == 0
      ensures started == {} && running == {} && pendingPermissions == 0
    {
      this.isSupported := isSupported;
      this.options := options;
      isListening := false;
      current := None;
      created := 0;
      started := {};
      running := {};
      pendingPermissions := 0;
    }

    /** `start`: a no-op when unsupported; otherwise always replaces the stored instance, then
        either requests microphone access, or reports why no request could be made
        (`constructed`: the browser object could be built; `mediaDevicesAvailable`: the
        microphone API exists, otherwise calling it throws inside the outer `try`). */
    method Start(constructed: bool, mediaDevicesAvailable: bool) returns (cb: Option<Callback>)
      requires Valid()
      modifies this
      ensures Valid()
      ensures !isSupported ==> cb == None && unchanged(this)
      ensures isListening == old(isListening) && started == old(started) && running == old(running)
      ensures isSupported ==> current == InitializeRecognition(true, constructed, old(created), options)
      ensures isSupported ==> created == old(created) + (if constructed then 1 else 0)
      ensures isSupported && !constructed ==>
        cb == Some(ErrorCallback(InitFailedMessage)) && pendingPermissions == old(pendingPermissions)
      ensures isSupported && constructed && !mediaDevicesAvailable ==>
        cb == Some(ErrorCallback(StartFailedMessage)) && pendingPermissions == old(pendingPermissions)
      ensures isSupported && constructed && mediaDevicesAvailable ==>
        cb == None && pendingPermissions == old(pendingPermissions) + 1
    {
      if !isSupported {
        return None;
      }
      current := InitializeRecognition(isSupported, constructed, created, options);
      if current.Some? {
        created := created + 1;
        if mediaDevicesAvailable {
          pendingPermissions := pendingPermissions + 1;
          cb := None;
        } else {
          cb := Some(ErrorCallback(StartFailedMessage));
        }
      } else {
        cb := Some(ErrorCallback(InitFailedMessage));
      }
    }

    /** The permission request resolved: `start()` is called on whatever instance is stored
        NOW. With no instance stored, or one that is still running (the Web Speech API then
        throws InvalidStateError), the failure lands in the same `catch` as a denial. */
    method PermissionGranted() returns (cb: Option<Callback>)
      requires Valid() && pendingPermissions > 0
      modifies this
      ensures Valid()
      ensures pendingPermissions == old(pendingPermissions) - 1
      ensures current == old(current) && created == old(created) && isListening == old(isListening)
      ensures old(current).Some? && old(current).value.id !in old(running) ==>
        cb == None && started == old(started) + {old(current).value.id}
        && running == old(running) + {old(current).value.id}
      ensures old(current).None? || old(current).value.id in old(running) ==>
        cb == Some(ErrorCallback(MicrophoneDeniedMessage))
        && started == old(started) && running == old(running)
    {
      pendingPermissions := pendingPermissions - 1;
      if current.Some? && current.value.id !in running {
        started := started + {current.value.id};
        running := running + {current.value.id};
        cb := None;
      } else {
        cb := Some(ErrorCallback(MicrophoneDeniedMessage));
      }
    }

    /** The permission request was rejected: reported through `onError`; no instance starts. */
    method PermissionDenied() returns (cb: Callback)
      requires Valid() && pendingPermissions > 0
      modifies this
      ensures Valid()
      ensures cb == ErrorCallback(MicrophoneDeniedMessage)
      ensures pendingPermissions == old(pendingPermissions) - 1
      ensures current == old(current) && created == old(created)
      ensures started == old(started) && running == old(running)
      ensures isListening == old(isListening)
    {
      pendingPermissions := pendingPermissions - 1;
      cb := ErrorCallback(MicrophoneDeniedMessage);
    }

    /** `onstart` of the started instance `id`. */
    method OnStart(id: nat)
      requires Valid() && id in started
      modifies this
      ensures Valid() && isListening
      ensures current == old(current) && created == old(created)
      ensures started == old(started) && running == old(running)
      ensures pendingPermissions == old(pendingPermissions)
    {
      isListening := true;
    }

    /** `onresult`: exactly one `onResult` call, with the final and interim text of the
        results from `resultIndex` on. The hook's state is untouched. */
    method OnResult(results: seq<SpeechResult>, resultIndex: nat) returns (cb: Callback)
      ensures cb.ResultCallback?
      ensures cb.finalText == Collect(InRange(results, resultIndex), true)
      ensures cb.interimText == Collect(InRange(results, resultIndex), false)
    {
      var finalTranscript, interimTranscript := PartitionResults(results, resultIndex);
      cb := ResultCallback(finalTranscript, interimTranscript);
    }

    /** `onerror` of instance `id`: forwards the error code; `isListening` is left to `onend`.
        The instance no longer counts as running, so it may be started again. */
    method OnError(id: nat, error: string) returns (cb: Callback)
      requires Valid() && id in started
      modifies this
      ensures Valid() && cb == ErrorCallback(error)
      ensures running == old(running) - {id}
      ensures isListening == old(isListening) && current == old(current)
      ensures created == old(created) && started == old(started)
      ensures pendingPermissions == old(pendingPermissions)
    {
      running := running - {id};
      cb := ErrorCallback(error);
    }

    /** `onend` of instance `id`: clears `isListening` and calls `onEnd` once; the instance no
        longer counts as running. */
    method OnEnd(id: nat) returns (cb: Callback)
      requires Valid() && id in started
      modifies this
      ensures Valid() && !isListening && cb == EndCallback
      ensures running == old(running) - {id}
      ensures current == old(current) && created == old(created) && started == old(started)
      ensures pendingPermissions == old(pendingPermissions)
    {
      isListening := false;
      running := running - {id};
      cb := EndCallback;
    }

    /** `stop`: asks the stored instance, if any, to stop (its id is returned) and changes
        nothing here; `isListening` drops only when `onend` arrives. */
    method Stop() returns (stopping: Option<nat>)
      ensures stopping.Some? <==> current.Some?
      ensures current.Some? ==> stopping.value == current.value.id
    {
      if current.Some? {
        stopping := Some(current.value.id);
      } else {
        stopping := None;
      }
    }
  }
}
