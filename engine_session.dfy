/**
 * The engine-session part of the global voice-assistant service: the flags
 * `isEngineStarted` and `isInitialized`, the guarded start/stop/toggle/destroy
 * operations, the recorder-thread bookkeeping they drive, and the branches of
 * the speech engine's message callback.
 *
 * The speech SDK is outside the model: every value it returns (an
 * initialisation code, a directive's reply) is a parameter, and everything the
 * service tells the outside world (directives sent, listener callbacks, events
 * posted on the application's event bus) is appended to the `notices` log.
 */
module EngineSession {
  import opened Wrappers
  import opened SpeechResults

  /** The SDK's success code. */
  const ERR_NO_ERROR: int := 0
  /**
   * The SDK's "recording environment check failed" code. Its numeric value is
   * defined by the SDK, not by the application; the model only needs it to be
   * distinct from `ERR_NO_ERROR`.
   */
  const ERR_REC_CHECK_ENVIRONMENT_FAILED: int := -700

  datatype Directive = SyncStopEngine | StartEngine | FinishTalking

  /** Why an error was reported; `None` as a code stands for "no engine, so no reply". */
  datatype ErrorReason =
    | NotInitialized
    | InitFailed(code: int)
    | SyncStopFailed(reply: Option<int>)
    | EnvironmentCheckFailed
    | StartFailed(reply: Option<int>)
    | RecognitionError(message: string)

  datatype Notice =
    | Sent(directive: Directive)       // a directive sent to the engine
    | EngineDestroyed                  // the engine's destroyEngine
    | Error(reason: ErrorReason)       // listener onError, with a VOICE_ERROR event
    | RecordingState(on: bool)         // a VOICE_RECORDING_STATE event
    | EngineInitialized                // listener onEngineInitialized
    | RecordingStarted                 // listener onRecordingStarted
    | RecordingStopped                 // listener onRecordingStopped
    | RecorderStopped                  // the microphone recorder's stop()
    | PartialText(data: string)        // a VOICE_PARTIAL_RESULT event
    | FinalText(data: string)          // a VOICE_FINAL_RESULT event
    | Recognized(result: SpeechResult) // listener onSpeechResult (and onVoiceCommand when final)

  /** The body of an engine error message: not JSON, JSON without "err_msg", or JSON with it. */
  datatype ErrorBody = NotJson | NoErrMsg | ErrMsg(message: string)

  /** The engine messages the service handles, and any other message type. */
  datatype SpeechMessage =
    | EngineStart
    | EngineStop
    | EngineError(data: string, body: ErrorBody)
    | PartialResult(data: string, payload: SpeechPayload)
    | FinalResult(data: string, payload: SpeechPayload)
    | VolumeLevel
    | OtherMessage(messageType: int)

  /** How `startRecording` ended; `PermissionThrown` is the exception it lets escape. */
  datatype RecordingStart = Started | AlreadyRunning | RecorderInitFailed | PermissionThrown

  /** The error text reported for an engine error message. */
  function ErrorText(data: string, body: ErrorBody): (text: string)
    ensures body.ErrMsg? ==> text == body.message
    ensures !body.ErrMsg? ==> text == data
  {
    if body.ErrMsg? then body.message else data
  }

  class SpeechService {
    var hasEngine: bool        // speechEngine != null
    var isEngineStarted: bool
    var isInitialized: bool
    var hasAudioRecord: bool   // audioRecord != null
    var recorderAlive: bool    // recorderThread?.isAlive == true
    var isRecording: bool      // the recorder thread's run flag
    var notices: seq<Notice>

    ghost predicate Valid()
      reads this
    {
      && (isInitialized ==> hasEngine)
      && (recorderAlive ==> hasAudioRecord)
    }

    constructor ()
      ensures Valid()
      ensures !hasEngine && !isEngineStarted && !isInitialized
      ensures !hasAudioRecord && !recorderAlive && !isRecording && notices == []
    {
      hasEngine, isEngineStarted, isInitialized := false, false, false;
      hasAudioRecord, recorderAlive, isRecording := false, false, false;
      notices := [];
    }

    /** What a directive sent through `speechEngine?.` returns: nothing without an engine. */
    function Reply(code: int): (r: Option<int>)
      reads this
      ensures r.Some? <==> hasEngine
      ensures r.Some? ==> r.value == code
    {
      if hasEngine then Some(code) else None
    }

    /**
     * `initVoiceEngine`: an engine that already exists is kept as it is, even
     * when its earlier initialisation failed; otherwise the engine is created and
     * `isInitialized` follows the initialisation code.
     */
    method InitVoiceEngine(initCode: int)
      requires Valid()
      modifies this
      ensures Valid()
      ensures old(hasEngine) ==> unchanged(this)
      ensures !old(hasEngine) ==> hasEngine && isInitialized == (initCode == ERR_NO_ERROR)
      ensures !old(hasEngine) ==> notices == old(notices) + [if initCode == ERR_NO_ERROR then EngineInitialized else Error(InitFailed(initCode))]
      ensures isEngineStarted == old(isEngineStarted)
      ensures hasAudioRecord == old(hasAudioRecord) && recorderAlive == old(recorderAlive) && isRecording == old(isRecording)
    {
      if hasEngine {
        return;
      }
      hasEngine := true;
      if initCode != ERR_NO_ERROR {
        notices := notices + [Error(InitFailed(initCode))];
      } else {
        isInitialized := true;
        notices := notices + [EngineInitialized];
      }
    }

    /**
     * `startVoiceAssistant`: already started means success with no directive;
     * otherwise a synchronous stop and then a start directive are sent, and the
     * result is success exactly when both are accepted. It never sets the
     * started flag: only the engine's start message does.
     */
    method StartVoiceAssistant(syncStopCode: int, startCode: int) returns (ok: bool)
      requires Valid()
      modifies this`notices
      ensures Valid()
      ensures old(isEngineStarted) ==> ok && notices == old(notices)
      ensures !old(isEngineStarted) && !hasEngine ==> !ok && notices == old(notices) + [Error(SyncStopFailed(None))]
      ensures !old(isEngineStarted) && hasEngine ==>
                ok == (syncStopCode == ERR_NO_ERROR && startCode == ERR_NO_ERROR) &&
                notices == old(notices) + StartNotices(syncStopCode, startCode)
    {
      if isEngineStarted {
        return true;
      }
      if hasEngine {
        notices := notices + [Sent(SyncStopEngine)];
      }
      var ret := Reply(syncStopCode);
      if ret != Some(ERR_NO_ERROR) {
        notices := notices + [Error(SyncStopFailed(ret))];
        ok := false;
      } else {
        notices := notices + [Sent(StartEngine)];
        var startRet := Reply(startCode);
        if startRet == Some(ERR_REC_CHECK_ENVIRONMENT_FAILED) {
          notices := notices + [Error(EnvironmentCheckFailed)];
          ok := false;
        } else if startRet != Some(ERR_NO_ERROR) {
          notices := notices + [Error(StartFailed(startRet))];
          ok := false;
        } else {
          ok := true;
        }
      }
    }

    /** The directives and errors of a start attempt on an existing engine. */
    static function StartNotices(syncStopCode: int, startCode: int): (ns: seq<Notice>)
      ensures |ns| >= 2 && ns[0] == Sent(SyncStopEngine)
      ensures syncStopCode != ERR_NO_ERROR ==> ns == [Sent(SyncStopEngine), Error(SyncStopFailed(Some(syncStopCode)))]
      ensures syncStopCode == ERR_NO_ERROR ==> |ns| >= 2 && ns[1] == Sent(StartEngine)
      ensures syncStopCode == ERR_NO_ERROR && startCode == ERR_NO_ERROR ==> ns == [Sent(SyncStopEngine), Sent(StartEngine)]
    {
      if syncStopCode != ERR_NO_ERROR then [Sent(SyncStopEngine), Error(SyncStopFailed(Some(syncStopCode)))]
      else if startCode == ERR_REC_CHECK_ENVIRONMENT_FAILED then [Sent(SyncStopEngine), Sent(StartEngine), Error(EnvironmentCheckFailed)]
      else if startCode != ERR_NO_ERROR then [Sent(SyncStopEngine), Sent(StartEngine), Error(StartFailed(Some(startCode)))]
      else [Sent(SyncStopEngine), Sent(StartEngine)]
    }

    /**
     * `stopRecording`: a recorder thread that is not alive is left alone;
     * otherwise its run flag is cleared, it is joined, and the recorder is stopped.
     */
    method StopRecording()
      requires Valid()
      modifies this`isRecording, this`recorderAlive, this`notices
      ensures Valid()
      ensures !old(recorderAlive) ==> unchanged(this)
      ensures old(recorderAlive) ==> !isRecording && !recorderAlive &&
                                     notices == old(notices) + [RecorderStopped, RecordingState(false)]
    {
      if !recorderAlive {
        return;
      }
      isRecording := false;
      recorderAlive := false;
      notices := notices + [RecorderStopped, RecordingState(false)];
    }

    /**
     * `stopVoiceAssistant`: does nothing unless the engine is started; otherwise
     * tells the engine the user finished talking and stops the recorder thread.
     * The started flag stays as it is until the engine's stop message.
     */
    method StopVoiceAssistant()
      requires Valid()
      modifies this`isRecording, this`recorderAlive, this`notices
      ensures Valid()
      ensures !old(isEngineStarted) ==> unchanged(this)
      ensures old(isEngineStarted) ==> !recorderAlive
      ensures old(isEngineStarted) ==> isRecording == (if old(recorderAlive) then false else old(isRecording))
      ensures old(isEngineStarted) ==>
                notices == old(notices) + (if hasEngine then [Sent(FinishTalking)] else [])
                                        + (if old(recorderAlive) then [RecorderStopped, RecordingState(false)] else [])
    {
      if !isEngineStarted {
        return;
      }
      if hasEngine {
        notices := notices + [Sent(FinishTalking)];
      }
      StopRecording();
    }

    /**
     * `toggleVoiceAssistant`: refuses (reporting the error and a "not recording"
     * state) before initialisation; stops a started engine and answers false;
     * otherwise answers what starting answers.
     */
    method ToggleVoiceAssistant(syncStopCode: int, startCode: int) returns (ok: bool)
      requires Valid()
      modifies this`isRecording, this`recorderAlive, this`notices
      ensures Valid()
      ensures isEngineStarted == old(isEngineStarted) && isInitialized == old(isInitialized)
      ensures !isInitialized ==> !ok && notices == old(notices) + [Error(NotInitialized), RecordingState(false)]
                                 && recorderAlive == old(recorderAlive) && isRecording == old(isRecording)
      ensures isInitialized && isEngineStarted ==>
                && !ok && !recorderAlive
                && isRecording == (if old(recorderAlive) then false else old(isRecording))
                && notices == old(notices) + [Sent(FinishTalking)]
                                           + (if old(recorderAlive) then [RecorderStopped, RecordingState(false)] else [])
      ensures isInitialized && !isEngineStarted ==>
                recorderAlive == old(recorderAlive) && isRecording == old(isRecording) &&
                ok == (syncStopCode == ERR_NO_ERROR && startCode == ERR_NO_ERROR) &&
                notices == old(notices) + StartNotices(syncStopCode, startCode)
    {
      if !isInitialized {
        notices := notices + [Error(NotInitialized), RecordingState(false)];
        return false;
      }
      if isEngineStarted {
        StopVoiceAssistant();
        ok := false;
      } else {
        ok := StartVoiceAssistant(syncStopCode, startCode);
      }
    }

    /** `destroyEngine`: stops the recorder thread, destroys the engine and clears both flags. */
    method DestroyEngine()
      requires Valid()
      modifies this
      ensures Valid()
      ensures !isEngineStarted && !isInitialized && !hasEngine && !recorderAlive
      ensures hasAudioRecord == old(hasAudioRecord)
      ensures isRecording == (if old(recorderAlive) then false else old(isRecording))
      ensures notices == old(notices)
                         + (if old(recorderAlive) then [RecorderStopped, RecordingState(false)] else [])
                         + (if old(hasEngine) then [EngineDestroyed] else [])
    {
      StopRecording();
      if hasEngine {
        notices := notices + [EngineDestroyed];
      }
      hasEngine := false;
      isEngineStarted := false;
      isInitialized := false;
    }

    /**
     * `startRecording`: prepares the microphone recorder once (throwing when the
     * record permission is missing, failing when the device does not
     * initialise), then starts a recorder thread unless one is alive.
     */
    method StartRecording(permission: bool, deviceReady: bool) returns (outcome: RecordingStart)
      requires Valid()
      modifies this`hasAudioRecord, this`isRecording, this`recorderAlive, this`notices
      ensures Valid()
      ensures !old(hasAudioRecord) && !permission ==> outcome == PermissionThrown && unchanged(this)
      ensures !old(hasAudioRecord) && permission && !deviceReady ==> outcome == RecorderInitFailed && unchanged(this)
      ensures old(hasAudioRecord) || (permission && deviceReady) ==>
                hasAudioRecord &&
                if old(recorderAlive) then outcome == AlreadyRunning && notices == old(notices) && isRecording == old(isRecording)
                else outcome == Started && isRecording && notices == old(notices) + [RecordingState(true)]
      ensures outcome in {Started, AlreadyRunning} <==> recorderAlive
    {
      if !hasAudioRecord {
        if !permission {
          return PermissionThrown;
        }
        if !deviceReady {
          return RecorderInitFailed;
        }
        hasAudioRecord := true;
      }
      if recorderAlive {
        return AlreadyRunning;
      }
      isRecording := true;
      recorderAlive := true;
      notices := notices + [RecordingState(true)];
      outcome := Started;
    }

    /**
     * The recorder thread's `run` returning on its own (a read error, a rejected
     * package, a missing permission); what it does on the way out belongs to the
     * thread's own model.
     */
    method RecorderThreadExited()
      requires Valid() && recorderAlive
      modifies this`recorderAlive
      ensures Valid() && !recorderAlive
    {
      recorderAlive := false;
    }

    /**
     * `onSpeechMessage`. Only the engine's start message sets the started flag
     * and only its stop message clears it. On a start message the recorder is
     * started; a missing record permission throws out of the callback, after
     * the flag was set and before the listener is told.
     */
    method OnSpeechMessage(message: SpeechMessage, permission: bool, deviceReady: bool)
      requires Valid()
      modifies this
      ensures Valid()
      ensures isEngineStarted == (if message.EngineStart? then true
                                  else if message.EngineStop? then false
                                  else old(isEngineStarted))
      ensures isInitialized == old(isInitialized) && hasEngine == old(hasEngine)
      ensures message.EngineStop? ==> notices == old(notices) + [RecordingStopped, RecordingState(false)]
      ensures message.EngineError? ==> notices == old(notices) + [Error(RecognitionError(ErrorText(message.data, message.body)))]
      ensures message.PartialResult? ==> notices == old(notices) + [PartialText(message.data)] + RecognizedNotices(message.payload, false)
      ensures message.FinalResult? ==> notices == old(notices) + [FinalText(message.data)] + RecognizedNotices(message.payload, true)
      ensures message.VolumeLevel? || message.OtherMessage? ==> unchanged(this)
      ensures !message.EngineStart? ==>
                hasAudioRecord == old(hasAudioRecord) && recorderAlive == old(recorderAlive) && isRecording == old(isRecording)
      ensures message.EngineStart? ==>
                var ready := old(hasAudioRecord) || (permission && deviceReady);
                var thrown := !old(hasAudioRecord) && !permission;
                var starts := ready && !old(recorderAlive);
                && hasAudioRecord == ready && recorderAlive == ready
                && isRecording == (starts || old(isRecording))
                && notices == old(notices) + (if starts then [RecordingState(true)] else [])
                                           + (if thrown then [] else [RecordingStarted, RecordingState(true)])
    {
      match message {
        case EngineStart =>
          isEngineStarted := true;
          var outcome := StartRecording(permission, deviceReady);
          if outcome == PermissionThrown {
            return;
          }
          notices := notices + [RecordingStarted, RecordingState(true)];
        case EngineStop =>
          isEngineStarted := false;
          notices := notices + [RecordingStopped, RecordingState(false)];
        case EngineError(data, body) =>
          notices := notices + [Error(RecognitionError(ErrorText(data, body)))];
        case PartialResult(data, payload) =>
          notices := notices + [PartialText(data)] + RecognizedNotices(payload, false);
        case FinalResult(data, payload) =>
          notices := notices + [FinalText(data)] + RecognizedNotices(payload, true);
        case VolumeLevel =>
        case OtherMessage(_) =>
      }
    }

    /** The listener notice a result message yields, if its payload passes the filter. */
    static function RecognizedNotices(payload: SpeechPayload, isFinal: bool): (ns: seq<Notice>)
      ensures |ns| <= 1
      ensures ns != [] <==> ParseSpeechResult(payload, isFinal).Some?
    {
      match ParseSpeechResult(payload, isFinal)
      case None => []
      case Some(result) => [Recognized(result)]
    }
  }

  /** Start, then stop, on an initialised engine that accepts every directive. */
  method StartStopScenario()
  {
    var s := new SpeechService();
    s.InitVoiceEngine(ERR_NO_ERROR);
    assert s.isInitialized;
    var ok := s.ToggleVoiceAssistant(ERR_NO_ERROR, ERR_NO_ERROR);
    assert ok && !s.isEngineStarted;
    s.OnSpeechMessage(EngineStart, true, true);
    assert s.isEngineStarted && s.recorderAlive;
    ok := s.StartVoiceAssistant(ERR_NO_ERROR, ERR_NO_ERROR);
    assert ok;
    ok := s.ToggleVoiceAssistant(ERR_NO_ERROR, ERR_NO_ERROR);
    assert !ok && s.isEngineStarted && !s.recorderAlive;
    s.OnSpeechMessage(EngineStop, true, true);
    assert !s.isEngineStarted;
    s.DestroyEngine();
    assert !s.isInitialized && !s.isEngineStarted;
  }
}
