/**
 * The `VoiceAssistant` and `ASRAssistant` singletons. The two objects are the
 * same code over different services: each flips a recording flag when
 * toggled, asks its service to start or stop, opens the assistant screen when
 * starting, announces the new recording state, and forwards recognition
 * results to a registered activity that implements its callback interface.
 */
module RecordingAssistants {
  import opened Contexts

  datatype AssistantKind = Voice | ASR

  /** The intent action that starts the assistant's service. */
  function StartAction(kind: AssistantKind): ServiceAction {
    if kind == Voice then StartAssistant else StartASRAssistant
  }

  /** The intent action that stops the assistant's service. */
  function StopAction(kind: AssistantKind): ServiceAction {
    if kind == Voice then StopAssistant else StopASRAssistant
  }

  /** The callback interface the assistant forwards results through. */
  function CallbackOf(kind: AssistantKind): CallbackKind {
    if kind == Voice then VoiceCallback else ASRCallback
  }

  /** Each assistant has its own two actions, and no two assistants share one. */
  lemma ActionsDistinct(k1: AssistantKind, k2: AssistantKind)
    ensures StartAction(k1) != StopAction(k2)
    ensures StartAction(k1) == StartAction(k2) <==> k1 == k2
    ensures StopAction(k1) == StopAction(k2) <==> k1 == k2
    ensures CallbackOf(k1) == CallbackOf(k2) <==> k1 == k2
  {
  }

  /**
   * What `toggle` asks of the platform, through the context it is given: from
   * recording, stop the service; otherwise start it and open the assistant
   * screen. Either way the new state is announced last.
   */
  function ToggleEffects(kind: AssistantKind, via: Context, wasRecording: bool): (es: seq<Effect>)
    ensures |es| == (if wasRecording then 2 else 3)
    ensures es[0] == StartService(via, if wasRecording then StopAction(kind) else StartAction(kind))
    ensures es[|es| - 1] == PostRecordingState(!wasRecording)
    ensures OpenAssistantActivity(via) in es <==> !wasRecording
  {
    if wasRecording then [StartService(via, StopAction(kind)), PostRecordingState(false)]
    else [StartService(via, StartAction(kind)), OpenAssistantActivity(via), PostRecordingState(true)]
  }

  /** Two toggles from either state start the service exactly once and stop it exactly once, the stop after the start when starting from idle. */
  lemma ToggleTwiceStartsAndStops(kind: AssistantKind, via: Context, wasRecording: bool)
    ensures var es := ToggleEffects(kind, via, wasRecording) + ToggleEffects(kind, via, !wasRecording);
            && multiset(es)[StartService(via, StartAction(kind))] == 1
            && multiset(es)[StartService(via, StopAction(kind))] == 1
            && es[|es| - 1] == PostRecordingState(wasRecording)
  {
    ActionsDistinct(kind, kind);
    var start, stop := StartService(via, StartAction(kind)), StartService(via, StopAction(kind));
    var es := ToggleEffects(kind, via, wasRecording) + ToggleEffects(kind, via, !wasRecording);
    if wasRecording {
      assert es == [stop, PostRecordingState(false)] + [start, OpenAssistantActivity(via), PostRecordingState(true)];
    } else {
      assert es == [start, OpenAssistantActivity(via), PostRecordingState(true)] + [stop, PostRecordingState(false)];
    }
  }

  class RecordingAssistant {
    const kind: AssistantKind
    const registration: Registration
    var recording: bool
    var effects: seq<Effect>

    constructor (kind: AssistantKind, app: Context)
      ensures this.kind == kind && fresh(registration) && registration.app == app
      ensures registration.activityContext == null && registration.serviceContext == null
      ensures !recording && effects == []
    {
      this.kind := kind;
      registration := new Registration(app);
      recording, effects := false, [];
    }

    /** `toggle(context)`: flips `recording` and acts through the given context. */
    method Toggle(context: Context)
      modifies this`recording, this`effects
      ensures recording == !old(recording)
      ensures effects == old(effects) + ToggleEffects(kind, context, old(recording))
    {
      if recording {
        effects := effects + [StartService(context, StopAction(kind))];
        recording := false;
      } else {
        effects := effects + [StartService(context, StartAction(kind))];
        effects := effects + [OpenAssistantActivity(context)];
        recording := true;
      }
      effects := effects + [PostRecordingState(recording)];
    }

    /** `isRecording()`. */
    method IsRecording() returns (r: bool)
      ensures r == recording
    {
      r := recording;
    }

    /** `onResult`: hands the result, unchanged, to the registered activity if it implements the callback. */
    method OnResult(result: string, status: int)
      modifies this`effects
      ensures var target := registration.CallbackTarget(CallbackOf(kind));
              effects == old(effects) + (if target == null then [] else [Deliver(target, CallbackOf(kind), result, status)])
    {
      var target := registration.activityContext;
      if target != null && CallbackOf(kind) in target.callbacks {
        effects := effects + [Deliver(target, CallbackOf(kind), result, status)];
      }
    }
  }

  /**
   * A start and a stop: toggling twice restores the flag, and the screen the
   * first toggle opened receives results once it registers.
   */
  method StartThenStop()
  {
    var app := new Context({});
    var screen := new Context({ASRCallback});
    var assistant := new RecordingAssistant(ASR, app);
    assistant.Toggle(app);
    var on := assistant.IsRecording();
    assert on && assistant.effects == [StartService(app, StartASRAssistant), OpenAssistantActivity(app), PostRecordingState(true)];
    assistant.OnResult("ignored", 0);
    assert |assistant.effects| == 3;
    assistant.registration.Register(screen);
    assistant.OnResult("你好", 1);
    assert assistant.effects[3] == Deliver(screen, ASRCallback, "你好", 1);
    assistant.Toggle(screen);
    var off := assistant.IsRecording();
    assert !off && assistant.effects[4..] == [StartService(screen, StopASRAssistant), PostRecordingState(false)];
  }
}
