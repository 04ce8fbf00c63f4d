/**
 * Android contexts as the assistant singletons see them, and the context
 * registration every singleton keeps.
 *
 * A context is an object compared by identity; an activity may implement the
 * callback interfaces of the singletons. Each singleton remembers the activity
 * and the service registered with it and acts through the first of the
 * activity, the service and the application context that is present. What a
 * singleton asks the platform to do is recorded as an `Effect`.
 */
module Contexts {

  /** The callback interfaces: `LLMAssistant.Callback`, `VoiceAssistant.Callback`, `ASRAssistant.Callback`. */
  datatype CallbackKind = LLMCallback | VoiceCallback | ASRCallback

  class Context {
    /** The callback interfaces this context implements. */
    const callbacks: set<CallbackKind>

    constructor (callbacks: set<CallbackKind>)
      ensures this.callbacks == callbacks
    {
      this.callbacks := callbacks;
    }
  }

  /** The intent actions the singletons send to their services. */
  datatype ServiceAction =
    | StartAssistant | StopAssistant            // VoiceAssistantService
    | StartASRAssistant | StopASRAssistant      // ASRAssistantService
    | StartLLMAssistant(message: string)        // LLMAssistantService, with the "message" extra

  datatype Effect =
    | StartService(via: Context, action: ServiceAction)
    | OpenAssistantActivity(via: Context)
    | PostRecordingState(recording: bool)       // the VOICE_RECORDING_STATE event
    | Deliver(to: Context, callback: CallbackKind, result: string, status: int)

  /** The `activityContext` and `serviceContext` fields of a singleton, with the application context. */
  class Registration {
    var activityContext: Context?
    var serviceContext: Context?
    const app: Context

    constructor (app: Context)
      ensures activityContext == null && serviceContext == null && this.app == app
    {
      activityContext, serviceContext := null, null;
      this.app := app;
    }

    /** The `context` property: the activity, else the service, else the application. */
    function Current(): (c: Context)
      reads this
      ensures activityContext != null ==> c == activityContext
      ensures activityContext == null && serviceContext != null ==> c == serviceContext
      ensures activityContext == null && serviceContext == null ==> c == app
    {
      if activityContext != null then activityContext
      else if serviceContext != null then serviceContext
      else app
    }

    /** The registered activity when it implements the callback interface `kind`, else null. */
    function CallbackTarget(kind: CallbackKind): (c: Context?)
      reads this
      ensures c != null <==> activityContext != null && kind in activityContext.callbacks
      ensures c != null ==> c == activityContext
    {
      if activityContext != null && kind in activityContext.callbacks then activityContext else null
    }

    /** `register`: the activity replaces any earlier one. */
    method Register(context: Context)
      modifies this`activityContext
      ensures activityContext == context
    {
      activityContext := context;
    }

    /** `unregister`: clears the activity only when it is this very context. */
    method Unregister(context: Context)
      modifies this`activityContext
      ensures activityContext == (if old(activityContext) == context then null else old(activityContext))
    {
      if activityContext == context {
        activityContext := null;
      }
    }

    /** `registerService`. */
    method RegisterService(context: Context)
      modifies this`serviceContext
      ensures serviceContext == context
    {
      serviceContext := context;
    }

    /** `unregisterService`: clears the service whatever the argument. */
    method UnregisterService(context: Context)
      modifies this`serviceContext
      ensures serviceContext == null
    {
      serviceContext := null;
    }
  }

  /**
   * An activity replaced by a newer one unregisters late: the newer one stays
   * registered and the singleton keeps acting through it, while a service's
   * late unregister clears whatever service is registered.
   */
  method LateUnregister()
  {
    var app := new Context({});
    var older := new Context({ASRCallback});
    var newer := new Context({ASRCallback});
    var service := new Context({});
    var registration := new Registration(app);
    assert registration.Current() == app;
    registration.RegisterService(service);
    assert registration.Current() == service;
    registration.Register(older);
    registration.Register(newer);
    registration.Unregister(older);
    assert registration.Current() == newer && registration.CallbackTarget(ASRCallback) == newer;
    registration.Unregister(newer);
    assert registration.Current() == service && registration.CallbackTarget(ASRCallback) == null;
    var other := new Context({});
    registration.UnregisterService(other);
    assert registration.Current() == app;
  }
}
