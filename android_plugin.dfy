/**
 * The Android plugin `PositioningManager`: the action table of `execute`, the
 * four command tasks run through `_handleCallSafely`, the `lateinit` engine and
 * notifier slots, and the engine listener.
 *
 * The plugin's state is its engine slot (unset until the first `configure`),
 * the engine calls it has made, the notifier slot and the log of everything
 * sent through callback contexts. Each command and each listener callback is
 * one atomic step; the pure step functions below are the specification the
 * class's methods are proved against.
 */
module AndroidPlugin {
  import opened Wrappers
  import opened Json
  import opened Cordova
  import opened Sdk
  import opened KotlinCasts
  import opened AndroidLocationEvent
  import opened AndroidHeadingEvent
  import opened AndroidErrorEvent

  // ---------------------------------------------------------------- notifier

  /** The tags the Android notifier puts on its envelopes. */
  const ErrorEventType := "didReceiveError"
  const LocationEventType := "didReceiveLocation"
  const HeadingEventType := "didReceiveHeading"

  /** What the script side reads back from a pushed message: a `JSONObject` envelope. */
  function DecodePush(message: Message): Option<(string, map<string, Json>)> {
    if message.JsonObject? then DecodeEnvelope(message.json) else None
  }

  /** A push (kept open, OK) that decodes to the given tag and record fields. */
  ghost predicate PushOf(r: Response, callbackId: CallbackId, eventType: string, event: map<string, Json>) {
    && IsPush(r)
    && r.callbackId == callbackId
    && DecodePush(r.result.message) == Some((eventType, event))
  }

  /** The notifier `createNotifierCallbacks` builds, capturing the registration's callback context. */
  datatype SignifyEventNotifier = SignifyEventNotifier(callbackContext: CallbackId) {

    function Push(eventType: string, event: map<string, Json>): Response {
      Response(callbackContext, PluginResult(Ok, JsonObject(Envelope(eventType, event)), true))
    }

    function DidReceiveError(event: ErrorEvent): (r: Response)
      ensures PushOf(r, callbackContext, ErrorEventType, event.ToJson())
      ensures ErrorEventFromJson(DecodePush(r.result.message).value.1) == Some(event)
    {
      ErrorEventRoundTrip(event);
      Push(ErrorEventType, event.ToJson())
    }

    function DidReceiveLocation(event: LocationEvent): (r: Response)
      ensures PushOf(r, callbackContext, LocationEventType, event.ToJson())
      ensures LocationEventFromJson(DecodePush(r.result.message).value.1) == Some(event)
    {
      LocationEventRoundTrip(event);
      Push(LocationEventType, event.ToJson())
    }

    function DidReceiveHeading(event: HeadingEvent): (r: Response)
      ensures PushOf(r, callbackContext, HeadingEventType, event.ToJson())
      ensures HeadingEventFromJson(DecodePush(r.result.message).value.1) == Some(event)
    {
      HeadingEventRoundTrip(event);
      Push(HeadingEventType, event.ToJson())
    }
  }

  // ---------------------------------------------------------------- state

  /** An `IndoorPositioning` instance: the properties the plugin sets, its listener and `isRunning()`. */
  datatype Engine = Engine(
    headingOrientation: Option<HeadingOrientation>,
    configuration: Option<string>,
    mode: Option<Mode>,
    listenerRegistered: bool,
    running: bool)

  /** A newly constructed engine, before the plugin sets anything on it. */
  const FreshEngine := Engine(None, None, None, false, false)

  datatype EngineCall =
    | Created
    | HeadingOrientationSet(orientation: HeadingOrientation)
    | ConfigurationSet(license: string)
    | ModeSet(mode: Mode)
    | Registered
    | Started
    | Stopped
    | Unregistered

  datatype State = State(
    indoorPositioning: Option<Engine>,    // the `lateinit` slot: None until the first `configure`
    engineCalls: seq<EngineCall>,
    signifyEventNotifier: Option<SignifyEventNotifier>,
    sent: seq<Response>)

  const InitialState := State(None, [], None, [])

  /** The message of the exception thrown by reading the engine slot before it is set. */
  const UninitializedMessage := "lateinit property indoorPositioning has not been initialized"

  /**
   * Every push went to a registered callback id, and the notifier, when set,
   * captured a context whose registration was acknowledged.
   */
  ghost predicate Valid(s: State) {
    && PushesFollowRegistration(s.sent, StatusOkKeepOpen)
    && (s.signifyEventNotifier.Some? ==>
          Response(s.signifyEventNotifier.value.callbackContext, StatusOkKeepOpen) in s.sent)
  }

  // ---------------------------------------------------------------- engine primitives

  /** What one call does to the engine (construction is `Construct`). */
  function Effect(e: Engine, call: EngineCall): Engine {
    match call
    case Created => e
    case HeadingOrientationSet(o) => e.(headingOrientation := Some(o))
    case ConfigurationSet(license) => e.(configuration := Some(license))
    case ModeSet(m) => e.(mode := Some(m))
    case Registered => e.(listenerRegistered := true)
    case Started => e.(running := true)
    case Stopped => e.(running := false)
    case Unregistered => e.(listenerRegistered := false)
  }

  /** `indoorPositioning = IndoorPositioning(…)`: a fresh engine replaces whatever the slot held. */
  function Construct(s: State): (t: State)
    ensures t.indoorPositioning == Some(FreshEngine)
  {
    s.(indoorPositioning := Some(FreshEngine), engineCalls := s.engineCalls + [Created])
  }

  /** A call on the engine in the slot. */
  function Call(s: State, call: EngineCall): (t: State)
    requires s.indoorPositioning.Some?
    ensures t.indoorPositioning.Some?
  {
    s.(indoorPositioning := Some(Effect(s.indoorPositioning.value, call)),
       engineCalls := s.engineCalls + [call])
  }

  // ---------------------------------------------------------------- result delivery

  /** `callbackContext.error(message)`. */
  function ErrorResult(message: string): PluginResult {
    PluginResult(Error, Text(message), false)
  }

  /** `_sendResultOfCommand`: the result as it is (a non-OK status is only warned about). */
  function ResultDelivery(context: Option<CallbackId>, pluginResult: PluginResult): seq<Response> {
    if context.None? then [] else [Response(context.value, pluginResult)]
  }

  /** `_handleExceptionOfCommand`: an error carrying the exception's message. */
  function ExceptionDelivery(context: Option<CallbackId>, message: string): seq<Response> {
    if context.None? then [] else [Response(context.value, ErrorResult(message))]
  }

  /** `_handleCallSafely`: what a task's outcome (its result or the message of what it threw) sends. */
  function SafeDelivery(context: Option<CallbackId>, outcome: Result<PluginResult, string>): seq<Response> {
    match outcome
    case Success(r) => ResultDelivery(context, r)
    case Failure(message) => ExceptionDelivery(context, message)
  }

  // ---------------------------------------------------------------- command tasks

  /**
   * The four commands, with what they read from `execute`'s arguments.
   * `rejection` is the message of the exception the engine throws from
   * `setConfiguration` when it rejects the license, if it does.
   */
  datatype Command =
    | Configure(license: string, testMode: bool, rejection: Option<string>)
    | Start
    | Stop
    | RegisterDelegateCallbackId

  /** A task's `run()`: the state it leaves and its result or the message of its exception. */
  datatype TaskRun = TaskRun(state: State, outcome: Result<PluginResult, string>)

  function ConfigureTask(s: State, license: string, testMode: bool, rejection: Option<string>): TaskRun {
    var oriented := Call(Construct(s), HeadingOrientationSet(Portrait));
    if rejection.Some? then
      TaskRun(oriented.(engineCalls := oriented.engineCalls + [ConfigurationSet(license)]), Failure(rejection.value))
    else
      var configured := Call(Call(oriented, ConfigurationSet(license)), ModeSet(if testMode then Simulation else Default));
      TaskRun(Call(Call(configured, Registered), Started), Success(StatusOk))
  }

  function StartTask(s: State): TaskRun {
    if s.indoorPositioning.Some? && !s.indoorPositioning.value.running then
      TaskRun(Call(Call(s, Registered), Started), Success(StatusOk))
    else
      TaskRun(s, Success(StatusOk))
  }

  /** Stops a running engine, then always unregisters, which throws when `configure` never ran. */
  function StopTask(s: State): TaskRun {
    if s.indoorPositioning.None? then TaskRun(s, Failure(UninitializedMessage))
    else
      var stopped := if s.indoorPositioning.value.running then Call(s, Stopped) else s;
      TaskRun(Call(stopped, Unregistered), Success(StatusOk))
  }

  /** `createNotifierCallbacks`: a notifier capturing this context replaces the old one. */
  function WithNotifierFor(s: State, context: CallbackId): State {
    s.(signifyEventNotifier := Some(SignifyEventNotifier(context)))
  }

  function RegisterTask(s: State, context: CallbackId): TaskRun {
    TaskRun(WithNotifierFor(s, context), Success(StatusOkKeepOpen))
  }

  function Task(s: State, command: Command, context: CallbackId): (run: TaskRun)
    ensures run.state.sent == s.sent
  {
    match command
    case Configure(license, testMode, rejection) => ConfigureTask(s, license, testMode, rejection)
    case Start => StartTask(s)
    case Stop => StopTask(s)
    case RegisterDelegateCallbackId => RegisterTask(s, context)
  }

  /** A command: its task, then `_handleCallSafely`'s delivery of the outcome. */
  function CommandStep(s: State, command: Command, context: CallbackId): State {
    var run := Task(s, command, context);
    run.state.(sent := run.state.sent + SafeDelivery(Some(context), run.outcome))
  }

  // ---------------------------------------------------------------- execute

  /** The exception `JSONArray.getString` / `getBoolean` throw, with the index they read. */
  datatype JSONException = JSONException(index: nat)

  function GetString(data: seq<Json>, index: nat): (r: Result<string, JSONException>)
    ensures r.Success? <==> index < |data| && data[index].JString?
    ensures r.Success? ==> data[index] == JString(r.value)
  {
    if index < |data| && data[index].JString? then Success(data[index].s) else Failure(JSONException(index))
  }

  /** A boolean, or one of the strings "true" and "false". */
  function GetBoolean(data: seq<Json>, index: nat): (r: Result<bool, JSONException>)
    ensures r.Success? <==> index < |data| && (data[index].JBool? || data[index] in {JString("true"), JString("false")})
    ensures r.Success? ==> data[index] in {JBool(r.value), JString(if r.value then "true" else "false")}
  {
    if index < |data| && data[index].JBool? then Success(data[index].b)
    else if index < |data| && data[index] == JString("true") then Success(true)
    else if index < |data| && data[index] == JString("false") then Success(false)
    else Failure(JSONException(index))
  }

  const Actions: set<string> := {"configure", "start", "stop", "registerDelegateCallbackId"}

  /** What `execute` returns (or throws), and the state it leaves. */
  datatype Execution = Execution(state: State, returned: Result<bool, JSONException>)

  function ExecuteStep(s: State, action: string, data: seq<Json>, context: CallbackId, rejection: Option<string>): Execution {
    if action == "configure" then
      match GetString(data, 0)
      case Failure(e) => Execution(s, Failure(e))
      case Success(license) =>
        match GetBoolean(data, 1)
        case Failure(e) => Execution(s, Failure(e))
        case Success(testMode) => Execution(CommandStep(s, Configure(license, testMode, rejection), context), Success(true))
    else if action == "start" then Execution(CommandStep(s, Start, context), Success(true))
    else if action == "stop" then Execution(CommandStep(s, Stop, context), Success(true))
    else if action == "registerDelegateCallbackId" then
      Execution(CommandStep(s, RegisterDelegateCallbackId, context), Success(true))
    else Execution(s, Success(false))
  }

  // ---------------------------------------------------------------- listener

  datatype EngineCallback =
    | DidUpdateHeading(heading: Payload)
    | DidUpdateLocation(location: Payload)
    | DidFailWithError(error: string, now: Timestamp)   // `error.toString()` and the clock read of `ErrorEvent`

  /**
   * The listener: nothing while no notifier is set; otherwise the record is
   * built and pushed, and a cast failure escapes to the engine unsent.
   * `accuracyName` is the SDK's `ExpectedAccuracyLevel.fromInteger(_).toString()`.
   */
  function CallbackStep(s: State, callback: EngineCallback, accuracyName: int32 -> string): Result<State, CastFailure> {
    if s.signifyEventNotifier.None? then Success(s)
    else
      var n := s.signifyEventNotifier.value;
      match callback
      case DidUpdateHeading(heading) =>
        var event :- NewHeadingEvent(heading);
        Success(s.(sent := s.sent + [n.DidReceiveHeading(event)]))
      case DidUpdateLocation(location) =>
        var event :- NewLocationEvent(location, accuracyName);
        Success(s.(sent := s.sent + [n.DidReceiveLocation(event)]))
      case DidFailWithError(error, now) =>
        Success(s.(sent := s.sent + [n.DidReceiveError(ErrorEvent(error, now))]))
  }

  /** The state after a callback, whether or not it threw. */
  function AfterCallback(s: State, callback: EngineCallback, accuracyName: int32 -> string): State {
    match CallbackStep(s, callback, accuracyName)
    case Success(t) => t
    case Failure(_) => s
  }

  /** A run of listener callbacks, in the order the engine delivers them. */
  function Deliver(s: State, callbacks: seq<EngineCallback>, accuracyName: int32 -> string): State
    decreases |callbacks|
  {
    if callbacks == [] then s else Deliver(AfterCallback(s, callbacks[0], accuracyName), callbacks[1..], accuracyName)
  }

  // ---------------------------------------------------------------- properties

  /** `execute` handles exactly the four actions; any other returns false and changes nothing. */
  lemma ExecuteActionTable(s: State, action: string, data: seq<Json>, context: CallbackId, rejection: Option<string>)
    ensures var x := ExecuteStep(s, action, data, context, rejection);
      && (x.returned == Success(false) <==> action !in Actions)
      && (action !in Actions ==> x.state == s)
      && (x.returned.Failure? ==> action == "configure" && x.state == s)
      && (action in Actions && x.returned.Success? ==>
            x.state.sent[..|s.sent|] == s.sent && |x.state.sent| == |s.sent| + 1)
  {
  }

  /** `execute("configure")` reads the license and the flag from the first two arguments. */
  lemma ExecuteConfigure(s: State, license: string, testMode: bool, rest: seq<Json>, context: CallbackId,
                         rejection: Option<string>)
    ensures ExecuteStep(s, "configure", [JString(license), JBool(testMode)] + rest, context, rejection)
         == Execution(CommandStep(s, Configure(license, testMode, rejection), context), Success(true))
  {
  }

  /**
   * `_handleCallSafely` sends exactly one response when there is a context and
   * none otherwise: the task's result unchanged, or an error (not kept open)
   * carrying the exception's message.
   */
  lemma SafeDeliveryIsOneResponse(context: Option<CallbackId>, outcome: Result<PluginResult, string>)
    ensures var out := SafeDelivery(context, outcome);
      && |out| == (if context.Some? then 1 else 0)
      && (context.Some? ==> out[0].callbackId == context.value)
      && (context.Some? && outcome.Success? ==> out[0].result == outcome.value)
      && (context.Some? && outcome.Failure? ==>
            out[0].result.status == Error && out[0].result.message == Text(outcome.error)
            && !out[0].result.keepCallback)
  {
  }

  /**
   * Every command sends exactly one response, to its own context. It is an
   * error exactly when `stop` finds no engine or the engine rejects the
   * license; otherwise it is OK with the status text "OK", kept open only for
   * a registration.
   */
  lemma OneResponsePerCommand(s: State, command: Command, context: CallbackId)
    ensures var t := CommandStep(s, command, context);
      && |t.sent| == |s.sent| + 1 && t.sent[..|s.sent|] == s.sent
      && var r := t.sent[|s.sent|];
      && r.callbackId == context
      && (r.result.status == Error <==>
            (command.Stop? && s.indoorPositioning.None?) || (command.Configure? && command.rejection.Some?))
      && (r.result.status != Error ==> r.result.status == Ok && r.result.message == Text(StatusOkMessage))
      && (r.result.keepCallback <==> command.RegisterDelegateCallbackId?)
  {
    var run := Task(s, command, context);
    assert run.state.sent == s.sent;
    SafeDeliveryIsOneResponse(Some(context), run.outcome);
    var t := CommandStep(s, command, context);
    assert t.sent == s.sent + SafeDelivery(Some(context), run.outcome);
    assert t.sent[..|s.sent|] == s.sent;
  }

  /**
   * `configure` builds a fresh engine, whatever the slot held: portrait, the
   * license, SIMULATION iff test mode, listener registered, started; then OK.
   */
  lemma ConfigureBuildsFreshEngine(s: State, license: string, testMode: bool, context: CallbackId)
    ensures var t := CommandStep(s, Configure(license, testMode, None), context);
      && t.indoorPositioning == Some(Engine(Some(Portrait), Some(license),
                                            Some(if testMode then Simulation else Default), true, true))
      && (t.indoorPositioning.value.mode == Some(Simulation) <==> testMode)
      && t.engineCalls == s.engineCalls + [Created, HeadingOrientationSet(Portrait), ConfigurationSet(license),
                                           ModeSet(if testMode then Simulation else Default), Registered, Started]
      && t.signifyEventNotifier == s.signifyEventNotifier
      && t.sent == s.sent + [Response(context, StatusOk)]
  {
  }

  /**
   * A rejected license: the error carries the engine's message, and the slot
   * holds the fresh engine, unconfigured and not running.
   */
  lemma ConfigureRejected(s: State, license: string, testMode: bool, message: string, context: CallbackId)
    ensures var t := CommandStep(s, Configure(license, testMode, Some(message)), context);
      && t.indoorPositioning == Some(FreshEngine.(headingOrientation := Some(Portrait)))
      && t.indoorPositioning.value.configuration.None? && !t.indoorPositioning.value.running
      && t.sent == s.sent + [Response(context, ErrorResult(message))]
  {
  }

  /** How many engine starts a call log holds. */
  function Starts(calls: seq<EngineCall>): nat
    decreases |calls|
  {
    if calls == [] then 0 else (if calls[0] == Started then 1 else 0) + Starts(calls[1..])
  }

  lemma {:induction false} StartsAppend(a: seq<EngineCall>, b: seq<EngineCall>)
    ensures Starts(a + b) == Starts(a) + Starts(b)
    decreases |a|
  {
    if a == [] {
      assert a + b == b;
    } else {
      assert (a + b)[1..] == a[1..] + b;
      StartsAppend(a[1..], b);
    }
  }

  /** `start` registers and starts the engine only when it is set and not running, and always reports OK. */
  lemma StartOnlyWhenIdle(s: State, context: CallbackId)
    ensures var t := CommandStep(s, Start, context);
      && t.engineCalls == s.engineCalls +
           (if s.indoorPositioning.Some? && !s.indoorPositioning.value.running then [Registered, Started] else [])
      && t.indoorPositioning.Some? == s.indoorPositioning.Some?
      && (t.indoorPositioning.Some? ==> t.indoorPositioning.value.running)
      && t.sent == s.sent + [Response(context, StatusOk)]
  {
  }

  /** Two `start` commands in a row start the engine at most once. */
  lemma StartTwiceStartsOnce(s: State, first: CallbackId, second: CallbackId)
    ensures Starts(CommandStep(CommandStep(s, Start, first), Start, second).engineCalls) <= Starts(s.engineCalls) + 1
  {
    var u := CommandStep(s, Start, first);
    var t := CommandStep(u, Start, second);
    StartOnlyWhenIdle(s, first);
    StartOnlyWhenIdle(u, second);
    assert t.engineCalls == u.engineCalls;
    if s.indoorPositioning.Some? && !s.indoorPositioning.value.running {
      StartsAppend(s.engineCalls, [Registered, Started]);
      assert Starts([Registered, Started]) == 1 by {
        assert [Registered, Started][1..] == [Started];
        assert [Started][1..] == [];
      }
    } else {
      assert u.engineCalls == s.engineCalls + [];
      assert s.engineCalls + [] == s.engineCalls;
    }
  }

  /** `stop` on a set engine: stopped only if running, always unregistered, then OK. */
  lemma StopStopsOnlyWhenRunning(s: State, context: CallbackId)
    requires s.indoorPositioning.Some?
    ensures var t := CommandStep(s, Stop, context);
      && t.engineCalls == s.engineCalls + (if s.indoorPositioning.value.running then [Stopped] else []) + [Unregistered]
      && t.indoorPositioning.Some? && !t.indoorPositioning.value.running
      && !t.indoorPositioning.value.listenerRegistered
      && t.sent == s.sent + [Response(context, StatusOk)]
  {
  }

  /** `stop` before any `configure`: no engine call, and the exception's message comes back as an error. */
  lemma StopBeforeConfigureFails(s: State, context: CallbackId)
    requires s.indoorPositioning.None?
    ensures CommandStep(s, Stop, context) == s.(sent := s.sent + [Response(context, ErrorResult(UninitializedMessage))])
  {
  }

  /** With no notifier set, every listener callback is a no-op that throws nothing. */
  lemma {:induction false} UnboundCallbacksDropped(s: State, callbacks: seq<EngineCallback>, accuracyName: int32 -> string)
    requires s.signifyEventNotifier.None?
    ensures forall i :: 0 <= i < |callbacks| ==> CallbackStep(s, callbacks[i], accuracyName) == Success(s)
    ensures Deliver(s, callbacks, accuracyName) == s
    decreases |callbacks|
  {
    if callbacks != [] {
      assert AfterCallback(s, callbacks[0], accuracyName) == s;
      UnboundCallbacksDropped(s, callbacks[1..], accuracyName);
    }
  }

  /** The location callback on a set notifier, in terms of the record's construction. */
  lemma LocationCallbackUnfolds(s: State, location: Payload, accuracyName: int32 -> string)
    requires s.signifyEventNotifier.Some?
    ensures var r := NewLocationEvent(location, accuracyName);
      CallbackStep(s, DidUpdateLocation(location), accuracyName) ==
        if r.Failure? then Failure(r.error)
        else Success(s.(sent := s.sent + [s.signifyEventNotifier.value.DidReceiveLocation(r.value)]))
  {
  }

  /** A payload the record cannot be built from sends nothing, and its cast failure escapes. */
  lemma MalformedPayloadSendsNothing(s: State, location: Payload, accuracyName: int32 -> string)
    requires s.signifyEventNotifier.Some?
    requires NewLocationEvent(location, accuracyName).Failure?
    ensures CallbackStep(s, DidUpdateLocation(location), accuracyName) == Failure(NewLocationEvent(location, accuracyName).error)
  {
  }

  /**
   * With a notifier set, listener callbacks only append pushes, all to the
   * notifier's context, and change nothing else.
   */
  lemma {:induction false} PushesGoToNotifier(s: State, callbacks: seq<EngineCallback>, accuracyName: int32 -> string)
    requires s.signifyEventNotifier.Some?
    ensures var t := Deliver(s, callbacks, accuracyName);
      && t.indoorPositioning == s.indoorPositioning && t.engineCalls == s.engineCalls
      && t.signifyEventNotifier == s.signifyEventNotifier
      && |s.sent| <= |t.sent| && t.sent[..|s.sent|] == s.sent
      && forall i :: |s.sent| <= i < |t.sent| ==>
           IsPush(t.sent[i]) && t.sent[i].callbackId == s.signifyEventNotifier.value.callbackContext
    decreases |callbacks|
  {
    if callbacks != [] {
      var u := AfterCallback(s, callbacks[0], accuracyName);
      assert u.indoorPositioning == s.indoorPositioning && u.engineCalls == s.engineCalls;
      assert u.signifyEventNotifier == s.signifyEventNotifier;
      assert |u.sent| == |s.sent| || |u.sent| == |s.sent| + 1;
      assert u.sent[..|s.sent|] == s.sent;
      assert forall i :: |s.sent| <= i < |u.sent| ==>
        IsPush(u.sent[i]) && u.sent[i].callbackId == s.signifyEventNotifier.value.callbackContext;
      PushesGoToNotifier(u, callbacks[1..], accuracyName);
      var t := Deliver(u, callbacks[1..], accuracyName);
      assert t.sent[..|u.sent|] == u.sent;
      assert t.sent[..|s.sent|] == s.sent;
      forall i | |s.sent| <= i < |t.sent|
        ensures IsPush(t.sent[i]) && t.sent[i].callbackId == s.signifyEventNotifier.value.callbackContext
      {
        if i < |u.sent| {
          assert t.sent[i] == u.sent[i];
        }
      }
    }
  }

  /** After a second registration, every later push goes to the second context only. */
  lemma ReRegistrationRedirects(s: State, first: CallbackId, second: CallbackId,
                                callbacks: seq<EngineCallback>, accuracyName: int32 -> string)
    ensures var r := CommandStep(CommandStep(s, RegisterDelegateCallbackId, first), RegisterDelegateCallbackId, second);
      var t := Deliver(r, callbacks, accuracyName);
      && r.sent == s.sent + [Response(first, StatusOkKeepOpen), Response(second, StatusOkKeepOpen)]
      && |r.sent| <= |t.sent| && t.sent[..|r.sent|] == r.sent
      && forall i :: |r.sent| <= i < |t.sent| ==> IsPush(t.sent[i]) && t.sent[i].callbackId == second
  {
    var r := CommandStep(CommandStep(s, RegisterDelegateCallbackId, first), RegisterDelegateCallbackId, second);
    PushesGoToNotifier(r, callbacks, accuracyName);
  }

  lemma CommandPreservesValid(s: State, command: Command, context: CallbackId)
    requires Valid(s)
    ensures Valid(CommandStep(s, command, context))
  {
    var t := CommandStep(s, command, context);
    var run := Task(s, command, context);
    var extra := SafeDelivery(Some(context), run.outcome);
    SafeDeliveryIsOneResponse(Some(context), run.outcome);
    assert t.sent == s.sent + extra;
    assert extra == [extra[0]];
    if extra[0].result.keepCallback {
      assert command.RegisterDelegateCallbackId? && extra[0] == Response(context, StatusOkKeepOpen);
    }
    PushesFollowRegistrationSnoc(s.sent, StatusOkKeepOpen, extra[0]);
    if t.signifyEventNotifier.Some? {
      if command.RegisterDelegateCallbackId? {
        assert t.sent[|s.sent|] == Response(t.signifyEventNotifier.value.callbackContext, StatusOkKeepOpen);
      } else {
        assert t.signifyEventNotifier == s.signifyEventNotifier;
      }
    }
  }

  lemma PushPreservesValid(s: State, r: Response)
    requires Valid(s)
    requires s.signifyEventNotifier.Some? && r.callbackId == s.signifyEventNotifier.value.callbackContext
    ensures Valid(s.(sent := s.sent + [r]))
  {
    PushesFollowRegistrationSnoc(s.sent, StatusOkKeepOpen, r);
  }

  lemma CallbackPreservesValid(s: State, callback: EngineCallback, accuracyName: int32 -> string)
    requires Valid(s)
    ensures Valid(AfterCallback(s, callback, accuracyName))
  {
    if s.signifyEventNotifier.Some? {
      var n := s.signifyEventNotifier.value;
      match callback
      case DidUpdateHeading(heading) =>
        if NewHeadingEvent(heading).Success? {
          PushPreservesValid(s, n.DidReceiveHeading(NewHeadingEvent(heading).value));
        }
      case DidUpdateLocation(location) =>
        if NewLocationEvent(location, accuracyName).Success? {
          PushPreservesValid(s, n.DidReceiveLocation(NewLocationEvent(location, accuracyName).value));
        }
      case DidFailWithError(error, now) =>
        PushPreservesValid(s, n.DidReceiveError(ErrorEvent(error, now)));
    }
  }

  // ---------------------------------------------------------------- the plugin object

  class PositioningManager {
    var indoorPositioning: Option<Engine>
    var engineCalls: seq<EngineCall>
    var signifyEventNotifier: Option<SignifyEventNotifier>
    /** Everything sent through callback contexts, in order. */
    var sent: seq<Response>
    /** The SDK's `ExpectedAccuracyLevel.fromInteger(_).toString()`, whose table is not visible. */
    const accuracyName: int32 -> string

    function Snapshot(): State
      reads this
    {
      State(indoorPositioning, engineCalls, signifyEventNotifier, sent)
    }

    constructor (accuracyName: int32 -> string)
      ensures Snapshot() == InitialState && Valid(Snapshot())
      ensures this.accuracyName == accuracyName
    {
      this.accuracyName := accuracyName;
      indoorPositioning := None;
      engineCalls := [];
      signifyEventNotifier := None;
      sent := [];
    }

    method NewIndoorPositioning()
      modifies this`indoorPositioning, this`engineCalls
      ensures Snapshot() == Construct(old(Snapshot()))
    {
      indoorPositioning := Some(FreshEngine);
      engineCalls := engineCalls + [Created];
    }

    /** One call on the engine in the slot. */
    method CallEngine(call: EngineCall)
      requires indoorPositioning.Some?
      modifies this`indoorPositioning, this`engineCalls
      ensures Snapshot() == Call(old(Snapshot()), call)
    {
      indoorPositioning := Some(Effect(indoorPositioning.value, call));
      engineCalls := engineCalls + [call];
    }

    method SendResultOfCommand(context: Option<CallbackId>, pluginResult: PluginResult)
      modifies this`sent
      ensures sent == old(sent) + ResultDelivery(context, pluginResult)
    {
      if context.None? {
        return;
      }
      sent := sent + [Response(context.value, pluginResult)];
    }

    method HandleExceptionOfCommand(context: Option<CallbackId>, message: string)
      modifies this`sent
      ensures sent == old(sent) + ExceptionDelivery(context, message)
    {
      if context.None? {
        return;
      }
      sent := sent + [Response(context.value, ErrorResult(message))];
    }

    /** `_handleCallSafely`, given the outcome of the task's `run()`. */
    method HandleCallSafely(context: Option<CallbackId>, outcome: Result<PluginResult, string>)
      modifies this`sent
      ensures sent == old(sent) + SafeDelivery(context, outcome)
    {
      match outcome
      case Success(r) => SendResultOfCommand(context, r);
      case Failure(message) => HandleExceptionOfCommand(context, message);
    }

    method RunConfigure(license: string, testMode: bool, rejection: Option<string>)
      returns (outcome: Result<PluginResult, string>)
      modifies this`indoorPositioning, this`engineCalls
      ensures TaskRun(Snapshot(), outcome) == ConfigureTask(old(Snapshot()), license, testMode, rejection)
    {
      NewIndoorPositioning();
      CallEngine(HeadingOrientationSet(Portrait));
      if rejection.Some? {
        engineCalls := engineCalls + [ConfigurationSet(license)];
        return Failure(rejection.value);
      }
      CallEngine(ConfigurationSet(license));
      CallEngine(ModeSet(if testMode == true then Simulation else Default));
      CallEngine(Registered);
      CallEngine(Started);
      outcome := Success(StatusOk);
    }

    method RunStart() returns (outcome: Result<PluginResult, string>)
      modifies this`indoorPositioning, this`engineCalls
      ensures TaskRun(Snapshot(), outcome) == StartTask(old(Snapshot()))
    {
      if indoorPositioning.Some? && indoorPositioning.value.running == false {
        CallEngine(Registered);
        CallEngine(Started);
      }
      outcome := Success(StatusOk);
    }

    method RunStop() returns (outcome: Result<PluginResult, string>)
      modifies this`indoorPositioning, this`engineCalls
      ensures TaskRun(Snapshot(), outcome) == StopTask(old(Snapshot()))
    {
      if indoorPositioning.Some? && indoorPositioning.value.running == true {
        CallEngine(Stopped);
      }
      if indoorPositioning.None? {
        return Failure(UninitializedMessage);
      }
      CallEngine(Unregistered);
      outcome := Success(StatusOk);
    }

    method CreateNotifierCallbacks(context: CallbackId)
      modifies this`signifyEventNotifier
      ensures Snapshot() == WithNotifierFor(old(Snapshot()), context)
    {
      signifyEventNotifier := Some(SignifyEventNotifier(context));
    }

    method Configure(license: string, testMode: bool, context: CallbackId, rejection: Option<string>)
      requires Valid(Snapshot())
      modifies this
      ensures Snapshot() == CommandStep(old(Snapshot()), Command.Configure(license, testMode, rejection), context)
      ensures Valid(Snapshot())
    {
      var outcome := RunConfigure(license, testMode, rejection);
      HandleCallSafely(Some(context), outcome);
      CommandPreservesValid(old(Snapshot()), Command.Configure(license, testMode, rejection), context);
    }

    method Start(context: CallbackId)
      requires Valid(Snapshot())
      modifies this
      ensures Snapshot() == CommandStep(old(Snapshot()), Command.Start, context) && Valid(Snapshot())
    {
      var outcome := RunStart();
      HandleCallSafely(Some(context), outcome);
      CommandPreservesValid(old(Snapshot()), Command.Start, context);
    }

    method Stop(context: CallbackId)
      requires Valid(Snapshot())
      modifies this
      ensures Snapshot() == CommandStep(old(Snapshot()), Command.Stop, context) && Valid(Snapshot())
    {
      var outcome := RunStop();
      HandleCallSafely(Some(context), outcome);
      CommandPreservesValid(old(Snapshot()), Command.Stop, context);
    }

    method RegisterDelegateCallbackId(context: CallbackId)
      requires Valid(Snapshot())
      modifies this
      ensures Snapshot() == CommandStep(old(Snapshot()), Command.RegisterDelegateCallbackId, context)
      ensures Valid(Snapshot())
    {
      CreateNotifierCallbacks(context);
      var result := StatusOkKeepOpen;
      HandleCallSafely(Some(context), Success(result));
      CommandPreservesValid(old(Snapshot()), Command.RegisterDelegateCallbackId, context);
    }

    /** `execute`: the action table; `rejection` is passed on to `configure`. */
    method Execute(action: string, data: seq<Json>, context: CallbackId, rejection: Option<string>)
      returns (returned: Result<bool, JSONException>)
      requires Valid(Snapshot())
      modifies this
      ensures Execution(Snapshot(), returned) == ExecuteStep(old(Snapshot()), action, data, context, rejection)
      ensures Valid(Snapshot())
    {
      if action == "configure" {
        var license := GetString(data, 0);
        if license.Failure? {
          return Failure(license.error);
        }
        var testMode := GetBoolean(data, 1);
        if testMode.Failure? {
          return Failure(testMode.error);
        }
        Configure(license.value, testMode.value, context, rejection);
      } else if action == "start" {
        Start(context);
      } else if action == "stop" {
        Stop(context);
      } else if action == "registerDelegateCallbackId" {
        RegisterDelegateCallbackId(context);
      } else {
        return Success(false);
      }
      returned := Success(true);
    }

    method DidUpdateHeading(heading: Payload) returns (thrown: Option<CastFailure>)
      requires Valid(Snapshot())
      modifies this`sent
      ensures thrown.None? <==> CallbackStep(old(Snapshot()), EngineCallback.DidUpdateHeading(heading), accuracyName).Success?
      ensures thrown.Some? ==>
                CallbackStep(old(Snapshot()), EngineCallback.DidUpdateHeading(heading), accuracyName) == Failure(thrown.value)
      ensures Snapshot() == AfterCallback(old(Snapshot()), EngineCallback.DidUpdateHeading(heading), accuracyName)
      ensures Valid(Snapshot())
    {
      CallbackPreservesValid(Snapshot(), EngineCallback.DidUpdateHeading(heading), accuracyName);
      thrown := None;
      if signifyEventNotifier.Some? {
        var event := NewHeadingEvent(heading);
        if event.Failure? {
          return Some(event.error);
        }
        sent := sent + [signifyEventNotifier.value.DidReceiveHeading(event.value)];
      }
    }

    method DidUpdateLocation(location: Payload) returns (thrown: Option<CastFailure>)
      requires Valid(Snapshot())
      modifies this`sent
      ensures thrown.None? <==> CallbackStep(old(Snapshot()), EngineCallback.DidUpdateLocation(location), accuracyName).Success?
      ensures thrown.Some? ==>
                CallbackStep(old(Snapshot()), EngineCallback.DidUpdateLocation(location), accuracyName) == Failure(thrown.value)
      ensures Snapshot() == AfterCallback(old(Snapshot()), EngineCallback.DidUpdateLocation(location), accuracyName)
      ensures Valid(Snapshot())
    {
      CallbackPreservesValid(Snapshot(), EngineCallback.DidUpdateLocation(location), accuracyName);
      if signifyEventNotifier.None? {
        return None;
      }
      LocationCallbackUnfolds(Snapshot(), location, accuracyName);
      var event := NewLocationEvent(location, accuracyName);
      if event.Failure? {
        return Some(event.error);
      }
      sent := sent + [signifyEventNotifier.value.DidReceiveLocation(event.value)];
      thrown := None;
    }

    /** `now` is the clock read `Date()` made by `ErrorEvent`'s initialiser. */
    method DidFailWithError(error: string, now: Timestamp)
      requires Valid(Snapshot())
      modifies this`sent
      ensures Snapshot() == AfterCallback(old(Snapshot()), EngineCallback.DidFailWithError(error, now), accuracyName)
      ensures Valid(Snapshot())
    {
      CallbackPreservesValid(Snapshot(), EngineCallback.DidFailWithError(error, now), accuracyName);
      if signifyEventNotifier.Some? {
        sent := sent + [signifyEventNotifier.value.DidReceiveError(ErrorEvent(error, now))];
      }
    }
  }
}
