/**
 * The iOS plugin `CDVSignifyPositioningManager`: the command handlers Cordova
 * calls by selector, the single notifier slot, and the three engine delegate
 * callbacks.
 *
 * The plugin's state is the SDK's shared engine (as far as the plugin sets and
 * reads it), the engine calls it has made, the notifier slot and the log of
 * everything sent through the command delegate. Each command and each engine
 * callback is one atomic step; the pure step functions below are the
 * specification the class's methods are proved against.
 */
module IosPlugin {
  import opened Wrappers
  import opened Json
  import opened Cordova
  import opened Sdk
  import opened IosEvents

  /** The SDK's shared instance: the properties the plugin assigns and `running`. */
  datatype Engine = Engine(
    delegateIsPlugin: bool,
    headingOrientation: HeadingOrientation,
    configuration: Option<string>,
    mode: Option<Mode>,
    running: bool)

  /** The shared instance before the plugin touches it (portrait is the SDK's default). */
  const InitialEngine := Engine(false, Portrait, None, None, false)

  datatype EngineCall = EngineStart | EngineStop

  /** A `CDVInvokedUrlCommand`: the callback id and the arguments sent by script. */
  datatype InvokedUrlCommand = InvokedUrlCommand(callbackId: CallbackId, arguments: seq<Json>)

  datatype State = State(
    engine: Engine,
    engineCalls: seq<EngineCall>,
    notifier: Option<SignifyEventNotifier>,
    sent: seq<Response>)

  const InitialState := State(InitialEngine, [], None, [])

  /**
   * Every push went to a registered callback id, and the notifier, when bound,
   * is bound to a callback id whose registration was acknowledged.
   */
  ghost predicate Valid(s: State) {
    && PushesFollowRegistration(s.sent, KeepOpenAck)
    && (s.notifier.Some? ==> Response(s.notifier.value.callbackId, KeepOpenAck) in s.sent)
  }

  // ---------------------------------------------------------------- engine primitives

  /** The engine's `start()`: the engine runs afterwards. */
  function StartEngine(s: State): State {
    s.(engine := s.engine.(running := true), engineCalls := s.engineCalls + [EngineStart])
  }

  /** The engine's `stop()`: the engine no longer runs afterwards. */
  function StopEngine(s: State): State {
    s.(engine := s.engine.(running := false), engineCalls := s.engineCalls + [EngineStop])
  }

  function Send(s: State, r: Response): State {
    s.(sent := s.sent + [r])
  }

  // ---------------------------------------------------------------- commands

  /**
   * What `configure` force-unwraps: a first argument that is a string and a
   * second argument to read the test-mode flag from.
   */
  predicate ConfigureArguments(arguments: seq<Json>) {
    |arguments| >= 2 && arguments[0].JString?
  }

  /**
   * `arguments[1] as? Bool ?? false`. Script booleans and numbers both arrive
   * as `NSNumber`, and the bridge to `Bool` succeeds on a boolean and on a
   * number equal to 0 or 1; anything else falls back to `false`.
   */
  function TestMode(argument: Json): bool {
    match argument
    case JBool(b) => b
    case JInt(i) => i == 1
    case JNumber(x) => x == 1.0
    case _ => false
  }

  /** The `testMode` arguments that select simulation: true, or the number one. */
  const SimulationFlags: set<Json> := {JBool(true), JInt(1), JNumber(1.0)}

  function ConfigureStep(s: State, command: InvokedUrlCommand): State
    requires ConfigureArguments(command.arguments)
  {
    var license := command.arguments[0].s;
    var testMode := TestMode(command.arguments[1]);
    var configured := s.(engine := s.engine.(
      delegateIsPlugin := true,
      headingOrientation := Portrait,
      configuration := Some(license),
      mode := Some(if testMode then Simulation else Default)));
    Send(StartEngine(configured), Response(command.callbackId, OkResult))
  }

  function StartStep(s: State, command: InvokedUrlCommand): State {
    Send(StartEngine(s), Response(command.callbackId, OkResult))
  }

  /** One OK response whether or not the engine was running; the engine is stopped only if it was. */
  function StopStep(s: State, command: InvokedUrlCommand): State {
    if !s.engine.running then Send(s, Response(command.callbackId, OkResult))
    else Send(StopEngine(s), Response(command.callbackId, OkResult))
  }

  /** `createNotifierCallbacks`: a new notifier bound to this command replaces the old one. */
  function WithNotifierFor(s: State, command: InvokedUrlCommand): State {
    s.(notifier := Some(SignifyEventNotifier(command.callbackId)))
  }

  function RegisterStep(s: State, command: InvokedUrlCommand): State {
    Send(WithNotifierFor(s, command), Response(command.callbackId, KeepOpenAck))
  }

  /** The plugin methods Cordova invokes by selector. */
  datatype Selector = Configure | Start | Stop | RegisterDelegateCallbackId

  function Dispatch(s: State, selector: Selector, command: InvokedUrlCommand): State
    requires selector == Configure ==> ConfigureArguments(command.arguments)
  {
    match selector
    case Configure => ConfigureStep(s, command)
    case Start => StartStep(s, command)
    case Stop => StopStep(s, command)
    case RegisterDelegateCallbackId => RegisterStep(s, command)
  }

  // ---------------------------------------------------------------- engine callbacks

  datatype EngineCallback =
    | DidUpdateHeading(heading: Payload)
    | DidUpdateLocation(location: Payload)
    | DidFailWithError(error: NSError, now: Timestamp)

  /** The delegate callbacks: `signifyEventNotifier?.didReceive…`, so nothing happens while unbound. */
  function CallbackStep(s: State, callback: EngineCallback): State {
    match callback
    case DidUpdateHeading(heading) =>
      if s.notifier.None? then s else Send(s, s.notifier.value.DidReceiveHeading(NewHeadingEvent(heading)))
    case DidUpdateLocation(location) =>
      if s.notifier.None? then s else Send(s, s.notifier.value.DidReceiveLocation(NewLocationEvent(location)))
    case DidFailWithError(error, now) =>
      if error.domain != IndoorPositioningErrorDomain then s
      else if s.notifier.None? then s
      else Send(s, s.notifier.value.DidReceiveError(NewErrorEvent(error, now)))
  }

  /** A run of engine callbacks, in the order the engine delivers them. */
  function Deliver(s: State, callbacks: seq<EngineCallback>): State
    decreases |callbacks|
  {
    if callbacks == [] then s else Deliver(CallbackStep(s, callbacks[0]), callbacks[1..])
  }

  // ---------------------------------------------------------------- properties

  /** Every command sends exactly one response, to its own callback id; only registration keeps it open. */
  lemma OneResponsePerCommand(s: State, selector: Selector, command: InvokedUrlCommand)
    requires selector == Configure ==> ConfigureArguments(command.arguments)
    ensures Dispatch(s, selector, command).sent
         == s.sent + [Response(command.callbackId,
                               if selector == RegisterDelegateCallbackId then KeepOpenAck else OkResult)]
  {
  }

  /** `configure` sets portrait, the license and simulation mode iff test mode is true or one, then starts the engine once. */
  lemma ConfigureConfiguresAndStarts(s: State, command: InvokedUrlCommand)
    requires ConfigureArguments(command.arguments)
    ensures var t := ConfigureStep(s, command);
      && t.engine.delegateIsPlugin
      && t.engine.headingOrientation == Portrait
      && t.engine.configuration == Some(command.arguments[0].s)
      && (t.engine.mode == Some(Simulation) <==> command.arguments[1] in SimulationFlags)
      && (t.engine.mode == Some(Default) <==> command.arguments[1] !in SimulationFlags)
      && t.engine.running
      && t.engineCalls == s.engineCalls + [EngineStart]
      && t.notifier == s.notifier
  {
  }

  /**
   * A `testMode` argument that does not bridge to `Bool` (a string, null, an
   * object, a number other than 0 or 1) selects the default mode.
   */
  lemma OtherTestModesAreDefault(s: State, command: InvokedUrlCommand)
    requires ConfigureArguments(command.arguments)
    requires !command.arguments[1].JBool?
    requires command.arguments[1].JInt? ==> command.arguments[1].i != 1
    requires command.arguments[1].JNumber? ==> command.arguments[1].x != 1.0
    ensures ConfigureStep(s, command).engine.mode == Some(Default)
  {
  }

  /** The number one bridges to `true`, so `configure(license, 1)` selects simulation. */
  lemma NumericOneIsTestMode(s: State, license: string, one: Json, callbackId: CallbackId)
    requires one == JInt(1) || one == JNumber(1.0)
    ensures ConfigureStep(s, InvokedUrlCommand(callbackId, [JString(license), one])).engine.mode == Some(Simulation)
  {
  }

  /**
   * `start` has no guard: a second `start` calls the engine's `start()` again,
   * and each command gets its OK.
   */
  lemma StartTwiceStartsTwice(s: State, a: InvokedUrlCommand, b: InvokedUrlCommand)
    ensures var t := StartStep(StartStep(s, a), b);
      && t.engine.running
      && t.engineCalls == s.engineCalls + [EngineStart, EngineStart]
      && t.sent == s.sent + [Response(a.callbackId, OkResult), Response(b.callbackId, OkResult)]
  {
  }

  /** `stop` on an engine that is not running calls nothing on the engine. */
  lemma StopWhenStoppedTouchesNothing(s: State, command: InvokedUrlCommand)
    requires !s.engine.running
    ensures StopStep(s, command) == Send(s, Response(command.callbackId, OkResult))
  {
  }

  /** Two `stop` commands in a row stop the engine at most once and leave it stopped. */
  lemma StopTwiceStopsOnce(s: State, a: InvokedUrlCommand, b: InvokedUrlCommand)
    ensures var t := StopStep(StopStep(s, a), b);
      && !t.engine.running
      && t.engineCalls == s.engineCalls + (if s.engine.running then [EngineStop] else [])
      && t.sent == s.sent + [Response(a.callbackId, OkResult), Response(b.callbackId, OkResult)]
  {
  }

  /** Engine errors from other domains are ignored. */
  lemma ForeignErrorsIgnored(s: State, error: NSError, now: Timestamp)
    requires error.domain != IndoorPositioningErrorDomain
    ensures CallbackStep(s, DidFailWithError(error, now)) == s
  {
  }

  /** With no notifier registered, every engine callback is a no-op. */
  lemma {:induction false} UnboundCallbacksDropped(s: State, callbacks: seq<EngineCallback>)
    requires s.notifier.None?
    ensures Deliver(s, callbacks) == s
    decreases |callbacks|
  {
    if callbacks != [] {
      assert CallbackStep(s, callbacks[0]) == s;
      UnboundCallbacksDropped(s, callbacks[1..]);
    }
  }

  /**
   * With a notifier bound, engine callbacks only append pushes, all to the
   * notifier's callback id, and change nothing else.
   */
  lemma {:induction false} PushesGoToNotifier(s: State, callbacks: seq<EngineCallback>)
    requires s.notifier.Some?
    ensures var t := Deliver(s, callbacks);
      && t.engine == s.engine && t.engineCalls == s.engineCalls && t.notifier == s.notifier
      && |s.sent| <= |t.sent| && t.sent[..|s.sent|] == s.sent
      && forall i :: |s.sent| <= i < |t.sent| ==>
           IsPush(t.sent[i]) && t.sent[i].callbackId == s.notifier.value.callbackId
    decreases |callbacks|
  {
    if callbacks != [] {
      var u := CallbackStep(s, callbacks[0]);
      assert u.engine == s.engine && u.engineCalls == s.engineCalls && u.notifier == s.notifier;
      assert |u.sent| == |s.sent| || |u.sent| == |s.sent| + 1;
      assert forall i :: |s.sent| <= i < |u.sent| ==>
        IsPush(u.sent[i]) && u.sent[i].callbackId == s.notifier.value.callbackId;
      PushesGoToNotifier(u, callbacks[1..]);
      var t := Deliver(u, callbacks[1..]);
      assert t.sent[..|u.sent|] == u.sent;
      assert u.sent[..|s.sent|] == s.sent;
      assert t.sent[..|s.sent|] == s.sent;
      forall i | |s.sent| <= i < |t.sent|
        ensures IsPush(t.sent[i]) && t.sent[i].callbackId == s.notifier.value.callbackId
      {
        if i < |u.sent| {
          assert t.sent[i] == u.sent[i];
        }
      }
    }
  }

  /**
   * After a second registration, every later engine event goes to the second
   * callback id only: the first registration receives nothing more.
   */
  lemma ReRegistrationRedirects(s: State, first: InvokedUrlCommand, second: InvokedUrlCommand,
                                callbacks: seq<EngineCallback>)
    ensures var r := RegisterStep(RegisterStep(s, first), second);
      var t := Deliver(r, callbacks);
      && |r.sent| <= |t.sent| && t.sent[..|r.sent|] == r.sent
      && forall i :: |r.sent| <= i < |t.sent| ==>
           IsPush(t.sent[i]) && t.sent[i].callbackId == second.callbackId
  {
    var r := RegisterStep(RegisterStep(s, first), second);
    PushesGoToNotifier(r, callbacks);
  }

  lemma CommandPreservesValid(s: State, selector: Selector, command: InvokedUrlCommand)
    requires selector == Configure ==> ConfigureArguments(command.arguments)
    requires Valid(s)
    ensures Valid(Dispatch(s, selector, command))
  {
    var t := Dispatch(s, selector, command);
    var r := Response(command.callbackId,
                      if selector == RegisterDelegateCallbackId then KeepOpenAck else OkResult);
    OneResponsePerCommand(s, selector, command);
    PushesFollowRegistrationSnoc(s.sent, KeepOpenAck, r);
    if t.notifier.Some? {
      if selector == RegisterDelegateCallbackId {
        assert t.sent[|s.sent|] == Response(t.notifier.value.callbackId, KeepOpenAck);
      } else {
        assert t.notifier == s.notifier;
        assert Response(s.notifier.value.callbackId, KeepOpenAck) in s.sent;
      }
    }
  }

  /** Sending a push to the bound notifier's callback id keeps the invariant. */
  lemma PushPreservesValid(s: State, r: Response)
    requires Valid(s)
    requires s.notifier.Some? && r.callbackId == s.notifier.value.callbackId
    ensures Valid(Send(s, r))
  {
    PushesFollowRegistrationSnoc(s.sent, KeepOpenAck, r);
  }

  lemma CallbackPreservesValid(s: State, callback: EngineCallback)
    requires Valid(s)
    ensures Valid(CallbackStep(s, callback))
  {
    if s.notifier.Some? {
      var n := s.notifier.value;
      match callback
      case DidUpdateHeading(heading) =>
        PushPreservesValid(s, n.DidReceiveHeading(NewHeadingEvent(heading)));
      case DidUpdateLocation(location) =>
        PushPreservesValid(s, n.DidReceiveLocation(NewLocationEvent(location)));
      case DidFailWithError(error, now) =>
        if error.domain == IndoorPositioningErrorDomain {
          PushPreservesValid(s, n.DidReceiveError(NewErrorEvent(error, now)));
        }
    }
  }

  // ---------------------------------------------------------------- the plugin object

  class CDVSignifyPositioningManager {
    var indoorPositioning: Engine
    var engineCalls: seq<EngineCall>
    var signifyEventNotifier: Option<SignifyEventNotifier>
    /** Everything handed to `commandDelegate.send`, in order. */
    var sent: seq<Response>

    function Snapshot(): State
      reads this
    {
      State(indoorPositioning, engineCalls, signifyEventNotifier, sent)
    }

    constructor ()
      ensures Snapshot() == InitialState && Valid(Snapshot())
    {
      indoorPositioning := InitialEngine;
      engineCalls := [];
      signifyEventNotifier := None;
      sent := [];
    }

    method StartIndoorPositioning()
      modifies this`indoorPositioning, this`engineCalls
      ensures Snapshot() == StartEngine(old(Snapshot()))
    {
      indoorPositioning := indoorPositioning.(running := true);
      engineCalls := engineCalls + [EngineStart];
    }

    method StopIndoorPositioning()
      modifies this`indoorPositioning, this`engineCalls
      ensures Snapshot() == StopEngine(old(Snapshot()))
    {
      indoorPositioning := indoorPositioning.(running := false);
      engineCalls := engineCalls + [EngineStop];
    }

    method SendResponse(r: Response)
      modifies this`sent
      ensures sent == old(sent) + [r]
    {
      sent := sent + [r];
    }

    method Configure(command: InvokedUrlCommand)
      requires ConfigureArguments(command.arguments)
      requires Valid(Snapshot())
      modifies this
      ensures Snapshot() == ConfigureStep(old(Snapshot()), command) && Valid(Snapshot())
    {
      var license := command.arguments[0].s;
      var testMode := TestMode(command.arguments[1]);
      indoorPositioning := indoorPositioning.(delegateIsPlugin := true);
      indoorPositioning := indoorPositioning.(headingOrientation := Portrait);
      indoorPositioning := indoorPositioning.(configuration := Some(license));
      indoorPositioning := indoorPositioning.(mode := Some(if testMode then Simulation else Default));
      StartIndoorPositioning();
      SendResponse(Response(command.callbackId, OkResult));
      CommandPreservesValid(old(Snapshot()), Selector.Configure, command);
    }

    method Start(command: InvokedUrlCommand)
      requires Valid(Snapshot())
      modifies this
      ensures Snapshot() == StartStep(old(Snapshot()), command) && Valid(Snapshot())
    {
      StartIndoorPositioning();
      SendResponse(Response(command.callbackId, OkResult));
      CommandPreservesValid(old(Snapshot()), Selector.Start, command);
    }

    method Stop(command: InvokedUrlCommand)
      requires Valid(Snapshot())
      modifies this
      ensures Snapshot() == StopStep(old(Snapshot()), command) && Valid(Snapshot())
    {
      if !indoorPositioning.running {
        SendResponse(Response(command.callbackId, OkResult));
      } else {
        StopIndoorPositioning();
        SendResponse(Response(command.callbackId, OkResult));
      }
      CommandPreservesValid(old(Snapshot()), Selector.Stop, command);
    }

    method CreateNotifierCallbacks(command: InvokedUrlCommand)
      modifies this`signifyEventNotifier
      ensures Snapshot() == WithNotifierFor(old(Snapshot()), command)
    {
      signifyEventNotifier := Some(SignifyEventNotifier(command.callbackId));
    }

    method RegisterDelegateCallbackId(command: InvokedUrlCommand)
      requires Valid(Snapshot())
      modifies this
      ensures Snapshot() == RegisterStep(old(Snapshot()), command) && Valid(Snapshot())
    {
      var pluginResult := KeepOpenAck;
      CreateNotifierCallbacks(command);
      SendResponse(Response(command.callbackId, pluginResult));
      CommandPreservesValid(old(Snapshot()), Selector.RegisterDelegateCallbackId, command);
    }

    method DidUpdateHeading(heading: Payload)
      requires Valid(Snapshot())
      modifies this`sent
      ensures Snapshot() == CallbackStep(old(Snapshot()), EngineCallback.DidUpdateHeading(heading))
      ensures Valid(Snapshot())
    {
      if signifyEventNotifier.Some? {
        SendResponse(signifyEventNotifier.value.DidReceiveHeading(NewHeadingEvent(heading)));
      }
      CallbackPreservesValid(old(Snapshot()), EngineCallback.DidUpdateHeading(heading));
    }

    method DidUpdateLocation(location: Payload)
      requires Valid(Snapshot())
      modifies this`sent
      ensures Snapshot() == CallbackStep(old(Snapshot()), EngineCallback.DidUpdateLocation(location))
      ensures Valid(Snapshot())
    {
      if signifyEventNotifier.Some? {
        SendResponse(signifyEventNotifier.value.DidReceiveLocation(NewLocationEvent(location)));
      }
      CallbackPreservesValid(old(Snapshot()), EngineCallback.DidUpdateLocation(location));
    }

    /** `now` is the clock read `Date()` made by `ErrorEvent.init`. */
    method DidFailWithError(error: NSError, now: Timestamp)
      requires Valid(Snapshot())
      modifies this`sent
      ensures Snapshot() == CallbackStep(old(Snapshot()), EngineCallback.DidFailWithError(error, now))
      ensures Valid(Snapshot())
    {
      CallbackPreservesValid(old(Snapshot()), EngineCallback.DidFailWithError(error, now));
      if error.domain != IndoorPositioningErrorDomain {
        return;
      }
      if signifyEventNotifier.Some? {
        SendResponse(signifyEventNotifier.value.DidReceiveError(NewErrorEvent(error, now)));
      }
    }
  }
}
