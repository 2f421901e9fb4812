/**
 * The script-side `PositioningManager`: the delegate slot, the registration
 * deferred and the command deferreds, the `exec` calls handed to the
 * transport, and the routing of what the native layer sends back.
 *
 * `exec` is recorded, not run: each call keeps its two callbacks, by what they
 * do, so that the transport's later invocation of one of them is a step of its
 * own (`CompleteStep`). `JSON.parse` and calling a pre-processor are
 * parameters; console errors and delegate invocations are logs.
 */
module ScriptProxy {
  import opened Wrappers
  import opened ScriptValues
  import opened ScriptDelegate

  /** A Q deferred. */
  datatype Deferred = Pending | Resolved(value: JsValue) | Rejected(reason: JsValue)

  /** A callback handed to `exec`, by what it does. */
  datatype Callback =
    | DelegateCallback(deferred: nat)                           // `_onDelegateCallback` bound to a deferred
    | ResolveWrap(deferred: nat, preProcessors: seq<JsValue>)   // the pre-processors, then `d.resolve`
    | RejectWith(deferred: nat)                                 // `d.reject`

  datatype ExecCall = ExecCall(success: Callback, failure: Callback, service: string, action: string, args: seq<JsValue>)

  /** A call of a delegate member with the routed plugin result. */
  datatype Invocation = Invocation(handler: JsValue, pluginResult: JsValue)

  datatype State = State(
    delegate: JsValue,
    deferreds: seq<Deferred>,     // every deferred created, by creation order
    execs: seq<ExecCall>,         // every `exec` call, by issue order
    errors: seq<string>,          // `console.error` messages
    invocations: seq<Invocation>)

  const Service := "PositioningManager"
  const NotADelegateMessage := "newDelegate parameter has to be an instance of Delegate."
  const AlreadyResolvedMessage :=
    "Delegate registration promise is already been resolved, all subsequent callbacks should provide an \"eventType\" field."
  const UnableToHandlePrefix := "Delegate unable to handle eventType: "

  /** The registration `exec` made for deferred `d`: the same handler on both sides, no arguments. */
  function RegistrationExec(d: nat): ExecCall {
    ExecCall(DelegateCallback(d), DelegateCallback(d), Service, "registerDelegateCallbackId", [])
  }

  /**
   * The delegate is a `Delegate`, and `exec` call `i` settles deferred `i`:
   * either as a registration, or through the pre-processors and `reject`.
   */
  ghost predicate Valid(s: State) {
    && s.delegate.JsObject? && s.delegate.delegateInstance
    && |s.execs| == |s.deferreds|
    && forall i :: 0 <= i < |s.execs| ==> SettlesOwn(s.execs[i], i)
  }

  /** `exec` call `e`, issued `i`-th, settles deferred `i`. */
  ghost predicate SettlesOwn(e: ExecCall, i: nat) {
    || e == RegistrationExec(i)
    || (e.success.ResolveWrap? && e.success.deferred == i && e.failure == RejectWith(i))
  }

  /** How many registration `exec` calls were issued. */
  function Registrations(execs: seq<ExecCall>): nat
    decreases |execs|
  {
    if execs == [] then 0
    else (if execs[0].action == "registerDelegateCallbackId" then 1 else 0) + Registrations(execs[1..])
  }

  lemma {:induction false} RegistrationsAppend(a: seq<ExecCall>, b: seq<ExecCall>)
    ensures Registrations(a + b) == Registrations(a) + Registrations(b)
    decreases |a|
  {
    if a == [] {
      assert a + b == b;
    } else {
      assert (a + b)[1..] == a[1..] + b;
      RegistrationsAppend(a[1..], b);
    }
  }

  // ---------------------------------------------------------------- construction and the delegate

  /** `_registerDelegateCallbackId`: a new deferred and one `exec` bound to it. */
  function RegisterStep(s: State): (t: State)
    requires |s.execs| == |s.deferreds|
  {
    var d := |s.deferreds|;
    s.(deferreds := s.deferreds + [Pending], execs := s.execs + [RegistrationExec(d)])
  }

  /** The constructor: a fresh `Delegate`, then the registration. */
  function InitialState(): State {
    RegisterStep(State(NewDelegate(), [], [], [], []))
  }

  /** `setDelegate`: a non-`Delegate` is refused with a console error and `undefined`. */
  function SetDelegateStep(s: State, newDelegate: JsValue): (State, JsValue) {
    if !(newDelegate.JsObject? && newDelegate.delegateInstance) then
      (s.(errors := s.errors + [NotADelegateMessage]), Undefined)
    else
      (s.(delegate := newDelegate), newDelegate)
  }

  // ---------------------------------------------------------------- routing

  /** The `eventType` of a plugin result, when it is a string. */
  function EventTypeOf(pluginResult: JsValue): Option<string> {
    var t := Member(pluginResult, "eventType");
    if t.JsString? then Some(t.s) else None
  }

  /** `_mapDelegateCallback`: call the delegate's member named by `eventType` if it is a function. */
  function MapStep(s: State, pluginResult: JsValue): State
    requires EventTypeOf(pluginResult).Some?
  {
    var eventType := EventTypeOf(pluginResult).value;
    var handler := Member(s.delegate, eventType);
    if handler.JsFunction? then s.(invocations := s.invocations + [Invocation(handler, pluginResult)])
    else s.(errors := s.errors + [UnableToHandlePrefix + eventType])
  }

  /**
   * The routing in `_onDelegateCallback`: a result with an `eventType` goes to
   * the delegate, one without resolves a pending registration, and anything
   * else is a console error.
   */
  function RouteStep(s: State, d: nat, pluginResult: JsValue): State
    requires d < |s.deferreds|
  {
    if EventTypeOf(pluginResult).Some? then MapStep(s, pluginResult)
    else if s.deferreds[d].Pending? then s.(deferreds := s.deferreds[d := Resolved(Undefined)])
    else s.(errors := s.errors + [AlreadyResolvedMessage])
  }

  /**
   * `_onDelegateCallback`: a string other than 'OK' is parsed first (`parse`
   * stands for `JSON.parse`; its SyntaxError escapes), then the result is routed.
   */
  function OnDelegateStep(s: State, d: nat, pluginResult: JsValue, parse: string -> Result<JsValue, string>)
    : Result<State, string>
    requires d < |s.deferreds|
  {
    var r :- if pluginResult.JsString? && pluginResult.s != "OK" then parse(pluginResult.s) else Success(pluginResult);
    Success(RouteStep(s, d, r))
  }

  // ---------------------------------------------------------------- commands

  /** `_.filter(xs, _.isFunction)`. */
  function FunctionsOf(xs: seq<JsValue>): (fs: seq<JsValue>)
    ensures forall i :: 0 <= i < |fs| ==> fs[i].JsFunction?
    ensures forall x :: x in xs && x.JsFunction? <==> x in fs
    decreases |xs|
  {
    if xs == [] then []
    else (if xs[0].JsFunction? then [xs[0]] else []) + FunctionsOf(xs[1..])
  }

  /** The filter keeps the order: it distributes over concatenation. */
  lemma {:induction false} FunctionsOfAppend(a: seq<JsValue>, b: seq<JsValue>)
    ensures FunctionsOf(a + b) == FunctionsOf(a) + FunctionsOf(b)
    decreases |a|
  {
    if a == [] {
      assert a + b == b;
    } else {
      assert (a + b)[1..] == a[1..] + b;
      FunctionsOfAppend(a[1..], b);
    }
  }

  /** A list of functions passes the filter unchanged. */
  lemma {:induction false} FunctionsOfKeepsFunctions(xs: seq<JsValue>)
    requires forall i :: 0 <= i < |xs| ==> xs[i].JsFunction?
    ensures FunctionsOf(xs) == xs
    decreases |xs|
  {
    if xs != [] {
      FunctionsOfKeepsFunctions(xs[1..]);
    }
  }

  /**
   * The pre-processors applied in order to `x`; `call(f, v)` is the value of
   * `f(v)`.
   */
  function Pipeline(fs: seq<JsValue>, call: (JsValue, JsValue) -> JsValue, x: JsValue): JsValue
    decreases |fs|
  {
    if fs == [] then x else call(fs[|fs| - 1], Pipeline(fs[..|fs| - 1], call, x))
  }

  /** The first pre-processor sees the raw result, and the rest see its output. */
  lemma {:induction false} PipelineLeftToRight(f: JsValue, fs: seq<JsValue>, call: (JsValue, JsValue) -> JsValue, x: JsValue)
    ensures Pipeline([f] + fs, call, x) == Pipeline(fs, call, call(f, x))
    decreases |fs|
  {
    if fs != [] {
      var init := fs[..|fs| - 1];
      assert ([f] + fs)[..|[f] + fs| - 1] == [f] + init;
      PipelineLeftToRight(f, init, call, x);
    } else {
      assert [f] + fs == [f];
      assert [f][..0] == [];
    }
  }

  /** Q's `resolve`/`reject`: only a pending deferred settles. */
  function Settle(deferreds: seq<Deferred>, d: nat, outcome: Deferred): seq<Deferred>
    requires d < |deferreds|
  {
    if deferreds[d].Pending? then deferreds[d := outcome] else deferreds
  }

  /** `_preProcessorExecutor` with `d.resolve`: resolve with the processed result. */
  function PreProcessStep(s: State, d: nat, pluginResult: JsValue, preProcessors: seq<JsValue>,
                          call: (JsValue, JsValue) -> JsValue): State
    requires d < |s.deferreds|
  {
    s.(deferreds := Settle(s.deferreds, d, Resolved(Pipeline(preProcessors, call, pluginResult))))
  }

  function RejectStep(s: State, d: nat, reason: JsValue): State
    requires d < |s.deferreds|
  {
    s.(deferreds := Settle(s.deferreds, d, Rejected(reason)))
  }

  /** `_promisedExec`: non-array arguments become [], pre-processors are filtered to functions. */
  function PromisedExecStep(s: State, action: string, commandArgs: JsValue, preProcessors: JsValue): (State, nat)
    requires |s.execs| == |s.deferreds|
  {
    var args := if commandArgs.JsArray? then commandArgs.items else [];
    var functions := FunctionsOf(if preProcessors.JsArray? then preProcessors.items else []);
    var d := |s.deferreds|;
    (s.(deferreds := s.deferreds + [Pending],
        execs := s.execs + [ExecCall(ResolveWrap(d, functions), RejectWith(d), Service, action, args)]),
     d)
  }

  function ConfigureStep(s: State, license: JsValue, testMode: JsValue): (State, nat)
    requires |s.execs| == |s.deferreds|
  {
    PromisedExecStep(s, "configure", JsArray([license, testMode]), JsArray([]))
  }

  function StartStep(s: State): (State, nat)
    requires |s.execs| == |s.deferreds|
  {
    PromisedExecStep(s, "start", JsArray([]), JsArray([]))
  }

  function StopStep(s: State): (State, nat)
    requires |s.execs| == |s.deferreds|
  {
    PromisedExecStep(s, "stop", JsArray([]), JsArray([]))
  }

  /**
   * The transport invoking the success (or failure) callback of `exec` call
   * `i` with `value`.
   */
  function CompleteStep(s: State, i: nat, succeeded: bool, value: JsValue,
                        parse: string -> Result<JsValue, string>, call: (JsValue, JsValue) -> JsValue)
    : Result<State, string>
    requires Valid(s) && i < |s.execs|
  {
    var callback := if succeeded then s.execs[i].success else s.execs[i].failure;
    match callback
    case DelegateCallback(d) => OnDelegateStep(s, d, value, parse)
    case ResolveWrap(d, preProcessors) => Success(PreProcessStep(s, d, value, preProcessors, call))
    case RejectWith(d) => Success(RejectStep(s, d, value))
  }

  // ---------------------------------------------------------------- properties

  /**
   * Construction issues exactly one `exec`, the registration, with the same
   * handler for success and failure, and a fresh `Delegate`.
   */
  lemma ConstructionRegistersOnce()
    ensures var s := InitialState();
      && Valid(s)
      && s.execs == [RegistrationExec(0)] && Registrations(s.execs) == 1
      && s.execs[0].success == s.execs[0].failure
      && s.deferreds == [Pending]
      && s.delegate == NewDelegate()
  {
  }

  /** `configure`, `start` and `stop` issue their action with their arguments, and no registration. */
  lemma CommandsIssueTheirAction(s: State, license: JsValue, testMode: JsValue)
    requires |s.execs| == |s.deferreds|
    ensures var (t, d) := ConfigureStep(s, license, testMode);
      && t.execs == s.execs + [ExecCall(ResolveWrap(d, []), RejectWith(d), Service, "configure", [license, testMode])]
      && Registrations(t.execs) == Registrations(s.execs)
    ensures var (t, d) := StartStep(s);
      && t.execs == s.execs + [ExecCall(ResolveWrap(d, []), RejectWith(d), Service, "start", [])]
      && Registrations(t.execs) == Registrations(s.execs)
    ensures var (t, d) := StopStep(s);
      && t.execs == s.execs + [ExecCall(ResolveWrap(d, []), RejectWith(d), Service, "stop", [])]
      && Registrations(t.execs) == Registrations(s.execs)
  {
    var e := ExecCall(ResolveWrap(|s.deferreds|, []), RejectWith(|s.deferreds|), Service, "configure", [license, testMode]);
    RegistrationsAppend(s.execs, [e]);
    assert [e][1..] == [];
    var e1 := ExecCall(ResolveWrap(|s.deferreds|, []), RejectWith(|s.deferreds|), Service, "start", []);
    RegistrationsAppend(s.execs, [e1]);
    assert [e1][1..] == [];
    var e2 := ExecCall(ResolveWrap(|s.deferreds|, []), RejectWith(|s.deferreds|), Service, "stop", []);
    RegistrationsAppend(s.execs, [e2]);
    assert [e2][1..] == [];
  }

  /**
   * `_promisedExec` creates one pending deferred and one `exec` whose
   * arguments are `[]` unless an array was given, and whose pre-processors are
   * the functions among those given, in order.
   */
  lemma PromisedExecNormalises(s: State, action: string, commandArgs: JsValue, preProcessors: JsValue)
    requires |s.execs| == |s.deferreds|
    ensures var (t, d) := PromisedExecStep(s, action, commandArgs, preProcessors);
      && d == |s.deferreds| && t.deferreds == s.deferreds + [Pending]
      && t.execs[..|s.execs|] == s.execs && |t.execs| == |s.execs| + 1
      && t.execs[d].args == (if commandArgs.JsArray? then commandArgs.items else [])
      && t.execs[d].success.ResolveWrap?
      && (!preProcessors.JsArray? ==> t.execs[d].success.preProcessors == [])
      && (preProcessors.JsArray? ==> t.execs[d].success.preProcessors == FunctionsOf(preProcessors.items))
      && t.execs[d].failure == RejectWith(d)
      && t.delegate == s.delegate && t.errors == s.errors && t.invocations == s.invocations
  {
  }

  /** `setDelegate` on a non-`Delegate`: nothing replaced, a console error, `undefined` returned. */
  lemma SetDelegateRefusesOthers(s: State, v: JsValue)
    requires !(v.JsObject? && v.delegateInstance)
    ensures SetDelegateStep(s, v).1 == Undefined
    ensures SetDelegateStep(s, v).0.delegate == s.delegate
    ensures SetDelegateStep(s, v).0.errors == s.errors + [NotADelegateMessage]
  {
  }

  /** `setDelegate` on a `Delegate`: it becomes the delegate and is returned. */
  lemma SetDelegateReplaces(s: State, v: JsValue)
    requires v.JsObject? && v.delegateInstance
    ensures SetDelegateStep(s, v) == (s.(delegate := v), v)
  {
  }

  /**
   * 'OK' and every value that is not a string reach routing as they are; any
   * other string reaches it only through `JSON.parse`, whose failure escapes.
   */
  lemma OnlyStringsParsed(s: State, d: nat, pluginResult: JsValue, parse: string -> Result<JsValue, string>)
    requires d < |s.deferreds|
    ensures (!pluginResult.JsString? || pluginResult.s == "OK") ==>
              OnDelegateStep(s, d, pluginResult, parse) == Success(RouteStep(s, d, pluginResult))
    ensures pluginResult.JsString? && pluginResult.s != "OK" ==>
              OnDelegateStep(s, d, pluginResult, parse) ==
                (match parse(pluginResult.s)
                 case Failure(e) => Failure(e)
                 case Success(v) => Success(RouteStep(s, d, v)))
  {
  }

  /** An 'OK' while the registration is pending resolves it. */
  lemma OkResolvesPendingRegistration(s: State, d: nat, parse: string -> Result<JsValue, string>)
    requires d < |s.deferreds| && s.deferreds[d].Pending?
    ensures OnDelegateStep(s, d, JsString("OK"), parse) == Success(s.(deferreds := s.deferreds[d := Resolved(Undefined)]))
  {
    assert EventTypeOf(JsString("OK")).None?;
  }

  /**
   * A result with a string `eventType` goes to the delegate, whether or not
   * the registration is still pending, and leaves every deferred as it was.
   */
  lemma EventsRouteToDelegate(s: State, d: nat, pluginResult: JsValue, parse: string -> Result<JsValue, string>)
    requires d < |s.deferreds|
    requires EventTypeOf(pluginResult).Some?
    ensures OnDelegateStep(s, d, pluginResult, parse) == Success(MapStep(s, pluginResult))
    ensures MapStep(s, pluginResult).deferreds == s.deferreds
  {
  }

  /** After resolution, a result without `eventType` only logs an error. */
  lemma ResolvedRegistrationOnlyLogs(s: State, d: nat, pluginResult: JsValue, parse: string -> Result<JsValue, string>)
    requires d < |s.deferreds| && !s.deferreds[d].Pending?
    requires !pluginResult.JsString? || pluginResult.s == "OK"
    requires EventTypeOf(pluginResult).None?
    ensures OnDelegateStep(s, d, pluginResult, parse) == Success(s.(errors := s.errors + [AlreadyResolvedMessage]))
  {
  }

  /** The results the transport sends to the registration handler, in order (a throwing one changes nothing). */
  function DeliverToRegistration(s: State, d: nat, results: seq<JsValue>, parse: string -> Result<JsValue, string>): State
    requires d < |s.deferreds|
    decreases |results|
  {
    if results == [] then s
    else
      var t := match OnDelegateStep(s, d, results[0], parse) case Success(t) => t case Failure(_) => s;
      assert |t.deferreds| == |s.deferreds|;
      DeliverToRegistration(t, d, results[1..], parse)
  }

  /**
   * The registration deferred resolves at most once: whatever arrives, it
   * stays as it was or goes from pending to resolved, and no other deferred
   * changes.
   */
  lemma {:induction false} RegistrationResolvesAtMostOnce(s: State, d: nat, results: seq<JsValue>,
                                                          parse: string -> Result<JsValue, string>)
    requires d < |s.deferreds|
    ensures var t := DeliverToRegistration(s, d, results, parse);
      && |t.deferreds| == |s.deferreds|
      && (t.deferreds[d] == s.deferreds[d] || (s.deferreds[d].Pending? && t.deferreds[d] == Resolved(Undefined)))
      && forall j :: 0 <= j < |s.deferreds| && j != d ==> t.deferreds[j] == s.deferreds[j]
    decreases |results|
  {
    if results != [] {
      var u := match OnDelegateStep(s, d, results[0], parse) case Success(t) => t case Failure(_) => s;
      assert |u.deferreds| == |s.deferreds|;
      assert u.deferreds[d] == s.deferreds[d] || (s.deferreds[d].Pending? && u.deferreds[d] == Resolved(Undefined));
      assert forall j :: 0 <= j < |s.deferreds| && j != d ==> u.deferreds[j] == s.deferreds[j];
      RegistrationResolvesAtMostOnce(u, d, results[1..], parse);
    }
  }

  /**
   * Routing calls the delegate's member exactly when it is a function, and
   * otherwise logs that it cannot handle the event; it never throws.
   */
  lemma MapCallsOnlyFunctions(s: State, pluginResult: JsValue)
    requires EventTypeOf(pluginResult).Some?
    ensures var t := MapStep(s, pluginResult);
      var handler := Member(s.delegate, EventTypeOf(pluginResult).value);
      && t.delegate == s.delegate && t.deferreds == s.deferreds && t.execs == s.execs
      && (handler.JsFunction? ==> t.invocations == s.invocations + [Invocation(handler, pluginResult)] && t.errors == s.errors)
      && (!handler.JsFunction? ==>
            t.invocations == s.invocations
            && t.errors == s.errors + [UnableToHandlePrefix + EventTypeOf(pluginResult).value])
  {
  }

  /** With a fresh `new Delegate()`, every event, the four default kinds included, is unhandled. */
  lemma FreshDelegateHandlesNothing(s: State, pluginResult: JsValue)
    requires s.delegate == NewDelegate()
    requires EventTypeOf(pluginResult).Some?
    ensures MapStep(s, pluginResult) == s.(errors := s.errors + [UnableToHandlePrefix + EventTypeOf(pluginResult).value])
  {
  }

  /** A command's success resolves its deferred once with the processed result; failure rejects with the raw value. */
  lemma CommandSettlesOnce(s: State, d: nat, value: JsValue, preProcessors: seq<JsValue>,
                           call: (JsValue, JsValue) -> JsValue)
    requires d < |s.deferreds|
    ensures s.deferreds[d].Pending? ==>
              PreProcessStep(s, d, value, preProcessors, call).deferreds[d] == Resolved(Pipeline(preProcessors, call, value))
    ensures s.deferreds[d].Pending? ==> RejectStep(s, d, value).deferreds[d] == Rejected(value)
    ensures !s.deferreds[d].Pending? ==>
              PreProcessStep(s, d, value, preProcessors, call) == s && RejectStep(s, d, value) == s
  {
  }

  lemma PromisedExecPreservesValid(s: State, action: string, commandArgs: JsValue, preProcessors: JsValue)
    requires Valid(s)
    ensures Valid(PromisedExecStep(s, action, commandArgs, preProcessors).0)
  {
    var t := PromisedExecStep(s, action, commandArgs, preProcessors).0;
    forall i | 0 <= i < |t.execs| ensures SettlesOwn(t.execs[i], i) {
      if i < |s.execs| {
        assert t.execs[i] == s.execs[i];
      }
    }
  }

  lemma StepsPreserveValid(s: State, license: JsValue, testMode: JsValue, newDelegate: JsValue,
                           action: string, commandArgs: JsValue, preProcessors: JsValue)
    requires Valid(s)
    ensures Valid(SetDelegateStep(s, newDelegate).0)
    ensures Valid(PromisedExecStep(s, action, commandArgs, preProcessors).0)
    ensures Valid(ConfigureStep(s, license, testMode).0)
    ensures Valid(StartStep(s).0) && Valid(StopStep(s).0)
  {
    PromisedExecPreservesValid(s, action, commandArgs, preProcessors);
    PromisedExecPreservesValid(s, "configure", JsArray([license, testMode]), JsArray([]));
    PromisedExecPreservesValid(s, "start", JsArray([]), JsArray([]));
    PromisedExecPreservesValid(s, "stop", JsArray([]), JsArray([]));
  }

  lemma CompletePreservesValid(s: State, i: nat, succeeded: bool, value: JsValue,
                               parse: string -> Result<JsValue, string>, call: (JsValue, JsValue) -> JsValue)
    requires Valid(s) && i < |s.execs|
    ensures CompleteStep(s, i, succeeded, value, parse, call).Success? ==>
              Valid(CompleteStep(s, i, succeeded, value, parse, call).value)
  {
  }

  // ---------------------------------------------------------------- the proxy object

  class PositioningManager {
    var delegate: JsValue
    var deferreds: seq<Deferred>
    var execs: seq<ExecCall>
    var errors: seq<string>
    var invocations: seq<Invocation>

    function Snapshot(): State
      reads this
    {
      State(delegate, deferreds, execs, errors, invocations)
    }

    constructor ()
      ensures Snapshot() == InitialState() && Valid(Snapshot())
    {
      delegate := NewDelegate();
      deferreds := [];
      execs := [];
      errors := [];
      invocations := [];
      new;
      var _ := RegisterDelegateCallbackId();
    }

    method GetDelegate() returns (d: JsValue)
      ensures d == delegate
    {
      d := delegate;
    }

    method SetDelegate(newDelegate: JsValue) returns (r: JsValue)
      modifies this`delegate, this`errors
      ensures (Snapshot(), r) == SetDelegateStep(old(Snapshot()), newDelegate)
    {
      if !(newDelegate.JsObject? && newDelegate.delegateInstance) {
        errors := errors + [NotADelegateMessage];
        return Undefined;
      }
      delegate := newDelegate;
      r := delegate;
    }

    method RegisterDelegateCallbackId() returns (d: nat)
      requires |execs| == |deferreds|
      modifies this`deferreds, this`execs
      ensures Snapshot() == RegisterStep(old(Snapshot())) && d == old(|deferreds|)
    {
      d := |deferreds|;
      deferreds := deferreds + [Pending];
      execs := execs + [RegistrationExec(d)];
    }

    method MapDelegateCallback(pluginResult: JsValue)
      requires EventTypeOf(pluginResult).Some?
      modifies this`errors, this`invocations
      ensures Snapshot() == MapStep(old(Snapshot()), pluginResult)
    {
      var eventType := EventTypeOf(pluginResult).value;
      var handler := Member(delegate, eventType);
      if handler.JsFunction? {
        invocations := invocations + [Invocation(handler, pluginResult)];
      } else {
        errors := errors + [UnableToHandlePrefix + eventType];
      }
    }

    /** `thrown` is the message of the SyntaxError `JSON.parse` threw, if it did. */
    method OnDelegateCallback(d: nat, pluginResult: JsValue, parse: string -> Result<JsValue, string>)
      returns (thrown: Option<string>)
      requires d < |deferreds|
      modifies this`deferreds, this`errors, this`invocations
      ensures thrown.None? <==> OnDelegateStep(old(Snapshot()), d, pluginResult, parse).Success?
      ensures thrown.None? ==> Snapshot() == OnDelegateStep(old(Snapshot()), d, pluginResult, parse).value
      ensures thrown.Some? ==> Snapshot() == old(Snapshot())
    {
      var r := pluginResult;
      if r.JsString? && r.s != "OK" {
        var parsed := parse(r.s);
        if parsed.Failure? {
          return Some(parsed.error);
        }
        r := parsed.value;
      }
      if EventTypeOf(r).Some? {
        MapDelegateCallback(r);
      } else if deferreds[d].Pending? {
        deferreds := deferreds[d := Resolved(Undefined)];
      } else {
        errors := errors + [AlreadyResolvedMessage];
      }
      thrown := None;
    }

    /** `_.each(preProcessors, …)`: the result of each pre-processor is fed to the next. */
    method ApplyPreProcessors(pluginResult: JsValue, preProcessors: seq<JsValue>, call: (JsValue, JsValue) -> JsValue)
      returns (r: JsValue)
      ensures r == Pipeline(preProcessors, call, pluginResult)
    {
      r := pluginResult;
      for i := 0 to |preProcessors|
        invariant r == Pipeline(preProcessors[..i], call, pluginResult)
      {
        assert preProcessors[..i + 1][..i] == preProcessors[..i];
        r := call(preProcessors[i], r);
      }
      assert preProcessors[..|preProcessors|] == preProcessors;
    }

    method PreProcessorExecutor(d: nat, pluginResult: JsValue, preProcessors: seq<JsValue>,
                                call: (JsValue, JsValue) -> JsValue)
      requires d < |deferreds|
      modifies this`deferreds
      ensures Snapshot() == PreProcessStep(old(Snapshot()), d, pluginResult, preProcessors, call)
    {
      var processed := ApplyPreProcessors(pluginResult, preProcessors, call);
      if deferreds[d].Pending? {
        deferreds := deferreds[d := Resolved(processed)];
      }
    }

    method Reject(d: nat, reason: JsValue)
      requires d < |deferreds|
      modifies this`deferreds
      ensures Snapshot() == RejectStep(old(Snapshot()), d, reason)
    {
      if deferreds[d].Pending? {
        deferreds := deferreds[d := Rejected(reason)];
      }
    }

    /** Returns the index of the command's deferred, standing for its promise. */
    method PromisedExec(action: string, commandArgs: JsValue, preProcessors: JsValue) returns (d: nat)
      requires |execs| == |deferreds|
      modifies this`deferreds, this`execs
      ensures (Snapshot(), d) == PromisedExecStep(old(Snapshot()), action, commandArgs, preProcessors)
    {
      var args := if commandArgs.JsArray? then commandArgs.items else [];
      var functions := FunctionsOf(if preProcessors.JsArray? then preProcessors.items else []);
      d := |deferreds|;
      deferreds := deferreds + [Pending];
      execs := execs + [ExecCall(ResolveWrap(d, functions), RejectWith(d), Service, action, args)];
    }

    method Configure(license: JsValue, testMode: JsValue) returns (d: nat)
      requires Valid(Snapshot())
      modifies this`deferreds, this`execs
      ensures (Snapshot(), d) == ConfigureStep(old(Snapshot()), license, testMode) && Valid(Snapshot())
    {
      StepsPreserveValid(Snapshot(), license, testMode, delegate, "configure", JsArray([license, testMode]), JsArray([]));
      d := PromisedExec("configure", JsArray([license, testMode]), JsArray([]));
    }

    method Start() returns (d: nat)
      requires Valid(Snapshot())
      modifies this`deferreds, this`execs
      ensures (Snapshot(), d) == StartStep(old(Snapshot())) && Valid(Snapshot())
    {
      StepsPreserveValid(Snapshot(), Undefined, Undefined, delegate, "start", JsArray([]), JsArray([]));
      d := PromisedExec("start", JsArray([]), JsArray([]));
    }

    method Stop() returns (d: nat)
      requires Valid(Snapshot())
      modifies this`deferreds, this`execs
      ensures (Snapshot(), d) == StopStep(old(Snapshot())) && Valid(Snapshot())
    {
      StepsPreserveValid(Snapshot(), Undefined, Undefined, delegate, "stop", JsArray([]), JsArray([]));
      d := PromisedExec("stop", JsArray([]), JsArray([]));
    }

    /** The transport invoking a callback of `exec` call `i`. */
    method Complete(i: nat, succeeded: bool, value: JsValue,
                    parse: string -> Result<JsValue, string>, call: (JsValue, JsValue) -> JsValue)
      returns (thrown: Option<string>)
      requires Valid(Snapshot()) && i < |execs|
      modifies this`deferreds, this`errors, this`invocations
      ensures thrown.None? <==> CompleteStep(old(Snapshot()), i, succeeded, value, parse, call).Success?
      ensures thrown.None? ==> Snapshot() == CompleteStep(old(Snapshot()), i, succeeded, value, parse, call).value
      ensures thrown.Some? ==> Snapshot() == old(Snapshot())
      ensures Valid(Snapshot())
    {
      CompletePreservesValid(Snapshot(), i, succeeded, value, parse, call);
      var callback := if succeeded then execs[i].success else execs[i].failure;
      thrown := None;
      match callback
      case DelegateCallback(d) =>
        thrown := OnDelegateCallback(d, value, parse);
      case ResolveWrap(d, preProcessors) =>
        PreProcessorExecutor(d, value, preProcessors, call);
      case RejectWith(d) =>
        Reject(d, value);
    }
  }
}
