/**
 * The script-side values the proxy handles: JSON-like data, function objects
 * by identity, and objects with their own properties and whether `Delegate`
 * is on their prototype chain.
 */
module ScriptValues {
  import opened Wrappers

  datatype JsValue =
    | Undefined
    | Null
    | JsBool(b: bool)
    | JsNumber(x: real)
    | JsString(s: string)
    | JsArray(items: seq<JsValue>)
    | JsObject(props: map<string, JsValue>, delegateInstance: bool)  // `delegateInstance`: `v instanceof Delegate`
    | JsFunction(id: nat)

  /** `v[name]` on an object: its own property, or `undefined`; anything else has no properties here. */
  function Member(v: JsValue, name: string): (m: JsValue)
    ensures m != Undefined ==> v.JsObject? && name in v.props && v.props[name] == m
  {
    if v.JsObject? && name in v.props then v.props[name] else Undefined
  }
}

/**
 * `Delegate`: an empty constructor whose four default handlers are attached
 * to the constructor itself. Each handler decodes `pluginResult.event` in place.
 */
module ScriptDelegate {
  import opened Wrappers
  import opened ScriptValues

  /** The names of the default handlers, one per event kind the native layers push. */
  const DefaultHandlerNames: seq<string> := ["didReceiveLog", "didReceiveError", "didReceiveLocation", "didReceiveHeading"]

  /**
   * The `Delegate` constructor as a script value: a function object whose own
   * properties are the four default handlers, the handler named
   * `DefaultHandlerNames[i]` being the function with identity `i`. The
   * constructor is not itself an instance of `Delegate`.
   */
  function DelegateConstructor(): (ctor: JsValue)
    ensures ctor.JsObject? && !ctor.delegateInstance
    ensures forall name :: Member(ctor, name) != Undefined <==> name in DefaultHandlerNames
    ensures forall i :: 0 <= i < |DefaultHandlerNames| ==> Member(ctor, DefaultHandlerNames[i]) == JsFunction(i)
  {
    JsObject(map["didReceiveLog" := JsFunction(0), "didReceiveError" := JsFunction(1),
                 "didReceiveLocation" := JsFunction(2), "didReceiveHeading" := JsFunction(3)], false)
  }

  /**
   * The constructor carries exactly four handlers, each a distinct function,
   * and an instance made by `new Delegate()` inherits none of them.
   */
  lemma HandlersOnConstructorOnly()
    ensures |DelegateConstructor().props.Keys| == 4
    ensures forall name :: name in DelegateConstructor().props ==>
              DelegateConstructor().props[name].JsFunction? && Member(NewDelegate(), name) == Undefined
    ensures forall m, n :: m in DelegateConstructor().props && n in DelegateConstructor().props && m != n ==>
              DelegateConstructor().props[m] != DelegateConstructor().props[n]
  {
    var ctor := DelegateConstructor();
    assert ctor.props.Keys == {"didReceiveLog", "didReceiveError", "didReceiveLocation", "didReceiveHeading"};
  }

  /**
   * `new Delegate()`: an instance with no own properties. The handlers are
   * properties of the constructor, not of its prototype, so an instance has none.
   */
  function NewDelegate(): (d: JsValue)
    ensures d.JsObject? && d.delegateInstance
    ensures forall name :: Member(d, name) == Undefined
  {
    JsObject(map[], true)
  }

  /**
   * `pluginResult.event = JSON.parse(pluginResult.event)`, on the properties
   * of `pluginResult`. `parse` stands for `JSON.parse` applied to the value
   * (`undefined` when there is no `event`): its result, or the message of
   * the SyntaxError it throws, in which case nothing is assigned.
   */
  function DecodedEvent(props: map<string, JsValue>, parse: JsValue -> Result<JsValue, string>)
    : (r: Result<map<string, JsValue>, string>)
    ensures r.Failure? <==> parse(if "event" in props then props["event"] else Undefined).Failure?
    ensures r.Success? ==> && r.value.Keys == props.Keys + {"event"}
                           && r.value["event"] == parse(if "event" in props then props["event"] else Undefined).value
                           && forall k :: k in props && k != "event" ==> r.value[k] == props[k]
  {
    var raw := if "event" in props then props["event"] else Undefined;
    match parse(raw)
    case Success(event) => Success(props["event" := event])
    case Failure(message) => Failure(message)
  }

  /** The plugin result object a handler receives and mutates. */
  class PluginResultObject {
    var props: map<string, JsValue>

    constructor (props: map<string, JsValue>)
      ensures this.props == props
    {
      this.props := props;
    }
  }

  /** The body every default handler shares. */
  method DecodeEvent(pluginResult: PluginResultObject, parse: JsValue -> Result<JsValue, string>)
    returns (thrown: Option<string>)
    modifies pluginResult
    ensures (if thrown.None? then Success(pluginResult.props) else Failure(thrown.value))
            == DecodedEvent(old(pluginResult.props), parse)
    ensures thrown.Some? ==> pluginResult.props == old(pluginResult.props)
  {
    var raw := if "event" in pluginResult.props then pluginResult.props["event"] else Undefined;
    var parsed := parse(raw);
    if parsed.Failure? {
      return Some(parsed.error);
    }
    pluginResult.props := pluginResult.props["event" := parsed.value];
    thrown := None;
  }

  method DidReceiveLog(pluginResult: PluginResultObject, parse: JsValue -> Result<JsValue, string>)
    returns (thrown: Option<string>)
    modifies pluginResult
    ensures (if thrown.None? then Success(pluginResult.props) else Failure(thrown.value))
            == DecodedEvent(old(pluginResult.props), parse)
    ensures thrown.Some? ==> pluginResult.props == old(pluginResult.props)
  {
    thrown := DecodeEvent(pluginResult, parse);
  }

  method DidReceiveError(pluginResult: PluginResultObject, parse: JsValue -> Result<JsValue, string>)
    returns (thrown: Option<string>)
    modifies pluginResult
    ensures (if thrown.None? then Success(pluginResult.props) else Failure(thrown.value))
            == DecodedEvent(old(pluginResult.props), parse)
    ensures thrown.Some? ==> pluginResult.props == old(pluginResult.props)
  {
    thrown := DecodeEvent(pluginResult, parse);
  }

  method DidReceiveLocation(pluginResult: PluginResultObject, parse: JsValue -> Result<JsValue, string>)
    returns (thrown: Option<string>)
    modifies pluginResult
    ensures (if thrown.None? then Success(pluginResult.props) else Failure(thrown.value))
            == DecodedEvent(old(pluginResult.props), parse)
    ensures thrown.Some? ==> pluginResult.props == old(pluginResult.props)
  {
    thrown := DecodeEvent(pluginResult, parse);
  }

  method DidReceiveHeading(pluginResult: PluginResultObject, parse: JsValue -> Result<JsValue, string>)
    returns (thrown: Option<string>)
    modifies pluginResult
    ensures (if thrown.None? then Success(pluginResult.props) else Failure(thrown.value))
            == DecodedEvent(old(pluginResult.props), parse)
    ensures thrown.Some? ==> pluginResult.props == old(pluginResult.props)
  {
    thrown := DecodeEvent(pluginResult, parse);
  }
}
