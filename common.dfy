/** Optional values and outcomes: Swift optionals, Kotlin nullable values and thrown exceptions. */
module Wrappers {

  datatype Option<+T> = None | Some(value: T)

  /** A computation that either produced a value or threw an exception described by `error`. */
  datatype Result<+T, +E> = Success(value: T) | Failure(error: E) {
    predicate IsFailure() {
      Failure?
    }

    function PropagateFailure<U>(): Result<U, E>
      requires Failure?
    {
      Failure(error)
    }

    function Extract(): T
      requires Success?
    {
      value
    }
  }
}

/**
 * The JSON-like values the native layers build (`[String: Any]` on iOS,
 * `JSONObject` on Android). Numbers are opaque tokens: the bridge copies them
 * and never computes with them, so `real` stands for Double and Float alike.
 */
module Json {

  /** An instant read from the platform clock; the bridge only stores it. */
  type Timestamp = int

  /** Swift `Int32` and Kotlin `Int`. */
  type int32 = x: int | -0x8000_0000 <= x < 0x8000_0000

  datatype Json =
    | JNull
    | JBool(b: bool)
    | JNumber(x: real)
    | JInt(i: int)
    | JString(s: string)
    | JDate(t: Timestamp)
    | JObject(fields: map<string, Json>)
}

/** The host transport: callback ids, plugin results and everything sent back to script. */
module Cordova {
  import opened Wrappers
  import opened Json

  /** The opaque id under which the script side waits for responses. */
  type CallbackId = string

  datatype Status = NoResult | Ok | InvalidAction | JsonException | Error

  datatype Message =
    | NoMessage
    | Text(text: string)        // a plain string message
    | JsonText(json: Json)      // a JSON document serialised to a string (iOS `messageAs: jsonString`)
    | JsonObject(json: Json)    // a `JSONObject` handed over as is (Android)

  datatype PluginResult = PluginResult(status: Status, message: Message, keepCallback: bool)

  /** One send of a plugin result to one callback id. */
  datatype Response = Response(callbackId: CallbackId, result: PluginResult)

  /** iOS `CDVPluginResult(status: CDVCommandStatus_OK)`: OK with no message, the one-shot success of a command. */
  const OkResult := PluginResult(Ok, NoMessage, false)

  /** The iOS registration acknowledgement: OK, no message, the channel kept open. */
  const KeepOpenAck := PluginResult(Ok, NoMessage, true)

  /** The status message Android's one-argument `PluginResult(Status.OK)` carries as its text. */
  const StatusOkMessage := "OK"

  /** Android `PluginResult(PluginResult.Status.OK)`: OK with the text "OK". */
  const StatusOk := PluginResult(Ok, Text(StatusOkMessage), false)

  /** The Android registration acknowledgement: `StatusOk` with the channel kept open. */
  const StatusOkKeepOpen := PluginResult(Ok, Text(StatusOkMessage), true)

  /** The envelope `{eventType, event}` pushed over the kept-open channel. */
  function Envelope(eventType: string, event: map<string, Json>): Json {
    JObject(map["eventType" := JString(eventType), "event" := JObject(event)])
  }

  /** What the script side reads from an envelope: its tag and the record's fields. */
  function DecodeEnvelope(j: Json): Option<(string, map<string, Json>)> {
    if && j.JObject?
       && "eventType" in j.fields && j.fields["eventType"].JString?
       && "event" in j.fields && j.fields["event"].JObject?
    then Some((j.fields["eventType"].s, j.fields["event"].fields))
    else None
  }

  lemma EnvelopeRoundTrip(eventType: string, event: map<string, Json>)
    ensures DecodeEnvelope(Envelope(eventType, event)) == Some((eventType, event))
  {
  }

  /** An event pushed over the kept-open channel: kept open, OK, and carrying a JSON document. */
  predicate IsPush(r: Response) {
    && r.result.keepCallback
    && r.result.status == Ok
    && (r.result.message.JsonText? || r.result.message.JsonObject?)
  }

  /**
   * Every kept-open response in `sent` goes to a callback id that was
   * acknowledged as a registration (with the platform's acknowledgement `ack`)
   * at or before it, stated one response at a time.
   */
  ghost predicate PushesFollowRegistration(sent: seq<Response>, ack: PluginResult)
    decreases |sent|
  {
    |sent| == 0 ||
    (&& PushesFollowRegistration(sent[..|sent| - 1], ack)
     && (sent[|sent| - 1].result.keepCallback ==>
           Response(sent[|sent| - 1].callbackId, ack) in sent))
  }

  /** The property at any index: a kept-open response has its acknowledgement in the prefix ending at it. */
  lemma {:induction false} PushesFollowRegistrationAt(sent: seq<Response>, ack: PluginResult, i: nat)
    requires PushesFollowRegistration(sent, ack)
    requires i < |sent| && sent[i].result.keepCallback
    ensures Response(sent[i].callbackId, ack) in sent[..i + 1]
    decreases |sent|
  {
    if i == |sent| - 1 {
      assert sent[..i + 1] == sent;
    } else {
      var prefix := sent[..|sent| - 1];
      assert prefix[i] == sent[i];
      PushesFollowRegistrationAt(prefix, ack, i);
      assert prefix[..i + 1] == sent[..i + 1];
    }
  }

  /** Appending one response keeps the property when, if kept open, its callback id is acknowledged by then. */
  lemma PushesFollowRegistrationSnoc(sent: seq<Response>, ack: PluginResult, r: Response)
    requires PushesFollowRegistration(sent, ack)
    requires r.result.keepCallback ==> Response(r.callbackId, ack) in sent + [r]
    ensures PushesFollowRegistration(sent + [r], ack)
  {
    assert (sent + [r])[..|sent|] == sent;
  }
}

/**
 * Constants of the positioning SDK's interface: its enumerations with their raw
 * values, and the dictionary keys and error domain it exports (whose string
 * values are not visible, so they are distinct constructors here).
 */
module Sdk {
  import opened Wrappers
  import opened Json

  /** The SDK's error codes, raw values 1 to 11. */
  datatype IPIndoorPositioningError =
    | CannotSetPropertyWhileRunning
    | AlreadyRunning
    | AlreadyStopped
    | DeviceNotSupported
    | CameraAccessNotGranted
    | LocationNotGranted
    | LocationTimeOut
    | ConnectionFailed
    | ConfigurationFailed
    | BluetoothPoweredOff
    | CameraNotSupported
  {
    function RawValue(): (raw: int32)
      ensures 1 <= raw <= 11
    {
      match this
      case CannotSetPropertyWhileRunning => 1
      case AlreadyRunning => 2
      case AlreadyStopped => 3
      case DeviceNotSupported => 4
      case CameraAccessNotGranted => 5
      case LocationNotGranted => 6
      case LocationTimeOut => 7
      case ConnectionFailed => 8
      case ConfigurationFailed => 9
      case BluetoothPoweredOff => 10
      case CameraNotSupported => 11
    }
  }

  /** `IPIndoorPositioningError(rawValue:)`: defined exactly on the enumeration's raw values. */
  function ErrorFromRaw(raw: int): (e: Option<IPIndoorPositioningError>)
    ensures e.Some? <==> 1 <= raw <= 11
    ensures e.Some? ==> e.value.RawValue() == raw
  {
    if raw == 1 then Some(CannotSetPropertyWhileRunning)
    else if raw == 2 then Some(AlreadyRunning)
    else if raw == 3 then Some(AlreadyStopped)
    else if raw == 4 then Some(DeviceNotSupported)
    else if raw == 5 then Some(CameraAccessNotGranted)
    else if raw == 6 then Some(LocationNotGranted)
    else if raw == 7 then Some(LocationTimeOut)
    else if raw == 8 then Some(ConnectionFailed)
    else if raw == 9 then Some(ConfigurationFailed)
    else if raw == 10 then Some(BluetoothPoweredOff)
    else if raw == 11 then Some(CameraNotSupported)
    else None
  }

  lemma ErrorRawRoundTrip(e: IPIndoorPositioningError)
    ensures ErrorFromRaw(e.RawValue() as int) == Some(e)
  {
  }

  /** How the engine fetches its input data. */
  datatype Mode = Default | Simulation | MobileSetup {
    function RawValue(): int32 {
      match this
      case Default => 1
      case Simulation => 2
      case MobileSetup => 3
    }
  }

  datatype HeadingOrientation = Portrait | PortraitUpsideDown | LandscapeLeft | LandscapeRight

  /** The expected accuracy indicator, raw values 1 to 4. */
  datatype ExpectedAccuracyIndicator = Unknown | Low | Medium | High {
    function RawValue(): (raw: int32)
      ensures 1 <= raw <= 4
    {
      match this
      case Unknown => 1
      case Low => 2
      case Medium => 3
      case High => 4
    }
  }

  /** `IPIndoorPositioningExpectedAccuracyIndicator(rawValue:)`. */
  function IndicatorFromRaw(raw: int): (i: Option<ExpectedAccuracyIndicator>)
    ensures i.Some? <==> 1 <= raw <= 4
    ensures i.Some? ==> i.value.RawValue() == raw
  {
    if raw == 1 then Some(Unknown)
    else if raw == 2 then Some(Low)
    else if raw == 3 then Some(Medium)
    else if raw == 4 then Some(High)
    else None
  }

  /** The domain of an `NSError`: the SDK's own, or any other. */
  datatype ErrorDomain = IndoorPositioningErrorDomain | OtherDomain(name: string)

  /**
   * A key of an engine payload dictionary: one of the key constants the SDK
   * exports (`kIPLocationLatitude` … on iOS, `LOCATION_LATITUDE` … on Android),
   * or any other key.
   */
  datatype PayloadKey =
    | LocationLatitude
    | LocationLongitude
    | LocationHorizontalAccuracy
    | LocationAltitude
    | LocationVerticalAccuracy
    | LocationFloorLevel
    | LocationExpectedAccuracyLevel
    | HeadingDegrees
    | HeadingAccuracy
    | HeadingArbitraryNorthDegrees
    | OtherKey(name: string)
}
