/**
 * The iOS event records (`ErrorEvent`, `LocationEvent`, `HeadingEvent`), their
 * `JSONEncoder` encodings, the tagged envelopes and `SignifyEventNotifier`, which
 * pushes an envelope over the kept-open channel.
 *
 * Every field of a location or heading record is defaulted when the engine's
 * payload lacks it or holds a non-numeric value there: decoding never fails.
 */
module IosEvents {
  import opened Wrappers
  import opened Json
  import opened Cordova
  import opened Sdk

  // ---------------------------------------------------------------- errors

  /** The parts of an `NSError` the plugin reads. */
  datatype NSError = NSError(domain: ErrorDomain, code: int32)

  const UnknownErrorMessage := "Unknown error"

  /** The message of each SDK error code, indexed by the raw code minus one. */
  const ErrorMessages: seq<string> := [
    "Cannot set property while running",
    "Already running",
    "Already stopped",
    "Device not supported",
    "Camera access not granted",
    "Location access not granted",
    "Location timeout",
    "Connection failed",
    "Configuration failed",
    "Bluetooth not turned on",
    "Camera not supported"
  ]

  /** The `switch` over the optional SDK error in `ErrorEvent.init`. */
  function ErrorMessage(error: Option<IPIndoorPositioningError>): string {
    match error
    case Some(CannotSetPropertyWhileRunning) => "Cannot set property while running"
    case Some(AlreadyRunning) => "Already running"
    case Some(AlreadyStopped) => "Already stopped"
    case Some(DeviceNotSupported) => "Device not supported"
    case Some(CameraAccessNotGranted) => "Camera access not granted"
    case Some(LocationNotGranted) => "Location access not granted"
    case Some(LocationTimeOut) => "Location timeout"
    case Some(ConnectionFailed) => "Connection failed"
    case Some(ConfigurationFailed) => "Configuration failed"
    case Some(BluetoothPoweredOff) => "Bluetooth not turned on"
    case Some(CameraNotSupported) => "Camera not supported"
    case None => UnknownErrorMessage
  }

  datatype ErrorEvent = ErrorEvent(errorMessage: string, timestamp: Timestamp) {
    /**
     * The fields `JSONEncoder` writes for the record inside its envelope: its
     * stored properties, which are also the keys `dictionaryRepresentation`
     * names (that dictionary is never sent). The `Date` stays abstract.
     */
    function ToJson(): (fields: map<string, Json>)
      ensures fields.Keys == {"errorMessage", "timestamp"}
    {
      map["errorMessage" := JString(errorMessage), "timestamp" := JDate(timestamp)]
    }
  }

  /** `ErrorEvent.init(error:)`; `now` is the clock read `Date()`. */
  function NewErrorEvent(error: NSError, now: Timestamp): (e: ErrorEvent)
    ensures e.timestamp == now
    ensures 1 <= error.code <= 11 ==> e.errorMessage == ErrorMessages[error.code - 1]
    ensures !(1 <= error.code <= 11) ==> e.errorMessage == UnknownErrorMessage
  {
    ErrorEvent(ErrorMessage(ErrorFromRaw(error.code as int)), now)
  }

  /** The eleven messages are pairwise distinct and none is the fallback. */
  lemma ErrorMessagesDistinct(a: IPIndoorPositioningError, b: IPIndoorPositioningError)
    ensures ErrorMessage(Some(a)) != UnknownErrorMessage
    ensures a != b ==> ErrorMessage(Some(a)) != ErrorMessage(Some(b))
  {
    match a
    case CannotSetPropertyWhileRunning =>
    case AlreadyRunning =>
    case AlreadyStopped =>
    case DeviceNotSupported =>
    case CameraAccessNotGranted =>
    case LocationNotGranted =>
    case LocationTimeOut =>
    case ConnectionFailed =>
    case ConfigurationFailed =>
    case BluetoothPoweredOff =>
    case CameraNotSupported =>
  }

  function ErrorEventFromJson(fields: map<string, Json>): Option<ErrorEvent> {
    if "errorMessage" in fields && fields["errorMessage"].JString?
       && "timestamp" in fields && fields["timestamp"].JDate?
    then Some(ErrorEvent(fields["errorMessage"].s, fields["timestamp"].t))
    else None
  }

  lemma ErrorEventRoundTrip(e: ErrorEvent)
    ensures ErrorEventFromJson(e.ToJson()) == Some(e)
  {
  }

  // ---------------------------------------------------------------- payloads

  /** The three views of an `NSNumber` the plugin reads, as the engine supplied them. */
  datatype NSNumber = NSNumber(doubleValue: real, int32Value: int32, stringValue: string)

  /** A payload value: an `NSNumber`, or anything that does not cast to one. */
  datatype PayloadValue = Number(number: NSNumber) | NotNumber

  type Payload = map<PayloadKey, PayloadValue>

  /** `mapValues { $0 as? NSNumber }.compactMapValues { $0 }`: the numeric entries only. */
  function NumericEntries(payload: Payload): (numbers: map<PayloadKey, NSNumber>)
    ensures forall k :: k in numbers <==> k in payload && payload[k].Number?
    ensures forall k :: k in numbers ==> numbers[k] == payload[k].number
  {
    map k | k in payload && payload[k].Number? :: payload[k].number
  }

  /** The number stored under `key`, if the payload holds one there. */
  function NumberAt(payload: Payload, key: PayloadKey): Option<NSNumber> {
    if key in payload && payload[key].Number? then Some(payload[key].number) else None
  }

  function DoubleOrZero(n: Option<NSNumber>): real {
    if n.Some? then n.value.doubleValue else 0.0
  }

  // ---------------------------------------------------------------- locations

  const AccuracyNames: set<string> := {"Unknown", "Low", "Medium", "High"}

  /** The name of each accuracy indicator, indexed by its raw value minus one. */
  const AccuracyNamesByLevel: seq<string> := ["Unknown", "Low", "Medium", "High"]

  /** The `switch` over `IPIndoorPositioningExpectedAccuracyIndicator(rawValue:)`. */
  function ExpectedAccuracyName(level: int32): (name: string)
    ensures name in AccuracyNames
    ensures 1 <= level <= 4 ==> name == AccuracyNamesByLevel[level - 1]
    ensures !(1 <= level <= 4) ==> name == "Unknown"
    ensures name == "Unknown" <==> !(2 <= level <= 4)
  {
    match IndicatorFromRaw(level as int)
    case Some(Unknown) => "Unknown"
    case Some(Low) => "Low"
    case Some(Medium) => "Medium"
    case Some(High) => "High"
    case None => "Unknown"
  }

  /** A name other than "Unknown" determines the accuracy level it came from. */
  lemma ExpectedAccuracyNameInjective(a: int32, b: int32)
    requires 2 <= a <= 4
    requires ExpectedAccuracyName(a) == ExpectedAccuracyName(b)
    ensures a == b
  {
    var n := ExpectedAccuracyName(a);
    assert n == "Low" || n == "Medium" || n == "High";
    assert n[0] == 'L' || n[0] == 'M' || n[0] == 'H';
  }

  datatype LocationEvent = LocationEvent(
    latitude: real,
    longitude: real,
    horizontalAccuracy: real,
    altitude: real,
    verticalAccuracy: real,
    floor: string,
    accuracyLevel: int32,
    expectedAccuracyLevel: string)
  {
    /**
     * The fields `JSONEncoder` writes for the record inside its envelope: its
     * eight stored properties. `dictionaryRepresentation` is never sent; it
     * lists the same keys except that it names an undeclared `altitudeAccuracy`.
     */
    function ToJson(): (fields: map<string, Json>)
      ensures fields.Keys == {"latitude", "longitude", "horizontalAccuracy", "altitude",
                              "verticalAccuracy", "floor", "accuracyLevel", "expectedAccuracyLevel"}
    {
      map[
        "latitude" := JNumber(latitude),
        "longitude" := JNumber(longitude),
        "horizontalAccuracy" := JNumber(horizontalAccuracy),
        "altitude" := JNumber(altitude),
        "verticalAccuracy" := JNumber(verticalAccuracy),
        "floor" := JString(floor),
        "accuracyLevel" := JInt(accuracyLevel as int),
        "expectedAccuracyLevel" := JString(expectedAccuracyLevel)
      ]
    }
  }

  /** `LocationEvent.init(location:)`. */
  function NewLocationEvent(location: Payload): (e: LocationEvent)
    ensures e.latitude == DoubleOrZero(NumberAt(location, LocationLatitude))
    ensures e.longitude == DoubleOrZero(NumberAt(location, LocationLongitude))
    ensures e.horizontalAccuracy == DoubleOrZero(NumberAt(location, LocationHorizontalAccuracy))
    ensures e.altitude == DoubleOrZero(NumberAt(location, LocationAltitude))
    ensures e.verticalAccuracy == DoubleOrZero(NumberAt(location, LocationVerticalAccuracy))
    ensures e.floor == (match NumberAt(location, LocationFloorLevel)
                        case Some(n) => n.stringValue
                        case None => "Unknown")
    ensures e.accuracyLevel == (match NumberAt(location, LocationExpectedAccuracyLevel)
                                case Some(n) => n.int32Value
                                case None => 1)
    ensures e.expectedAccuracyLevel == ExpectedAccuracyName(e.accuracyLevel)
  {
    var numbers := NumericEntries(location);
    var level: int32 := if LocationExpectedAccuracyLevel in numbers
      then numbers[LocationExpectedAccuracyLevel].int32Value else 1;
    LocationEvent(
      latitude := if LocationLatitude in numbers then numbers[LocationLatitude].doubleValue else 0.0,
      longitude := if LocationLongitude in numbers then numbers[LocationLongitude].doubleValue else 0.0,
      horizontalAccuracy := if LocationHorizontalAccuracy in numbers
        then numbers[LocationHorizontalAccuracy].doubleValue else 0.0,
      altitude := if LocationAltitude in numbers then numbers[LocationAltitude].doubleValue else 0.0,
      verticalAccuracy := if LocationVerticalAccuracy in numbers
        then numbers[LocationVerticalAccuracy].doubleValue else 0.0,
      floor := if LocationFloorLevel in numbers then numbers[LocationFloorLevel].stringValue else "Unknown",
      accuracyLevel := level,
      expectedAccuracyLevel := ExpectedAccuracyName(level))
  }

  /** Without an expected-accuracy entry the level is 1 and its name "Unknown". */
  lemma MissingAccuracyIsUnknown(location: Payload)
    requires LocationExpectedAccuracyLevel !in location
    ensures NewLocationEvent(location).accuracyLevel == 1
    ensures NewLocationEvent(location).expectedAccuracyLevel == "Unknown"
  {
  }

  /** A non-numeric entry is the same as no entry at all. */
  lemma LocationIgnoresNonNumbers(location: Payload, key: PayloadKey)
    ensures NewLocationEvent(location[key := NotNumber]) == NewLocationEvent(location - {key})
  {
    var a, b := location[key := NotNumber], location - {key};
    forall k: PayloadKey ensures NumberAt(a, k) == NumberAt(b, k) {
    }
  }

  /** Entries under keys the SDK does not define do not change the record. */
  lemma LocationIgnoresOtherKeys(location: Payload, name: string, v: PayloadValue)
    ensures NewLocationEvent(location[OtherKey(name) := v]) == NewLocationEvent(location)
  {
    var a := location[OtherKey(name) := v];
    forall k: PayloadKey | !k.OtherKey? ensures NumberAt(a, k) == NumberAt(location, k) {
    }
  }

  /** A fix with only latitude, longitude and horizontal accuracy. */
  lemma PartialLocationDefaults(lat: NSNumber, lon: NSNumber, acc: NSNumber)
    ensures NewLocationEvent(map[LocationLatitude := Number(lat), LocationLongitude := Number(lon),
                                 LocationHorizontalAccuracy := Number(acc)])
         == LocationEvent(lat.doubleValue, lon.doubleValue, acc.doubleValue, 0.0, 0.0, "Unknown", 1, "Unknown")
  {
  }

  function LocationEventFromJson(fields: map<string, Json>): Option<LocationEvent> {
    if && "latitude" in fields && fields["latitude"].JNumber?
       && "longitude" in fields && fields["longitude"].JNumber?
       && "horizontalAccuracy" in fields && fields["horizontalAccuracy"].JNumber?
       && "altitude" in fields && fields["altitude"].JNumber?
       && "verticalAccuracy" in fields && fields["verticalAccuracy"].JNumber?
       && "floor" in fields && fields["floor"].JString?
       && "accuracyLevel" in fields && fields["accuracyLevel"].JInt?
       && -0x8000_0000 <= fields["accuracyLevel"].i < 0x8000_0000
       && "expectedAccuracyLevel" in fields && fields["expectedAccuracyLevel"].JString?
    then Some(LocationEvent(
      fields["latitude"].x, fields["longitude"].x, fields["horizontalAccuracy"].x,
      fields["altitude"].x, fields["verticalAccuracy"].x, fields["floor"].s,
      fields["accuracyLevel"].i as int32, fields["expectedAccuracyLevel"].s))
    else None
  }

  lemma LocationEventRoundTrip(e: LocationEvent)
    ensures LocationEventFromJson(e.ToJson()) == Some(e)
  {
  }

  // ---------------------------------------------------------------- headings

  datatype HeadingEvent = HeadingEvent(
    headingDegrees: real,
    headingAccuracy: real,
    headingArbitraryNorthDegrees: real)
  {
    /**
     * The fields `JSONEncoder` writes for the record inside its envelope: its
     * three stored properties, the keys `dictionaryRepresentation` also names.
     */
    function ToJson(): (fields: map<string, Json>)
      ensures fields.Keys == {"headingDegrees", "headingAccuracy", "headingArbitraryNorthDegrees"}
    {
      map[
        "headingDegrees" := JNumber(headingDegrees),
        "headingAccuracy" := JNumber(headingAccuracy),
        "headingArbitraryNorthDegrees" := JNumber(headingArbitraryNorthDegrees)
      ]
    }
  }

  /** `HeadingEvent.init(heading:)`. */
  function NewHeadingEvent(heading: Payload): (e: HeadingEvent)
    ensures e.headingDegrees == DoubleOrZero(NumberAt(heading, HeadingDegrees))
    ensures e.headingAccuracy == DoubleOrZero(NumberAt(heading, HeadingAccuracy))
    ensures e.headingArbitraryNorthDegrees == DoubleOrZero(NumberAt(heading, HeadingArbitraryNorthDegrees))
  {
    var numbers := NumericEntries(heading);
    HeadingEvent(
      if HeadingDegrees in numbers then numbers[HeadingDegrees].doubleValue else 0.0,
      if HeadingAccuracy in numbers then numbers[HeadingAccuracy].doubleValue else 0.0,
      if HeadingArbitraryNorthDegrees in numbers then numbers[HeadingArbitraryNorthDegrees].doubleValue else 0.0)
  }

  function HeadingEventFromJson(fields: map<string, Json>): Option<HeadingEvent> {
    if && "headingDegrees" in fields && fields["headingDegrees"].JNumber?
       && "headingAccuracy" in fields && fields["headingAccuracy"].JNumber?
       && "headingArbitraryNorthDegrees" in fields && fields["headingArbitraryNorthDegrees"].JNumber?
    then Some(HeadingEvent(fields["headingDegrees"].x, fields["headingAccuracy"].x,
                           fields["headingArbitraryNorthDegrees"].x))
    else None
  }

  lemma HeadingEventRoundTrip(e: HeadingEvent)
    ensures HeadingEventFromJson(e.ToJson()) == Some(e)
  {
  }

  // ---------------------------------------------------------------- envelopes

  /** The tags the iOS notifier puts on its envelopes; errors travel as logs. */
  const ErrorEventType := "didReceiveLog"
  const LocationEventType := "didReceiveLocation"
  const HeadingEventType := "didReceiveHeading"

  /**
   * What the script side reads back from a pushed message. `ErrorCallbackEvent`,
   * `LocationCallbackEvent` and `HeadingCallbackEvent` are encoded by
   * `JSONEncoder` as the envelope `{eventType, event}`, sent as a JSON string.
   */
  function DecodeCallbackEvent(message: Message): Option<(string, map<string, Json>)> {
    if message.JsonText? then DecodeEnvelope(message.json) else None
  }

  /** A push (kept open, OK) that decodes to the given tag and record fields. */
  ghost predicate PushOf(r: Response, callbackId: CallbackId, eventType: string, event: map<string, Json>) {
    && IsPush(r)
    && r.callbackId == callbackId
    && DecodeCallbackEvent(r.result.message) == Some((eventType, event))
  }

  /** The notifier bound to the callback id of the registration command. */
  datatype SignifyEventNotifier = SignifyEventNotifier(callbackId: CallbackId) {

    function Push(eventType: string, event: map<string, Json>): Response {
      Response(callbackId, PluginResult(Ok, JsonText(Envelope(eventType, event)), true))
    }

    /** `didReceiveError(event:)`: tagged "didReceiveLog". */
    function DidReceiveError(event: ErrorEvent): (r: Response)
      ensures PushOf(r, callbackId, ErrorEventType, event.ToJson())
      ensures ErrorEventFromJson(DecodeCallbackEvent(r.result.message).value.1) == Some(event)
    {
      ErrorEventRoundTrip(event);
      Push(ErrorEventType, event.ToJson())
    }

    /** `didReceiveLocation(event:)`. */
    function DidReceiveLocation(event: LocationEvent): (r: Response)
      ensures PushOf(r, callbackId, LocationEventType, event.ToJson())
      ensures LocationEventFromJson(DecodeCallbackEvent(r.result.message).value.1) == Some(event)
    {
      LocationEventRoundTrip(event);
      Push(LocationEventType, event.ToJson())
    }

    /** `didReceiveHeading(event:)`. */
    function DidReceiveHeading(event: HeadingEvent): (r: Response)
      ensures PushOf(r, callbackId, HeadingEventType, event.ToJson())
      ensures HeadingEventFromJson(DecodeCallbackEvent(r.result.message).value.1) == Some(event)
    {
      HeadingEventRoundTrip(event);
      Push(HeadingEventType, event.ToJson())
    }
  }
}
