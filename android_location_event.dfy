/** The Android location record: required casts, the accuracy default and `toJson`. */
module AndroidLocationEvent {
  import opened Wrappers
  import opened Json
  import opened Sdk
  import opened KotlinCasts

  datatype LocationEvent = LocationEvent(
    latitude: real,
    longitude: real,
    horizontalAccuracy: real,
    altitude: real,
    verticalAccuracy: real,
    floor: int32,
    accuracyLevel: int32,
    expectedAccuracyLevel: string)
  {
    /** `toJson`: one entry per field, under the field's own name. */
    function ToJson(): (json: map<string, Json>)
      ensures json.Keys == {"latitude", "longitude", "horizontalAccuracy", "altitude",
                            "verticalAccuracy", "floor", "accuracyLevel", "expectedAccuracyLevel"}
    {
      map[
        "latitude" := JNumber(latitude),
        "longitude" := JNumber(longitude),
        "horizontalAccuracy" := JNumber(horizontalAccuracy),
        "altitude" := JNumber(altitude),
        "verticalAccuracy" := JNumber(verticalAccuracy),
        "floor" := JInt(floor),
        "accuracyLevel" := JInt(accuracyLevel),
        "expectedAccuracyLevel" := JString(expectedAccuracyLevel)
      ]
    }
  }

  /** The initialiser's required casts, in the order it performs them. */
  const LocationRequired: seq<(PayloadKey, Kind)> := [
    (LocationLatitude, DoubleKind),
    (LocationLongitude, DoubleKind),
    (LocationHorizontalAccuracy, FloatKind),
    (LocationAltitude, DoubleKind),
    (LocationVerticalAccuracy, FloatKind),
    (LocationFloorLevel, IntKind)
  ]

  /** The payload keys the initialiser reads. */
  const LocationKeys: set<PayloadKey> := {
    LocationLatitude, LocationLongitude, LocationHorizontalAccuracy, LocationAltitude,
    LocationVerticalAccuracy, LocationFloorLevel, LocationExpectedAccuracyLevel
  }

  /**
   * `LocationEvent(location)`. `accuracyName` stands for
   * `ExpectedAccuracyLevel.fromInteger(_).toString()`, whose table is the SDK's.
   * The six required casts throw on a missing or wrongly typed value; the
   * expected accuracy level falls back to 0.
   */
  function NewLocationEvent(location: Payload, accuracyName: int32 -> string): (r: Result<LocationEvent, CastFailure>)
    ensures r.Success? <==> && Casts(location, LocationLatitude, DoubleKind)
                            && Casts(location, LocationLongitude, DoubleKind)
                            && Casts(location, LocationHorizontalAccuracy, FloatKind)
                            && Casts(location, LocationAltitude, DoubleKind)
                            && Casts(location, LocationVerticalAccuracy, FloatKind)
                            && Casts(location, LocationFloorLevel, IntKind)
    ensures r.Success? ==> && location[LocationLatitude] == BoxedDouble(r.value.latitude)
                           && location[LocationLongitude] == BoxedDouble(r.value.longitude)
                           && location[LocationHorizontalAccuracy] == BoxedFloat(r.value.horizontalAccuracy)
                           && location[LocationAltitude] == BoxedDouble(r.value.altitude)
                           && location[LocationVerticalAccuracy] == BoxedFloat(r.value.verticalAccuracy)
                           && location[LocationFloorLevel] == BoxedInt(r.value.floor)
    ensures r.Success? && Casts(location, LocationExpectedAccuracyLevel, IntKind) ==>
              location[LocationExpectedAccuracyLevel] == BoxedInt(r.value.accuracyLevel)
    ensures r.Success? && !Casts(location, LocationExpectedAccuracyLevel, IntKind) ==>
              r.value.accuracyLevel == 0
    ensures r.Success? ==> r.value.expectedAccuracyLevel == accuracyName(r.value.accuracyLevel)
  {
    var latitude :- AsDouble(location, LocationLatitude);
    var longitude :- AsDouble(location, LocationLongitude);
    var horizontalAccuracy :- AsFloat(location, LocationHorizontalAccuracy);
    var altitude :- AsDouble(location, LocationAltitude);
    var verticalAccuracy :- AsFloat(location, LocationVerticalAccuracy);
    var floor :- AsInt(location, LocationFloorLevel);
    var accuracyLevel := AsIntOr(location, LocationExpectedAccuracyLevel, 0);
    Success(LocationEvent(latitude, longitude, horizontalAccuracy, altitude, verticalAccuracy,
                          floor, accuracyLevel, accuracyName(accuracyLevel)))
  }

  /**
   * Construction throws exactly when one of the required casts fails, and the
   * exception is that of the first failing cast in the initialiser's order.
   */
  lemma {:induction false} LocationFailsAtFirstFailedCast(location: Payload, accuracyName: int32 -> string)
    ensures NewLocationEvent(location, accuracyName).Failure? <==> FirstFailure(location, LocationRequired).Some?
    ensures NewLocationEvent(location, accuracyName).Failure? ==>
              Some(NewLocationEvent(location, accuracyName).error) == FirstFailure(location, LocationRequired)
  {
    var t5: seq<(PayloadKey, Kind)> := [(LocationFloorLevel, IntKind)];
    var t4 := [(LocationVerticalAccuracy, FloatKind)] + t5;
    var t3 := [(LocationAltitude, DoubleKind)] + t4;
    var t2 := [(LocationHorizontalAccuracy, FloatKind)] + t3;
    var t1 := [(LocationLongitude, DoubleKind)] + t2;
    var t0 := [(LocationLatitude, DoubleKind)] + t1;
    assert t0 == LocationRequired;
    assert FirstFailure(location, []) == None;
    FirstFailureCons(location, (LocationFloorLevel, IntKind), []);
    assert [(LocationFloorLevel, IntKind)] + [] == t5;
    FirstFailureCons(location, (LocationVerticalAccuracy, FloatKind), t5);
    FirstFailureCons(location, (LocationAltitude, DoubleKind), t4);
    FirstFailureCons(location, (LocationHorizontalAccuracy, FloatKind), t3);
    FirstFailureCons(location, (LocationLongitude, DoubleKind), t2);
    FirstFailureCons(location, (LocationLatitude, DoubleKind), t1);
  }

  /** A missing required key, whichever it is, makes construction throw. */
  lemma MissingRequiredKeyFails(location: Payload, accuracyName: int32 -> string, i: nat)
    requires i < |LocationRequired| && LocationRequired[i].0 !in location
    ensures NewLocationEvent(location, accuracyName).Failure?
  {
  }

  /**
   * When only the optional accuracy key is missing, construction succeeds with
   * level 0 and the name the SDK gives to 0.
   */
  lemma MissingAccuracyIsZero(location: Payload, accuracyName: int32 -> string)
    requires FirstFailure(location, LocationRequired).None?
    requires LocationExpectedAccuracyLevel !in location
    ensures NewLocationEvent(location, accuracyName).Success?
    ensures NewLocationEvent(location, accuracyName).value.accuracyLevel == 0
    ensures NewLocationEvent(location, accuracyName).value.expectedAccuracyLevel == accuracyName(0)
  {
    LocationFailsAtFirstFailedCast(location, accuracyName);
  }

  /** `expectedAccuracyLevel` is a function of `accuracyLevel` alone. */
  lemma ExpectedAccuracyFollowsLevel(p: Payload, q: Payload, accuracyName: int32 -> string)
    requires NewLocationEvent(p, accuracyName).Success? && NewLocationEvent(q, accuracyName).Success?
    requires NewLocationEvent(p, accuracyName).value.accuracyLevel == NewLocationEvent(q, accuracyName).value.accuracyLevel
    ensures NewLocationEvent(p, accuracyName).value.expectedAccuracyLevel ==
            NewLocationEvent(q, accuracyName).value.expectedAccuracyLevel
  {
  }

  /** Entries other than the seven location keys do not affect construction. */
  lemma LocationReadsOnlyItsKeys(p: Payload, q: Payload, accuracyName: int32 -> string)
    requires AgreeOn(p, q, LocationKeys)
    ensures NewLocationEvent(p, accuracyName) == NewLocationEvent(q, accuracyName)
  {
    assert forall k :: k in LocationKeys ==> (k in p <==> k in q) && (k in p ==> p[k] == q[k]);
  }

  /** Reads a record back from its `toJson` fields. */
  function LocationEventFromJson(json: map<string, Json>): Option<LocationEvent> {
    if && "latitude" in json && json["latitude"].JNumber?
       && "longitude" in json && json["longitude"].JNumber?
       && "horizontalAccuracy" in json && json["horizontalAccuracy"].JNumber?
       && "altitude" in json && json["altitude"].JNumber?
       && "verticalAccuracy" in json && json["verticalAccuracy"].JNumber?
       && "floor" in json && json["floor"].JInt? && -0x8000_0000 <= json["floor"].i < 0x8000_0000
       && "accuracyLevel" in json && json["accuracyLevel"].JInt?
       && -0x8000_0000 <= json["accuracyLevel"].i < 0x8000_0000
       && "expectedAccuracyLevel" in json && json["expectedAccuracyLevel"].JString?
    then Some(LocationEvent(
      json["latitude"].x, json["longitude"].x, json["horizontalAccuracy"].x,
      json["altitude"].x, json["verticalAccuracy"].x, json["floor"].i,
      json["accuracyLevel"].i, json["expectedAccuracyLevel"].s))
    else None
  }

  /** Every `toJson` value is the field of the same name, so the record reads back whole. */
  lemma LocationEventRoundTrip(e: LocationEvent)
    ensures LocationEventFromJson(e.ToJson()) == Some(e)
  {
  }
}
