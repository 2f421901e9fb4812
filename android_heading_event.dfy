/** The Android heading record: three required `Float` casts and `toJson`. */
module AndroidHeadingEvent {
  import opened Wrappers
  import opened Json
  import opened Sdk
  import opened KotlinCasts

  datatype HeadingEvent = HeadingEvent(headingDegrees: real, headingAccuracy: real, headingArbitraryNorthDegrees: real) {
    /** `toJson`: one entry per field, under the field's own name. */
    function ToJson(): (json: map<string, Json>)
      ensures json.Keys == {"headingDegrees", "headingAccuracy", "headingArbitraryNorthDegrees"}
    {
      map[
        "headingDegrees" := JNumber(headingDegrees),
        "headingAccuracy" := JNumber(headingAccuracy),
        "headingArbitraryNorthDegrees" := JNumber(headingArbitraryNorthDegrees)
      ]
    }
  }

  /** The initialiser's required casts, in the order it performs them. */
  const HeadingRequired: seq<(PayloadKey, Kind)> := [
    (HeadingDegrees, FloatKind),
    (HeadingAccuracy, FloatKind),
    (HeadingArbitraryNorthDegrees, FloatKind)
  ]

  const HeadingKeys: set<PayloadKey> := {HeadingDegrees, HeadingAccuracy, HeadingArbitraryNorthDegrees}

  /** `HeadingEvent(heading)`: each of the three casts throws on a missing or non-`Float` value. */
  function NewHeadingEvent(heading: Payload): (r: Result<HeadingEvent, CastFailure>)
    ensures r.Success? <==> && Casts(heading, HeadingDegrees, FloatKind)
                            && Casts(heading, HeadingAccuracy, FloatKind)
                            && Casts(heading, HeadingArbitraryNorthDegrees, FloatKind)
    ensures r.Success? ==> && heading[HeadingDegrees] == BoxedFloat(r.value.headingDegrees)
                           && heading[HeadingAccuracy] == BoxedFloat(r.value.headingAccuracy)
                           && heading[HeadingArbitraryNorthDegrees] == BoxedFloat(r.value.headingArbitraryNorthDegrees)
  {
    var headingDegrees :- AsFloat(heading, HeadingDegrees);
    var headingAccuracy :- AsFloat(heading, HeadingAccuracy);
    var headingArbitraryNorthDegrees :- AsFloat(heading, HeadingArbitraryNorthDegrees);
    Success(HeadingEvent(headingDegrees, headingAccuracy, headingArbitraryNorthDegrees))
  }

  /** Construction throws the exception of the first of the three casts that fails. */
  lemma {:induction false} HeadingFailsAtFirstFailedCast(heading: Payload)
    ensures NewHeadingEvent(heading).Failure? <==> FirstFailure(heading, HeadingRequired).Some?
    ensures NewHeadingEvent(heading).Failure? ==>
              Some(NewHeadingEvent(heading).error) == FirstFailure(heading, HeadingRequired)
  {
    var t2: seq<(PayloadKey, Kind)> := [(HeadingArbitraryNorthDegrees, FloatKind)];
    var t1 := [(HeadingAccuracy, FloatKind)] + t2;
    var t0 := [(HeadingDegrees, FloatKind)] + t1;
    assert t0 == HeadingRequired;
    assert FirstFailure(heading, []) == None;
    FirstFailureCons(heading, (HeadingArbitraryNorthDegrees, FloatKind), []);
    assert [(HeadingArbitraryNorthDegrees, FloatKind)] + [] == t2;
    FirstFailureCons(heading, (HeadingAccuracy, FloatKind), t2);
    FirstFailureCons(heading, (HeadingDegrees, FloatKind), t1);
  }

  /** Entries other than the three heading keys do not affect construction. */
  lemma HeadingReadsOnlyItsKeys(p: Payload, q: Payload)
    requires AgreeOn(p, q, HeadingKeys)
    ensures NewHeadingEvent(p) == NewHeadingEvent(q)
  {
    assert forall k :: k in HeadingKeys ==> (k in p <==> k in q) && (k in p ==> p[k] == q[k]);
  }

  /** Each `toJson` value is the payload's value under the corresponding key. */
  lemma HeadingJsonCopiesPayload(heading: Payload)
    requires NewHeadingEvent(heading).Success?
    ensures && NewHeadingEvent(heading).value.ToJson()["headingDegrees"] == JNumber(heading[HeadingDegrees].f)
            && NewHeadingEvent(heading).value.ToJson()["headingAccuracy"] == JNumber(heading[HeadingAccuracy].f)
            && NewHeadingEvent(heading).value.ToJson()["headingArbitraryNorthDegrees"] ==
               JNumber(heading[HeadingArbitraryNorthDegrees].f)
  {
  }

  /** Reads a record back from its `toJson` fields. */
  function HeadingEventFromJson(json: map<string, Json>): Option<HeadingEvent> {
    if && "headingDegrees" in json && json["headingDegrees"].JNumber?
       && "headingAccuracy" in json && json["headingAccuracy"].JNumber?
       && "headingArbitraryNorthDegrees" in json && json["headingArbitraryNorthDegrees"].JNumber?
    then Some(HeadingEvent(json["headingDegrees"].x, json["headingAccuracy"].x, json["headingArbitraryNorthDegrees"].x))
    else None
  }

  lemma HeadingEventRoundTrip(e: HeadingEvent)
    ensures HeadingEventFromJson(e.ToJson()) == Some(e)
  {
  }
}
