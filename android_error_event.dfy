/** The Android error record: a message and the instant of construction. */
module AndroidErrorEvent {
  import opened Wrappers
  import opened Json

  /**
   * `ErrorEvent(errorMessage)`: the message as given; `timestamp` is the clock
   * reading taken once by the initialiser, passed in here.
   */
  datatype ErrorEvent = ErrorEvent(errorMessage: string, timestamp: Timestamp) {
    /** `toJson`: the message and the timestamp, under their own names. */
    function ToJson(): (json: map<string, Json>)
      ensures json.Keys == {"errorMessage", "timestamp"}
    {
      map["errorMessage" := JString(errorMessage), "timestamp" := JDate(timestamp)]
    }
  }

  function ErrorEventFromJson(json: map<string, Json>): Option<ErrorEvent> {
    if && "errorMessage" in json && json["errorMessage"].JString?
       && "timestamp" in json && json["timestamp"].JDate?
    then Some(ErrorEvent(json["errorMessage"].s, json["timestamp"].t))
    else None
  }

  /** The `toJson` values are the stored message and timestamp. */
  lemma ErrorEventRoundTrip(e: ErrorEvent)
    ensures ErrorEventFromJson(e.ToJson()) == Some(e)
  {
  }
}
