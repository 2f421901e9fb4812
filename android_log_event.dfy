/** The Android log record: a message and the instant of construction. */
module AndroidLogEvent {
  import opened Wrappers
  import opened Json

  /**
   * `LogEvent(message)`: the message as given; `timestamp` is the clock
   * reading taken once by the initialiser, passed in here.
   */
  datatype LogEvent = LogEvent(message: string, timestamp: Timestamp) {
    /** `toJson`: the message and the timestamp, under their own names. */
    function ToJson(): (json: map<string, Json>)
      ensures json.Keys == {"message", "timestamp"}
    {
      map["message" := JString(message), "timestamp" := JDate(timestamp)]
    }
  }

  function LogEventFromJson(json: map<string, Json>): Option<LogEvent> {
    if && "message" in json && json["message"].JString?
       && "timestamp" in json && json["timestamp"].JDate?
    then Some(LogEvent(json["message"].s, json["timestamp"].t))
    else None
  }

  /** The `toJson` values are the stored message and timestamp. */
  lemma LogEventRoundTrip(e: LogEvent)
    ensures LogEventFromJson(e.ToJson()) == Some(e)
  {
  }
}
