# Signify indoor positioning: the Cordova bridge, modelled in Dafny

The project models the plugin that carries the Signify indoor-positioning SDK into a Cordova web view. It has three parts.

- **Native event records (iOS and Android).**
  - The records are `ErrorEvent`, `LocationEvent` and `HeadingEvent`, plus the Android `LogEvent`.
  - Each is built from an engine payload or an error.
  - Each encodes to a JSON key/value map.
  - The iOS initialisers default every missing or non-numeric field. The Android initialisers perform required casts that throw.
- **Native command handlers and the event notifier.**
  - The iOS plugin `CDVSignifyPositioningManager` and the Android `PositioningManager` handle the four commands `configure`, `start`, `stop` and `registerDelegateCallbackId`.
  - Each keeps one notifier slot, which a registration overwrites.
  - The engine listener pushes `{eventType, event}` envelopes over the registration's kept-open callback, and drops events while no notifier is set.
- **The script-side proxy.**
  - `PositioningManager.js` holds a delegate slot, the registration deferred and one deferred per command.
  - It routes results from the native layer by `eventType`.
  - It also normalises arguments and pre-processors for `_promisedExec`.
  - `Delegate.js` supplies four default handlers that decode `pluginResult.event`.

The plugins are modelled as classes (`IosPlugin.CDVSignifyPositioningManager`, `AndroidPlugin.PositioningManager`, `ScriptProxy.PositioningManager`). Their fields are what the source assigns:
- the engine or the engine slot;
- the notifier slot;
- the delegate and the deferreds;
- a log of every response sent through the transport.

Each command and callback method is proved to leave the object in the state a pure step function computes from the old state (`Snapshot() == ConfigureStep(old(Snapshot()), …)`). The primitive methods they are built from (`SendResponse`, `StartIndoorPositioning`, `CallEngine`, …) state only that new state.

The command and callback methods also keep an invariant `Valid`:
- On the two native plugins, every kept-open push goes to a callback id that was acknowledged as a registration.
- On the script proxy, the delegate stays a `Delegate`, and each recorded exec settles only its own deferred.

The properties of the bridge are lemmas about the step functions.

Files:
- `common.dfy`: Option/Result, JSON values, the transport's plugin results, and the SDK's enumerations and keys.
- `ios_events.dfy`: the iOS event records.
- `ios_plugin.dfy`: the iOS plugin.
- `android_casts.dfy`: Kotlin's `as`/`as?` casts on payload values.
- `android_location_event.dfy`, `android_heading_event.dfy`, `android_error_event.dfy`, `android_log_event.dfy`: the Android records.
- `android_plugin.dfy`: the Android plugin.
- `script_delegate.dfy`: script values and `Delegate.js`.
- `script_proxy.dfy`: `PositioningManager.js`.

Where the code departs from the evident intent or from the platform's other implementation, the model follows the code:
- The iOS notifier tags error events `"didReceiveLog"`; Android tags them `"didReceiveError"`.
- On Android, `stop` before any `configure` reaches `indoorPositioning.unregister()` on an uninitialised `lateinit` property. The exception's message comes back as an error response.
- When the Android engine rejects the license in `setConfiguration`, the freshly built engine stays in the slot. It is portrait, unconfigured and not running, and the command gets an error response.
- Android's `start` is guarded by `isInitialized`, so `start` before `configure` reports OK and does nothing.
- Android's `start` is also guarded by `!isRunning()`, so two starts start the engine once. iOS's `start` has no guard: every `start` calls the engine's `start()` again.
- iOS answers commands with `CDVPluginResult(status:)`, which carries no message. Android answers with `PluginResult(Status.OK)`, whose one-argument constructor carries the status text "OK", the string the script proxy declines to parse.
- Swift's `as? Bool` bridges an `NSNumber`, so the iOS test-mode flag is true for the boolean `true` and for the number 1.

At least six places in the Swift file do not compile as written; the model takes their evident intent:
- the guard in `stop` has no `return`, so it is modelled as one OK response whether or not the engine was running;
- the closure in `stop` reads `indoorPositioning.running` without `self.`, which an escaping closure requires; it is modelled as the plugin's engine;
- `ErrorCallbackEvent` is declared `Codable` but wraps the class `ErrorEvent`, which is not; the error envelope is modelled as encoded like the other two;
- the location `dictionaryRepresentation` names an undeclared `altitudeAccuracy`;
- `floor` is declared as `String:`;
- the record fields use `double`.

The notifier pushes the `JSONEncoder` encoding of the Codable envelopes. It never sends `dictionaryRepresentation`. The encoded keys are the records' stored properties, so the location record's vertical accuracy travels under `"verticalAccuracy"`.

## Model

| member | source | states |
|---|---|---|
| `Sdk.IPIndoorPositioningError.RawValue` | iOS-signifySDK-2.48.0/IndoorPositioning.framework/Headers/IPIndoorPositioning.h:15-38 | every SDK error code has a raw value between 1 and 11 |
| `Sdk.ErrorFromRaw` | iOS-signifySDK-2.48.0/IndoorPositioning.framework/Headers/IPIndoorPositioning.h:15-38 | the named error cases are exactly the raw values 1..11, and decoding inverts the raw value; any other code is no named case |
| `Sdk.ErrorRawRoundTrip` | iOS-signifySDK-2.48.0/IndoorPositioning.framework/Headers/IPIndoorPositioning.h:15-38 | decoding an error's raw value gives the error back |
| `Sdk.ExpectedAccuracyIndicator.RawValue` | iOS-signifySDK-2.48.0/IndoorPositioning.framework/Headers/IPIndoorPositioning.h:66-78 | every accuracy indicator has a raw value between 1 and 4 |
| `Sdk.IndicatorFromRaw` | iOS-signifySDK-2.48.0/IndoorPositioning.framework/Headers/IPIndoorPositioning.h:66-78 | the named indicator cases are exactly the raw values 1..4, and decoding inverts the raw value; any other value is no named case |
| `Cordova.EnvelopeRoundTrip` | src/ios/CDVSignifyPositioningManager.swift:132-169 | the `{eventType, event}` envelope reads back as its tag and its record's fields |
| `Cordova.PushesFollowRegistrationAt` | src/ios/CDVSignifyPositioningManager.swift:303-307 | under the invariant, every kept-open response has an acknowledgement of its callback id at or before it |
| `IosEvents.NewErrorEvent` | src/ios/CDVSignifyPositioningManager.swift:10-42 | codes 1..11 get their fixed message, any other code "Unknown error"; the timestamp is the clock reading |
| `IosEvents.ErrorMessagesDistinct` | src/ios/CDVSignifyPositioningManager.swift:14-39 | the eleven messages are pairwise distinct and none is "Unknown error" |
| `IosEvents.ErrorEvent.ToJson` | src/ios/CDVSignifyPositioningManager.swift:5-8 | the encoded record has exactly its stored properties errorMessage and timestamp |
| `IosEvents.ErrorEventRoundTrip` | src/ios/CDVSignifyPositioningManager.swift:5-8 | the record reads back whole from its encoding |
| `IosEvents.NumericEntries` | src/ios/CDVSignifyPositioningManager.swift:66 | exactly the payload's `NSNumber` entries are kept, with their values |
| `IosEvents.ExpectedAccuracyName` | src/ios/CDVSignifyPositioningManager.swift:76-89 | levels 1, 2, 3, 4 are named "Unknown", "Low", "Medium", "High" and any other level "Unknown"; so the name is "Unknown" exactly when the level is not 2, 3 or 4 |
| `IosEvents.ExpectedAccuracyNameInjective` | src/ios/CDVSignifyPositioningManager.swift:76-89 | a name other than "Unknown" determines the level it came from |
| `IosEvents.NewLocationEvent` | src/ios/CDVSignifyPositioningManager.swift:64-91 | each coordinate is the number's double value or 0; floor is its string value or "Unknown"; the level is its int32 value or 1; the name follows the level |
| `IosEvents.MissingAccuracyIsUnknown` | src/ios/CDVSignifyPositioningManager.swift:74-89 | without an expected-accuracy entry the level is 1 and the name "Unknown" |
| `IosEvents.LocationIgnoresNonNumbers` | src/ios/CDVSignifyPositioningManager.swift:66-74 | a non-numeric entry gives the same record as a missing one |
| `IosEvents.LocationIgnoresOtherKeys` | src/ios/CDVSignifyPositioningManager.swift:64-74 | entries under keys the SDK does not define do not change the record |
| `IosEvents.PartialLocationDefaults` | src/ios/CDVSignifyPositioningManager.swift:68-74 | a payload with only latitude, longitude and horizontal accuracy gives zeros, "Unknown" floor, level 1 and "Unknown" |
| `IosEvents.LocationEvent.ToJson` | src/ios/CDVSignifyPositioningManager.swift:53-62 | the encoded record has exactly the eight stored properties as keys |
| `IosEvents.LocationEventRoundTrip` | src/ios/CDVSignifyPositioningManager.swift:53-62 | every encoded value is the field of the same name, so the record reads back whole |
| `IosEvents.NewHeadingEvent` | src/ios/CDVSignifyPositioningManager.swift:113-121 | each heading field is the number's double value, or 0 when missing or non-numeric |
| `IosEvents.HeadingEvent.ToJson` | src/ios/CDVSignifyPositioningManager.swift:107-111 | the encoded record has exactly the three stored heading properties as keys |
| `IosEvents.HeadingEventRoundTrip` | src/ios/CDVSignifyPositioningManager.swift:107-111 | the heading record reads back whole from its encoding |
| `IosEvents.SignifyEventNotifier.DidReceiveError` | src/ios/CDVSignifyPositioningManager.swift:181-200 | an OK, kept-open push to the notifier's callback id, tagged "didReceiveLog", from which the record reads back |
| `IosEvents.SignifyEventNotifier.DidReceiveLocation` | src/ios/CDVSignifyPositioningManager.swift:202-221 | an OK, kept-open push to the notifier's callback id, tagged "didReceiveLocation", from which the record reads back |
| `IosEvents.SignifyEventNotifier.DidReceiveHeading` | src/ios/CDVSignifyPositioningManager.swift:223-242 | an OK, kept-open push to the notifier's callback id, tagged "didReceiveHeading", from which the record reads back |
| `IosPlugin.OneResponsePerCommand` | src/ios/CDVSignifyPositioningManager.swift:255-308 | every command appends exactly one OK response to its own callback id, kept open only for registration |
| `IosPlugin.ConfigureConfiguresAndStarts` | src/ios/CDVSignifyPositioningManager.swift:259-270 | configure sets the delegate, portrait, the license, simulation iff the flag is `true` or the number 1 (and the default mode otherwise), then starts the engine once |
| `IosPlugin.OtherTestModesAreDefault` | src/ios/CDVSignifyPositioningManager.swift:260-265 | a test-mode argument that does not bridge to `Bool` (not a boolean, and not a number equal to 0 or 1) selects the default mode |
| `IosPlugin.NumericOneIsTestMode` | src/ios/CDVSignifyPositioningManager.swift:260-265 | the number 1, integral or not, bridges to `true` and selects simulation |
| `IosPlugin.StopWhenStoppedTouchesNothing` | src/ios/CDVSignifyPositioningManager.swift:292-295 | stop on an engine that is not running only sends OK |
| `IosPlugin.StartTwiceStartsTwice` | src/ios/CDVSignifyPositioningManager.swift:281-287 | `start` is unguarded: two starts call the engine's `start()` twice and send two OKs |
| `IosPlugin.StopTwiceStopsOnce` | src/ios/CDVSignifyPositioningManager.swift:289-301 | two stops stop the engine at most once, leave it stopped and send two OKs |
| `IosPlugin.ForeignErrorsIgnored` | src/ios/CDVSignifyPositioningManager.swift:322-326 | an error from another domain changes nothing |
| `IosPlugin.UnboundCallbacksDropped` | src/ios/CDVSignifyPositioningManager.swift:314-326 | with no notifier, any run of engine callbacks changes nothing |
| `IosPlugin.PushesGoToNotifier` | src/ios/CDVSignifyPositioningManager.swift:314-326 | with a notifier, callbacks only append pushes to the notifier's callback id and change nothing else |
| `IosPlugin.ReRegistrationRedirects` | src/ios/CDVSignifyPositioningManager.swift:303-312 | after a second registration every later push goes to the second callback id only |
| `IosPlugin.CommandPreservesValid` | src/ios/CDVSignifyPositioningManager.swift:255-312 | commands keep every push after an acknowledged registration of its callback id |
| `IosPlugin.PushPreservesValid` | src/ios/CDVSignifyPositioningManager.swift:190-194 | a push to the bound notifier keeps the invariant |
| `IosPlugin.CallbackPreservesValid` | src/ios/CDVSignifyPositioningManager.swift:314-326 | engine callbacks keep the invariant |
| `IosPlugin.CDVSignifyPositioningManager.constructor` | src/ios/CDVSignifyPositioningManager.swift:246-253 | the plugin starts with the untouched shared engine, no notifier and nothing sent |
| `IosPlugin.CDVSignifyPositioningManager.StartIndoorPositioning` | src/ios/CDVSignifyPositioningManager.swift:267 | the engine's start: it runs afterwards and the call is recorded |
| `IosPlugin.CDVSignifyPositioningManager.StopIndoorPositioning` | src/ios/CDVSignifyPositioningManager.swift:297 | the engine's stop: it no longer runs and the call is recorded |
| `IosPlugin.CDVSignifyPositioningManager.SendResponse` | src/ios/CDVSignifyPositioningManager.swift:270 | one response is appended to what was sent |
| `IosPlugin.CDVSignifyPositioningManager.Configure` | src/ios/CDVSignifyPositioningManager.swift:255-279 | the new state is the configure step of the old one, and the invariant holds |
| `IosPlugin.CDVSignifyPositioningManager.Start` | src/ios/CDVSignifyPositioningManager.swift:281-287 | the new state is the start step of the old one, and the invariant holds |
| `IosPlugin.CDVSignifyPositioningManager.Stop` | src/ios/CDVSignifyPositioningManager.swift:289-301 | the new state is the stop step of the old one, and the invariant holds |
| `IosPlugin.CDVSignifyPositioningManager.CreateNotifierCallbacks` | src/ios/CDVSignifyPositioningManager.swift:310-312 | the notifier slot holds a notifier bound to this command's callback id |
| `IosPlugin.CDVSignifyPositioningManager.RegisterDelegateCallbackId` | src/ios/CDVSignifyPositioningManager.swift:303-308 | the notifier is replaced and a kept-open OK sent, and the invariant holds |
| `IosPlugin.CDVSignifyPositioningManager.DidUpdateHeading` | src/ios/CDVSignifyPositioningManager.swift:314-316 | the new state is the heading callback step, and the invariant holds |
| `IosPlugin.CDVSignifyPositioningManager.DidUpdateLocation` | src/ios/CDVSignifyPositioningManager.swift:318-320 | the new state is the location callback step, and the invariant holds |
| `IosPlugin.CDVSignifyPositioningManager.DidFailWithError` | src/ios/CDVSignifyPositioningManager.swift:322-326 | the new state is the error callback step (domain filter, then notifier), and the invariant holds |
| `KotlinCasts.FailureOf` | src/android/LocationEvent.kt:21-26 | a failed cast of a missing key is a null cast, of a present one a class cast |
| `KotlinCasts.AsDouble` | src/android/LocationEvent.kt:21-24 | `as Double` succeeds exactly on a boxed Double and yields its value |
| `KotlinCasts.AsFloat` | src/android/HeadingEvent.kt:15-17 | `as Float` succeeds exactly on a boxed Float and yields its value |
| `KotlinCasts.AsInt` | src/android/LocationEvent.kt:26 | `as Int` succeeds exactly on a boxed Int and yields its value |
| `KotlinCasts.AsIntOr` | src/android/LocationEvent.kt:27 | `as? Int ?: d` is the boxed Int when there is one, else d |
| `KotlinCasts.FirstFailure` | src/android/LocationEvent.kt:20-26 | no failure iff every cast succeeds; otherwise the failure of the first cast that fails |
| `AndroidLocationEvent.NewLocationEvent` | src/android/LocationEvent.kt:20-30 | construction succeeds iff the six required casts do; fields are the payload values; the level is the Int or 0; the name comes from the level |
| `AndroidLocationEvent.LocationFailsAtFirstFailedCast` | src/android/LocationEvent.kt:21-26 | construction throws exactly the exception of the first failing required cast, in source order |
| `AndroidLocationEvent.MissingRequiredKeyFails` | src/android/LocationEvent.kt:21-26 | any missing required key makes construction throw |
| `AndroidLocationEvent.MissingAccuracyIsZero` | src/android/LocationEvent.kt:27-29 | with all required values present and no accuracy entry, the level is 0 and the name that of 0 |
| `AndroidLocationEvent.ExpectedAccuracyFollowsLevel` | src/android/LocationEvent.kt:29 | the expected-accuracy name depends only on the level |
| `AndroidLocationEvent.LocationReadsOnlyItsKeys` | src/android/LocationEvent.kt:20-30 | payloads agreeing on the seven location keys give the same outcome |
| `AndroidLocationEvent.LocationEvent.ToJson` | src/android/LocationEvent.kt:33-47 | the JSON has exactly the eight keys latitude through expectedAccuracyLevel |
| `AndroidLocationEvent.LocationEventRoundTrip` | src/android/LocationEvent.kt:37-44 | every JSON value is the field of the same name, so the record reads back whole |
| `AndroidHeadingEvent.NewHeadingEvent` | src/android/HeadingEvent.kt:14-18 | construction succeeds iff all three heading values are Floats, and the fields are those values |
| `AndroidHeadingEvent.HeadingFailsAtFirstFailedCast` | src/android/HeadingEvent.kt:15-17 | construction throws exactly the exception of the first failing cast |
| `AndroidHeadingEvent.HeadingReadsOnlyItsKeys` | src/android/HeadingEvent.kt:14-18 | payloads agreeing on the three heading keys give the same outcome |
| `AndroidHeadingEvent.HeadingJsonCopiesPayload` | src/android/HeadingEvent.kt:14-30 | each JSON value is the payload's value under the corresponding key |
| `AndroidHeadingEvent.HeadingEvent.ToJson` | src/android/HeadingEvent.kt:21-30 | the JSON has exactly the three heading keys |
| `AndroidHeadingEvent.HeadingEventRoundTrip` | src/android/HeadingEvent.kt:25-27 | the heading record reads back whole from its JSON |
| `AndroidErrorEvent.ErrorEvent.ToJson` | src/android/ErrorEvent.kt:17-22 | the JSON has exactly the keys errorMessage and timestamp |
| `AndroidErrorEvent.ErrorEventRoundTrip` | src/android/ErrorEvent.kt:8-21 | the JSON values are the stored message and timestamp |
| `AndroidLogEvent.LogEvent.ToJson` | src/android/LogEvent.kt:17-22 | the JSON has exactly the keys message and timestamp |
| `AndroidLogEvent.LogEventRoundTrip` | src/android/LogEvent.kt:8-21 | the JSON values are the stored message and timestamp |
| `AndroidPlugin.SignifyEventNotifier.DidReceiveError` | src/android/PositioningManager.kt:150-169 | an OK, kept-open push to the captured context, tagged "didReceiveError", from which the record reads back |
| `AndroidPlugin.SignifyEventNotifier.DidReceiveLocation` | src/android/PositioningManager.kt:171-191 | an OK, kept-open push to the captured context, tagged "didReceiveLocation", from which the record reads back |
| `AndroidPlugin.SignifyEventNotifier.DidReceiveHeading` | src/android/PositioningManager.kt:193-213 | an OK, kept-open push to the captured context, tagged "didReceiveHeading", from which the record reads back |
| `AndroidPlugin.Construct` | src/android/PositioningManager.kt:57 | a fresh engine replaces whatever the slot held |
| `AndroidPlugin.Call` | src/android/PositioningManager.kt:58-65 | an engine call needs a set slot and leaves it set |
| `AndroidPlugin.Task` | src/android/PositioningManager.kt:51-144 | a task's `run` sends nothing itself; only `_handleCallSafely` does |
| `AndroidPlugin.GetString` | src/android/PositioningManager.kt:37 | succeeds exactly on an in-range string argument and returns it |
| `AndroidPlugin.GetBoolean` | src/android/PositioningManager.kt:37 | succeeds exactly on an in-range boolean or "true"/"false", and returns that value |
| `AndroidPlugin.ExecuteActionTable` | src/android/PositioningManager.kt:34-49 | false exactly for the unknown actions, which change nothing; only configure can throw, changing nothing; a handled action sends exactly one response |
| `AndroidPlugin.ExecuteConfigure` | src/android/PositioningManager.kt:36-37 | configure reads the license and the flag from the first two arguments |
| `AndroidPlugin.SafeDeliveryIsOneResponse` | src/android/PositioningManager.kt:222-276 | one response with a context and none without: the result unchanged, or a non-kept error carrying the exception's message |
| `AndroidPlugin.OneResponsePerCommand` | src/android/PositioningManager.kt:51-144 | every command sends one response to its context; error iff stop without engine or a rejected license; otherwise OK with the status text "OK", kept open iff registration |
| `AndroidPlugin.ConfigureBuildsFreshEngine` | src/android/PositioningManager.kt:57-67 | configure builds a fresh engine: portrait, license, SIMULATION iff test mode, registered, started, in that order; then OK |
| `AndroidPlugin.ConfigureRejected` | src/android/PositioningManager.kt:57-59 | a rejected license leaves a fresh portrait engine, unconfigured and not running, and sends the engine's message as an error |
| `AndroidPlugin.StartOnlyWhenIdle` | src/android/PositioningManager.kt:79-83 | start registers and starts only a set, idle engine, and always sends OK |
| `AndroidPlugin.StartTwiceStartsOnce` | src/android/PositioningManager.kt:79-83 | two starts in a row start the engine at most once |
| `AndroidPlugin.StopStopsOnlyWhenRunning` | src/android/PositioningManager.kt:95-99 | stop on a set engine stops it only if running, always unregisters, then OK |
| `AndroidPlugin.StopBeforeConfigureFails` | src/android/PositioningManager.kt:95-99 | stop before configure calls nothing and sends the uninitialised-property error |
| `AndroidPlugin.UnboundCallbacksDropped` | src/android/PositioningManager.kt:106-124 | with no notifier, every listener callback throws nothing and changes nothing |
| `AndroidPlugin.LocationCallbackUnfolds` | src/android/PositioningManager.kt:114-118 | with a notifier, a location callback pushes the built record or escapes with its cast failure |
| `AndroidPlugin.MalformedPayloadSendsNothing` | src/android/PositioningManager.kt:114-118 | a payload the record cannot be built from sends nothing and its cast failure escapes |
| `AndroidPlugin.PushesGoToNotifier` | src/android/PositioningManager.kt:106-124 | with a notifier, callbacks only append pushes to the notifier's context and change nothing else |
| `AndroidPlugin.ReRegistrationRedirects` | src/android/PositioningManager.kt:128-148 | two registrations send two kept-open OKs and every later push goes to the second context only |
| `AndroidPlugin.CommandPreservesValid` | src/android/PositioningManager.kt:51-148 | commands keep every push after an acknowledged registration of its context |
| `AndroidPlugin.PushPreservesValid` | src/android/PositioningManager.kt:161-163 | a push to the captured context keeps the invariant |
| `AndroidPlugin.CallbackPreservesValid` | src/android/PositioningManager.kt:106-124 | listener callbacks keep the invariant, whether or not they throw |
| `AndroidPlugin.PositioningManager.constructor` | src/android/PositioningManager.kt:19-31 | both `lateinit` slots unset, no engine calls, nothing sent |
| `AndroidPlugin.PositioningManager.NewIndoorPositioning` | src/android/PositioningManager.kt:57 | the slot holds a fresh engine |
| `AndroidPlugin.PositioningManager.CallEngine` | src/android/PositioningManager.kt:58-65 | one call on the engine in the slot, recorded |
| `AndroidPlugin.PositioningManager.SendResultOfCommand` | src/android/PositioningManager.kt:264-276 | the result is sent unchanged to a present context, nothing without one |
| `AndroidPlugin.PositioningManager.HandleExceptionOfCommand` | src/android/PositioningManager.kt:249-262 | an error with the exception's message goes to a present context, nothing without one |
| `AndroidPlugin.PositioningManager.HandleCallSafely` | src/android/PositioningManager.kt:218-247 | a task's outcome is delivered as its result or its exception |
| `AndroidPlugin.PositioningManager.RunConfigure` | src/android/PositioningManager.kt:55-68 | the state and outcome are those of the configure task |
| `AndroidPlugin.PositioningManager.RunStart` | src/android/PositioningManager.kt:78-84 | the state and outcome are those of the start task |
| `AndroidPlugin.PositioningManager.RunStop` | src/android/PositioningManager.kt:94-100 | the state and outcome are those of the stop task |
| `AndroidPlugin.PositioningManager.CreateNotifierCallbacks` | src/android/PositioningManager.kt:146-216 | the notifier slot holds a notifier capturing this context |
| `AndroidPlugin.PositioningManager.Configure` | src/android/PositioningManager.kt:51-72 | the new state is the configure command step, and the invariant holds |
| `AndroidPlugin.PositioningManager.Start` | src/android/PositioningManager.kt:74-88 | the new state is the start command step, and the invariant holds |
| `AndroidPlugin.PositioningManager.Stop` | src/android/PositioningManager.kt:90-104 | the new state is the stop command step, and the invariant holds |
| `AndroidPlugin.PositioningManager.RegisterDelegateCallbackId` | src/android/PositioningManager.kt:128-144 | the new state is the registration step, and the invariant holds |
| `AndroidPlugin.PositioningManager.Execute` | src/android/PositioningManager.kt:33-49 | the return value and new state are those of the action table, and the invariant holds |
| `AndroidPlugin.PositioningManager.DidUpdateHeading` | src/android/PositioningManager.kt:108-112 | throws iff the heading step fails, and then exactly the step's cast failure; the new state is the step's, and the invariant holds |
| `AndroidPlugin.PositioningManager.DidUpdateLocation` | src/android/PositioningManager.kt:114-118 | throws exactly the step's cast failure; the new state is the step's, and the invariant holds |
| `AndroidPlugin.PositioningManager.DidFailWithError` | src/android/PositioningManager.kt:120-124 | the new state is the error callback step, and the invariant holds |
| `ScriptValues.Member` | www/PositioningManager.js:100-102 | a defined member is an own property of an object |
| `ScriptDelegate.DelegateConstructor` | www/Delegate.js:14-30 | the constructor's own members are exactly the four default handlers, each a function, and the constructor is not a `Delegate` instance |
| `ScriptDelegate.HandlersOnConstructorOnly` | www/Delegate.js:14-30 | four handlers, pairwise distinct functions, none of which a `new Delegate()` instance has |
| `ScriptDelegate.NewDelegate` | www/Delegate.js:14 | a fresh `Delegate` instance has no members at all |
| `ScriptDelegate.DecodedEvent` | www/Delegate.js:17 | fails iff parsing the event fails; otherwise only `event` changes, to the parsed value |
| `ScriptDelegate.DecodeEvent` | www/Delegate.js:16-30 | the new properties are the decoded ones, or unchanged with the parse error thrown |
| `ScriptDelegate.DidReceiveLog` | www/Delegate.js:16-18 | behaves as the shared decoding of `event` |
| `ScriptDelegate.DidReceiveError` | www/Delegate.js:20-22 | behaves as the shared decoding of `event` |
| `ScriptDelegate.DidReceiveLocation` | www/Delegate.js:24-26 | behaves as the shared decoding of `event` |
| `ScriptDelegate.DidReceiveHeading` | www/Delegate.js:28-30 | behaves as the shared decoding of `event` |
| `ScriptProxy.FunctionsOf` | www/PositioningManager.js:153-155 | the filter keeps exactly the functions among its input |
| `ScriptProxy.FunctionsOfAppend` | www/PositioningManager.js:153-155 | the filter preserves order: it distributes over concatenation |
| `ScriptProxy.FunctionsOfKeepsFunctions` | www/PositioningManager.js:153-155 | a list of functions passes unchanged |
| `ScriptProxy.PipelineLeftToRight` | www/PositioningManager.js:126-131 | the first pre-processor sees the raw result and the rest see its output |
| `ScriptProxy.ConstructionRegistersOnce` | www/PositioningManager.js:17-59 | construction issues one registration, with the same handler on both sides, and a fresh delegate |
| `ScriptProxy.CommandsIssueTheirAction` | www/PositioningManager.js:170-180 | configure, start and stop issue their action with `[license, testMode]`, `[]`, `[]` and no registration |
| `ScriptProxy.PromisedExecNormalises` | www/PositioningManager.js:149-167 | one new pending deferred; non-array arguments become []; pre-processors are the functions given, in order; failure rejects |
| `ScriptProxy.SetDelegateRefusesOthers` | www/PositioningManager.js:27-32 | a non-`Delegate` leaves the delegate, logs an error and returns undefined |
| `ScriptProxy.SetDelegateReplaces` | www/PositioningManager.js:34-36 | a `Delegate` replaces the delegate and is returned |
| `ScriptProxy.OnlyStringsParsed` | www/PositioningManager.js:75-77 | non-strings and 'OK' are routed as they are; other strings are routed only after parsing, whose failure escapes |
| `ScriptProxy.OkResolvesPendingRegistration` | www/PositioningManager.js:81-82 | 'OK' resolves a pending registration |
| `ScriptProxy.EventsRouteToDelegate` | www/PositioningManager.js:79-80 | a string `eventType` always goes to the delegate and leaves every deferred as it was |
| `ScriptProxy.ResolvedRegistrationOnlyLogs` | www/PositioningManager.js:83-85 | after resolution, a result without `eventType` only logs an error |
| `ScriptProxy.RegistrationResolvesAtMostOnce` | www/PositioningManager.js:73-87 | whatever arrives, the registration deferred stays or goes from pending to resolved once, and no other deferred changes |
| `ScriptProxy.MapCallsOnlyFunctions` | www/PositioningManager.js:98-107 | the member is invoked exactly when it is a function; otherwise an error is logged; nothing else changes |
| `ScriptProxy.FreshDelegateHandlesNothing` | www/PositioningManager.js:102-105 | with a fresh `Delegate`, every event takes the "unable to handle" branch |
| `ScriptProxy.CommandSettlesOnce` | www/PositioningManager.js:157-166 | success resolves a pending deferred with the processed result, failure rejects with the raw value, a settled one stays |
| `ScriptProxy.PromisedExecPreservesValid` | www/PositioningManager.js:149-167 | a promised exec keeps the invariant: the exec it records settles only the deferred it creates, and older execs are untouched |
| `ScriptProxy.StepsPreserveValid` | www/PositioningManager.js:27-180 | setDelegate and the commands keep the delegate a `Delegate` and each exec tied to its own deferred |
| `ScriptProxy.CompletePreservesValid` | www/PositioningManager.js:51-167 | invoking any exec callback keeps the invariant |
| `ScriptProxy.PositioningManager.constructor` | www/PositioningManager.js:17-20 | the proxy starts as the initial state: a fresh delegate and one registration |
| `ScriptProxy.PositioningManager.GetDelegate` | www/PositioningManager.js:23-25 | returns the current delegate |
| `ScriptProxy.PositioningManager.SetDelegate` | www/PositioningManager.js:27-37 | the new state and return value are the setDelegate step's |
| `ScriptProxy.PositioningManager.RegisterDelegateCallbackId` | www/PositioningManager.js:51-59 | the new state is the registration step, returning the new deferred |
| `ScriptProxy.PositioningManager.MapDelegateCallback` | www/PositioningManager.js:98-107 | the new state is the routing step |
| `ScriptProxy.PositioningManager.OnDelegateCallback` | www/PositioningManager.js:73-87 | throws iff parsing fails, changing nothing; otherwise the new state is the callback step's |
| `ScriptProxy.PositioningManager.ApplyPreProcessors` | www/PositioningManager.js:127-129 | the loop yields the pre-processors applied in order |
| `ScriptProxy.PositioningManager.PreProcessorExecutor` | www/PositioningManager.js:126-131 | resolves the deferred with the processed result |
| `ScriptProxy.PositioningManager.Reject` | www/PositioningManager.js:164 | rejects a pending deferred with the reason |
| `ScriptProxy.PositioningManager.PromisedExec` | www/PositioningManager.js:149-167 | the new state and deferred are the `_promisedExec` step's |
| `ScriptProxy.PositioningManager.Configure` | www/PositioningManager.js:170-172 | the configure step, keeping the invariant |
| `ScriptProxy.PositioningManager.Start` | www/PositioningManager.js:174-176 | the start step, keeping the invariant |
| `ScriptProxy.PositioningManager.Stop` | www/PositioningManager.js:178-180 | the stop step, keeping the invariant |
| `ScriptProxy.PositioningManager.Complete` | www/PositioningManager.js:160-164 | the transport's invocation of an exec callback is the completion step, keeping the invariant |

## Left out

- Concurrency is not modelled: Android's thread pool and `AsyncTask`, and iOS's `DispatchQueue.main`. Each command, each push and each callback is one atomic step.
- Serialisation is modelled only by the keys and values written: `JSONEncoder` (including its format for `Date`), `JSONObject.put` and `JSON.parse` are not.
  - The native layers' messages are structured JSON values. iOS wraps them as "JSON text", Android as an object.
  - `JSON.parse` and calling a pre-processor are parameters of the script-side model.
  - Encoding failures (NaN in `JSONObject.put`, encoder errors) and their log lines are left out, so every push is sent.
- Numbers are opaque reals. No floating-point or Float/Double semantics are modelled; `NSNumber` is the record of the three views the plugin reads.
- Clock reads (`Date()`) are parameters (`now`). Logging (`os_log`, `Log.*`) is left out. `console.error` is a log of messages.
- The engines are opaque state holders. Start and stop are assumed to set `running`, and no engine call other than setConfiguration is assumed to throw; a rejected license is an input of `configure`.
- Android's `ExpectedAccuracyLevel.fromInteger(_).toString()` is a function parameter (`accuracyName`), since its table is not visible.
- The SDK's key constants and error domain are distinct constructors; their string values are not visible.
- AndroidPlugin.Construct: a second `configure` overwrites the `lateinit` slot without stopping or unregistering the previous engine. In the source that engine keeps running with the listener registered; the model keeps only the engine in the slot, so it does not capture the orphaned engine or its events.
- IosEvents.NewErrorEvent: the NSError code is an `int32`, so the trap of `Int32(error.code)` on a code outside 32 bits is not modelled.
- IosPlugin.CDVSignifyPositioningManager.Configure: requires the two arguments that the code force-unwraps. With a missing or non-string license the app traps, and that is not modelled.
- AndroidPlugin.GetString: org.json's coercion of non-string values to strings is not modelled; only string arguments succeed.
- AndroidPlugin.GetBoolean: accepts booleans and the exact strings "true" and "false"; org.json's case-insensitive match of the strings is not modelled.
- What Cordova does with `execute`'s false return or a thrown `JSONException` is not modelled; the model returns them.
- The `registerDelegateCallbackId` argument (`optJSONObject(0)`) is unused by the source and not modelled.
- An exception thrown by a delegate handler or a pre-processor is not modelled; invocations are recorded.
- Q's asynchronous settlement and the promises' consumers are not modelled.
- Members inherited from `Object.prototype` are not modelled; a delegate has own properties only.
- `LogEvent` is modelled as a record, but nothing in the plugins builds one.
- `ISignifyEventNotifier.kt` is folded into the notifier datatype.
