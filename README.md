# Highlight first-load loader, modelled in Dafny

This project models the browser loader `H` of the Highlight session-recording
SDK (`firstload/src/index.tsx`). A host page calls `H.init(orgID, options)`.
The loader injects the recorder bundle as a script element. When the script
loads, it constructs the recorder (`window.Highlight`) and, unless
`manualStart` is set, initializes it. Every other public call (`track`,
`identify`, `error`, `getSessionURL`, `onHighlightReady`, `start`) goes through
a 200 ms polling gate that waits for the recorder to exist or to be ready.

Layout:

- `wrappers.dfy`, `text.dfy`: Option/Result, decimal rendering and string search.
- `values.dfy`: JavaScript values, object spread, and the `track` payload `{ ...obj, event }`.
- `config.dfy`: `HighlightOptions`, the script source (`scriptUrl` or the default, then `?` and the millisecond field), and the recorder's constructor options.
- `recorder.dfy`: the recorder as the loader sees it (its options, `ready`, `sessionID`, the methods that throw, a log of calls), and the session URL.
- `dispatch.dfy`: the loader as a state machine. It has one function per event: a façade call, a script load, one interval firing, a tick of all intervals, or the engine becoming ready.
- `loader.dfy`: the class `Loader` holding the module state as fields. Each method updates the fields in place and is proved to perform exactly its `Dispatch` transition.
- `properties_config.dfy`, `properties_dispatch.dfy`: the properties.
- `delivery.dfy`: deferred recorder calls reach nothing before readiness, and are then received at most once.
- `fastpath.dfy`: the double delivery of the fast path and the corrected gate.

Behaviour of the code that the model keeps as written:

- The load listener builds the recorder from the `orgID` and `options` captured by its own `init` call. `start` reads `H.options` at call time.
- `onHighlightReady` has no `return` after its synchronous call. With a ready recorder the action runs at once and again on the next tick (see Findings).
- `track`, `identify` and `error` each have their own `try`/`catch`, but `onHighlightReady` already swallows every exception. So a recorder method that throws on the synchronous path is logged under the tag `onHighlightReady`, not under the façade method's name. In that case the `setInterval` after the call is skipped.
- Exceptions thrown inside interval callbacks and inside the load listener are not caught by the loader. They escape to the page (`uncaught`).
- Each `init` call injects its own script. Each script load builds its own recorder, and the last one built becomes the handle.

## Model

| member | source | states |
|---|---|---|
| Values.Truthy | firstload/src/index.tsx:131 | JavaScript truthiness of an organization identifier: neither `0` nor `""` (the `orgID &&` test) |
| Config.TruthyText | firstload/src/index.tsx:58 | a string option is truthy when set and not empty (the `options?.scriptUrl ?` test) |
| Config.TruthyFlag | firstload/src/index.tsx:75 | a boolean option is truthy only when set to `true` (`enableStrictPrivacy` with its `false` default, and `manualStart`) |
| Config.ManualStart | firstload/src/index.tsx:77 | `options?.manualStart` is truthy; read from the captured options at load and from `H.options` in `start` (line 103) |
| Config.ScriptBase | firstload/src/index.tsx:58-60 | never empty; either the default bundle URL or the `scriptUrl` option itself |
| Config.ScriptSource | firstload/src/index.tsx:61-64 | the `src` attribute: the base, `?`, the millisecond field in decimal; its read-back is `ConfigProperties.ScriptSourceRoundTrip` |
| Config.ClassOptionsOf | firstload/src/index.tsx:68-76 | the constructor argument object; its field-by-field properties are `ConfigProperties.ConstructorOptions` |
| Values.Spread | firstload/src/index.tsx:95 | the own keys `{ ...obj }` copies: an object's fields, an array's or string's index keys, nothing for other values |
| Values.TrackPayload | firstload/src/index.tsx:95 | `{ ...obj, event: event }`; its keys and values are `ConfigProperties.TrackPayloadKeys` |
| Dispatch.Init | firstload/src/index.tsx:54-84 | the `init` transition; its properties are `DispatchProperties.InitCaptures` |
| Dispatch.ScriptLoaded | firstload/src/index.tsx:67-80 | the load-listener transition; its properties are `DispatchProperties.LoadBuildsRecorder` and `LoadConstructorThrows` |
| Dispatch.OnReady | firstload/src/index.tsx:140-154 | the gate as written; its properties are `DispatchProperties.DeferredWaitsForReady`, `FastPathRunsTwice` and `FastPathFaultCaught` |
| Values.IdentText | firstload/src/index.tsx:132 | `${orgID}` in the URL template: the decimal text of a numeric identifier, a string identifier as is |
| Dispatch.Deliver | firstload/src/index.tsx:87 | one recorder call: it is logged, and the fault is returned when that method throws |
| Dispatch.Settle | firstload/src/index.tsx:133-135 | `resolve`/`reject`: only the first settlement of a promise takes effect; its properties are `DispatchProperties.SettledStays` |
| Dispatch.Perform | firstload/src/index.tsx:85-137 | the deferred closures: `pushCustomError` (87), `addProperties` (95), `initialize()` (107), `identify` (121), or the session-URL settlement (128-136); a callback is recorded as run |
| Dispatch.EngineReady | firstload/src/index.tsx:142 | the recording engine sets `ready` and `sessionID`, which lines 129-130, 142 and 146 only read |
| Dispatch.Error | firstload/src/index.tsx:85-91 | `error` defers `pushCustomError(message)` through the gate; its properties are `Delivery.SlowPathDeliveredAtMostOnce` |
| Dispatch.Track | firstload/src/index.tsx:92-100 | `track` defers `addProperties({ ...obj, event })` through the gate; its properties are `DispatchProperties.TrackWhenReady` and `Delivery.SlowPathDeliveredAtMostOnce` |
| Dispatch.IdentifyCall | firstload/src/index.tsx:119-125 | `identify` defers `identify(identifier, obj)` through the gate; its properties are `Delivery.SlowPathDeliveredAtMostOnce` |
| Dispatch.OnHighlightReady | firstload/src/index.tsx:140-154 | the gate applied to a host callback; its properties are `DispatchProperties.SlowPathAtMostOnce` and `FastPathRunsTwice` |
| Dispatch.FireInto | firstload/src/index.tsx:145-150 | one interval callback, run when its condition holds, otherwise kept |
| Dispatch.Tick | firstload/src/index.tsx:145-150 | every live interval fires once, oldest first; its properties are `DispatchProperties.TickWithoutHandle`, `TickBeforeReady` and `TickWhenReady` |
| Dispatch.FireInterval | firstload/src/index.tsx:104-109 | one interval fires on its own; its properties are `Delivery.NotReadyStepOnlyInitialize` and `DispatchProperties.TotalStep` |
| Dispatch.Start | firstload/src/index.tsx:101-118 | the `start` transition; its properties are `DispatchProperties.StartWithoutManualStart` and `StartsThenTick` |
| Dispatch.GetSessionURL | firstload/src/index.tsx:126-139 | a new pending promise settled through the gate; its properties are `DispatchProperties.SessionURLWhenReady` and `SessionURLSettlesOnReadyTick` |
| Loader.Loader.Deliver | firstload/src/index.tsx:87 | one recorder call: the call is logged, and the fault is returned when that method throws |
| Loader.Loader.constructor | firstload/src/index.tsx:50-53 | module load: `H.options` undefined, no script, no recorder, no interval |
| Loader.Loader.Init | firstload/src/index.tsx:54-84 | `init` performs exactly the `Dispatch.Init` transition on the fields |
| Loader.Loader.ScriptLoaded | firstload/src/index.tsx:67-80 | the load listener performs exactly the `Dispatch.ScriptLoaded` transition |
| Loader.Loader.EngineReady | firstload/src/index.tsx:142 | the engine sets `ready` and `sessionID`, which the loader only reads |
| Loader.Loader.Perform | firstload/src/index.tsx:85-137 | each deferred body makes its one recorder call (or settles the promise / runs the callback) |
| Loader.Loader.OnReady | firstload/src/index.tsx:140-154 | the gate as written: run now when ready, log a throw and stop, else (or also) schedule an interval |
| Loader.Loader.FireInto | firstload/src/index.tsx:145-150 | one interval callback: when its condition holds it clears itself and runs, otherwise it stays |
| Loader.Loader.Tick | firstload/src/index.tsx:145-150 | loop over all live intervals, oldest first; equals `Dispatch.Tick` |
| Loader.Loader.FireInterval | firstload/src/index.tsx:104-109 | a single interval (a `start` or `onHighlightReady` poller) fires on its own |
| Loader.Loader.Error | firstload/src/index.tsx:85-91 | `error` defers `pushCustomError(message)` through the gate |
| Loader.Loader.Track | firstload/src/index.tsx:92-100 | `track` defers `addProperties({ ...obj, event })` through the gate |
| Loader.Loader.Identify | firstload/src/index.tsx:119-125 | `identify` defers `identify(identifier, obj)` through the gate |
| Loader.Loader.GetSessionURL | firstload/src/index.tsx:126-139 | a new pending promise, settled through the gate |
| Loader.Loader.Start | firstload/src/index.tsx:101-118 | with `manualStart`: one existence poller; without: one console warning |
| Loader.Loader.OnHighlightReady | firstload/src/index.tsx:140-154 | the exposed gate with a host callback |
| Config.SplitScriptSource | firstload/src/index.tsx:61-64 | reading a script source back at its last `?` gives a base and number that rebuild it |
| ConfigProperties.ScriptSourceRoundTrip | firstload/src/index.tsx:58-64 | the source is the truthy `scriptUrl` or `https://static.highlight.run/index.js`, then `?`, then the millisecond field; both parts read back |
| ConfigProperties.ConstructorOptions | firstload/src/index.tsx:68-76 | the recorder gets `orgID` and each option field unchanged; `enableStrictPrivacy` is false unless set to true |
| ConfigProperties.TrackPayloadKeys | firstload/src/index.tsx:95 | the payload has the spread keys plus "event", "event" maps to the event name, every other key keeps its value |
| ConfigProperties.TrackPayloadOfObject | firstload/src/index.tsx:95 | for an object only the "event" key is added or overwritten; the rest equals the object |
| ConfigProperties.TrackSignupExample | firstload/src/index.tsx:95 | `track("signup", {plan: "pro"})` sends `{plan: "pro", event: "signup"}` |
| ConfigProperties.SpreadString | firstload/src/index.tsx:95 | spreading a string gives one index key per character (one per UTF-16 code unit in the source; see Left out) |
| Recorders.SessionURL | firstload/src/index.tsx:129-136 | resolves if and only if both identifiers are truthy, always under `app.highlight.run/`; otherwise rejects with "org ID or session ID is empty" |
| ConfigProperties.SessionURLRoundTrip | firstload/src/index.tsx:132 | for an organization text without `/`, the URL reads back to the organization text and the session identifier |
| ConfigProperties.NumberSessionURLRoundTrip | firstload/src/index.tsx:132 | for a numeric organization the URL always reads back to its decimal text and the session identifier |
| ConfigProperties.SessionURLExample | firstload/src/index.tsx:46 | organization 42, session "abc" give `app.highlight.run/42/sessions/abc` |
| DispatchProperties.InitCaptures | firstload/src/index.tsx:54-83 | `init` overwrites `H.options`, sets the source, and adds a load listener or logs an "init" warning; the recorder and intervals are untouched |
| DispatchProperties.LoadBuildsRecorder | firstload/src/index.tsx:67-80 | a load builds exactly one recorder from its captured options; `initialize(orgID)` is called if and only if `manualStart` is not truthy |
| DispatchProperties.LoadConstructorThrows | firstload/src/index.tsx:67-76 | a throwing constructor leaves the handle unchanged and escapes |
| DispatchProperties.InitTwiceBuildsTwice | firstload/src/index.tsx:54-80 | two `init` calls and their loads build two recorders; the second becomes the handle and `H.options` |
| DispatchProperties.DeferredWaitsForReady | firstload/src/index.tsx:142-150 | before readiness a deferred call reaches nothing and schedules exactly one readiness poller |
| DispatchProperties.TickWithoutHandle | firstload/src/index.tsx:105 | with no recorder a tick changes nothing |
| DispatchProperties.TickBeforeReady | firstload/src/index.tsx:146 | a recorder that is not ready gets only the argument-less `initialize()` of `start` pollers; no callback runs and no promise settles |
| DispatchProperties.TickWhenReady | firstload/src/index.tsx:145-150 | a ready recorder: every interval runs its action in order and all are cleared |
| DispatchProperties.WellFormedStep | firstload/src/index.tsx:101-109 | only `start` schedules pollers that wait for mere existence, and every event keeps it so |
| DispatchProperties.WellFormedRun | firstload/src/index.tsx:101-109 | the same over any sequence of events |
| DispatchProperties.InitialWellFormed | firstload/src/index.tsx:50-53 | the module starts well formed, with no recorder and no options |
| DispatchProperties.TotalStep | firstload/src/index.tsx:145-150 | runs of a callback, done plus scheduled, are conserved by every other event |
| DispatchProperties.TotalRun | firstload/src/index.tsx:145-150 | the same over any sequence of events |
| DispatchProperties.SlowPathAtMostOnce | firstload/src/index.tsx:145-150 | a callback registered before readiness does not run at once and never runs more than once |
| DispatchProperties.ReadyTickRunsWaiting | firstload/src/index.tsx:146-148 | a ready tick runs every waiting callback and leaves none waiting |
| DispatchProperties.UnreadyTickRunsNothing | firstload/src/index.tsx:146 | a tick before readiness runs no callback and keeps them waiting |
| DispatchProperties.SlowPathScenario | firstload/src/index.tsx:145-150 | not run on an unready tick, run once on the first ready tick, not again after |
| DispatchProperties.FastPathRunsTwice | firstload/src/index.tsx:142-150 | already ready: the callback runs synchronously and again on the next tick, two runs in total |
| DispatchProperties.StartWithoutManualStart | firstload/src/index.tsx:110-114 | `n` calls without `manualStart`: `n` warnings, nothing else changes |
| DispatchProperties.StartsThenTick | firstload/src/index.tsx:103-109 | `n` calls with `manualStart`: once a recorder exists, ready or not, `n` calls of `initialize()` and no poller left |
| DispatchProperties.SessionURLWhenReady | firstload/src/index.tsx:126-137 | with a ready recorder the promise settles at once to the session URL or the rejection |
| DispatchProperties.SessionURLSettlesOnReadyTick | firstload/src/index.tsx:126-137 | a waiting promise settles on the first ready tick |
| DispatchProperties.SettledStays | firstload/src/index.tsx:133-135 | a settled promise never changes again |
| DispatchProperties.SettledStaysRun | firstload/src/index.tsx:133-135 | the same over any sequence of events |
| DispatchProperties.FacadeNeverThrows | firstload/src/index.tsx:52-155 | no façade call lets an error escape to the page |
| DispatchProperties.FastPathFaultCaught | firstload/src/index.tsx:141-153 | a throwing `addProperties` on the synchronous path is logged as "onHighlightReady" and no interval is scheduled |
| DispatchProperties.IntervalFaultEscapes | firstload/src/index.tsx:145-150 | the same throw from an interval escapes to the page |
| DispatchProperties.TrackWhenReady | firstload/src/index.tsx:92-96 | with a ready recorder `track` delivers `{ ...obj, event }` at once and still schedules an interval |
| Delivery.NotReadyStepOnlyInitialize | firstload/src/index.tsx:142-150 | while the recorder exists but is not ready, any façade call, tick or single interval leaves it not ready and only appends `initialize` calls to what it received |
| Delivery.NotReadyRunOnlyInitialize | firstload/src/index.tsx:142-150 | the same over any run of events without a load or the engine becoming ready |
| Delivery.DeliveriesStep | firstload/src/index.tsx:145-150 | calls `c` received plus calls `c` held by intervals are conserved by every event but a load and another call with payload `c` |
| Delivery.DeliveriesLoad | firstload/src/index.tsx:67-80 | a load starts a fresh recorder, so for any call but `initialize` that count can only drop |
| Delivery.DeliveriesRun | firstload/src/index.tsx:145-150 | for any call `c` but `initialize`, over any run without another call `c`, the count never grows, and without loads it stays equal |
| Delivery.DeliveriesOnReady | firstload/src/index.tsx:140-154 | the gate adds exactly one delivery of its call when not ready; when ready exactly two (the call at once and one interval), or exactly one if the call throws |
| Delivery.SlowPathDeliveredAtMostOnce | firstload/src/index.tsx:85-100 | `track`, `identify` or `error` before readiness: the recorder is untouched, the call is held once, and afterwards the current recorder receives it at most once (exactly held-or-received once without a new load) |
| Delivery.ReadyTickDeliversOnce | firstload/src/index.tsx:145-150 | the first ready tick hands over the held call: it has then been received exactly once |
| FastPath.TrackDeliveredTwice | firstload/src/index.tsx:142-150 | as written, `track` on a ready recorder plus one tick delivers the payload twice |
| FastPath.OnReadyFixed | firstload/src/index.tsx:140-154 | the gate with an early return: a ready recorder gets the action's call at once (or the callback runs, or the promise settles), a throw is logged as "onHighlightReady", nothing escapes, and no interval is added; not ready, exactly one readiness poller |
| FastPath.FixedTrackDeliveredOnce | firstload/src/index.tsx:142-150 | with the corrected gate `track` on a ready recorder delivers exactly once |
| FastPath.FixedGateRunsOnce | firstload/src/index.tsx:142-150 | with the corrected gate a callback is run or scheduled exactly once, ready or not |

## Left out

- DOM work in `init` (`createElement`, the `type` attribute, `getElementsByTagName('head')[0].appendChild`) is reduced to the element's `src` and a `hasHead` flag. A missing head is the one failure that leads to the "init" warning.
- `new Date().getMilliseconds()` is a parameter in 0..999.
- The recording engine behind `window.Highlight` (client/src/index) is not part of this model. A new recorder starts not ready and without a session. It reports `organizationID` as the identifier it was constructed with. Only the `EngineReady` step sets `ready` and `sessionID`. Which of its methods throw is a parameter.
- Timers are explicit steps: a single interval fires (`FireInterval`), or all live intervals fire in creation order (`Tick`). The 200 ms period and wall-clock phases are not modelled.
- Promises are reduced to their settlement. The asynchronous delivery to `then` handlers is not modelled.
- Warnings are values (the context tag and the fault, or the `start` message). The console text around them is not modelled.
- The `window.H = H` registration (firstload/src/index.tsx:157-159) is not modelled.
- frontend/src/routers/OrgRouter/ApplicationRouter.tsx is not part of this model: it is routing and query-string glue for the UI.
- Numbers are integers printed in plain decimal. Fractions, `NaN` and exponent notation are not modelled.
- `track` and `identify` payloads are values. The model does not capture that the host can mutate `obj` between the call and the tick, nor the key order of the spread object. Spread covers own keys of objects, arrays and strings only, without getters or symbols.
- Host callbacks given to `onHighlightReady` are recorded as having run. The model does not capture them throwing or re-entering `H`.
- ConfigProperties.SpreadString: JavaScript spreads a string one UTF-16 code unit at a time, while a Dafny `char` is a Unicode scalar value; for a character outside the Basic Multilingual Plane the source makes two index keys (the surrogate halves) and the model one.
- Values.Spread: spreads a string per Unicode scalar value, not per UTF-16 code unit, so a character outside the Basic Multilingual Plane gives one index key where the source gives two.
- Values.TrackPayload: the same gap for a string `obj`, whose spread keys come from `Values.Spread`.
- Delivery.SlowPathDeliveredAtMostOnce: counts what the current recorder has received. A later load builds a new recorder with a fresh log, so the bound is per recorder, not across every recorder the page ever built.
- `DebugOptions` is carried as an opaque value, since its fields are defined in the recorder package.

## Findings

| source | as written | input that shows it | evidently intended | confidence | as-written member | corrected member |
|---|---|---|---|---|---|---|
| firstload/src/index.tsx:142-150 | the fast path calls `func()` and falls through to `setInterval` | recorder ready, `track("signup", {plan: "pro"})`, then one tick: `addProperties` is received twice | `return` after `func()`: run once, no interval | high; not executed | FastPath.TrackDeliveredTwice | FastPath.FixedTrackDeliveredOnce |
