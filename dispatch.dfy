/**
 * The loader `H` as a state machine over its module state: the captured
 * options, the script element, the load listeners still waiting, the recorder
 * handle, the live 200 ms interval pollers, the `getSessionURL` promises, and
 * the two failure sinks (the warning log, and errors that escape to the host
 * page from event-loop callbacks).
 *
 * Every event the loader reacts to is one function from state to state: the
 * façade calls, a script's load event, one interval callback, one tick of all
 * intervals, and the recording engine becoming ready.
 */
module Dispatch {
  import opened Wrappers
  import opened Values
  import opened Config
  import opened Recorders

  /** What an interval waits for before it runs its deferred action. */
  datatype Condition =
    | HandleExists  // `if (highlight_obj)`, as `start` polls
    | HandleReady   // `if (highlight_obj && highlight_obj.ready)`, as `onHighlightReady` polls

  /** The deferred body of a façade call. */
  datatype Action =
    | PushError(message: string)
    | AddProps(event: string, obj: Value)
    | IdentifyUser(identifier: string, obj: Value)
    | SettleSessionURL(promise: nat)
    | RunCallback(callback: nat)
    | StartRecording

  /** A live `setInterval` poller. */
  datatype Poller = Poller(until: Condition, action: Action)

  /** A script element in the page whose load listener has not fired, with what the listener captured. */
  datatype Listener = Listener(orgID: Ident, options: Option<Options>)

  datatype Settlement = Pending | Settled(outcome: Result<string, string>)

  /** What can be thrown. */
  datatype Fault = DomError | ConstructorThrew | RecorderThrew(thrower: Method)

  /** `HighlightWarning(context, e)`, or the plain `console.warn` that `start` emits. */
  datatype Warning = HighlightWarning(context: string, error: Fault) | ConsoleWarning(message: string)

  const START_MISUSE := "Highlight Error: Can't call `start()` without setting `manualStart` option in `H.init`"

  datatype State = State(
    options: Option<Options>,     // H.options
    scriptSrc: Option<string>,    // src of `script`, the element created last
    listeners: seq<Listener>,
    handle: Option<Recorder>,     // highlight_obj
    constructed: nat,             // how many recorders the load listeners built
    pending: seq<Poller>,         // live intervals, oldest first
    promises: seq<Settlement>,    // getSessionURL promises, by number
    callbackRuns: seq<nat>,       // onHighlightReady callbacks, in the order they ran
    warnings: seq<Warning>,
    uncaught: seq<Fault>)

  /** The state when the module is loaded: `H.options` is `undefined` and nothing exists yet. */
  const INITIAL := State(None, None, [], None, 0, [], [], [], [], [])

  predicate HasHandle(s: State) {
    s.handle.Some?
  }

  predicate IsReady(s: State) {
    s.handle.Some? && s.handle.value.ready
  }

  predicate Satisfied(s: State, c: Condition) {
    match c
    case HandleExists => HasHandle(s)
    case HandleReady => IsReady(s)
  }

  /** The recorder receives `c`; a faulting method throws after receiving it. */
  function Deliver(s: State, c: Call): (State, Option<Fault>)
    requires HasHandle(s)
  {
    var h := s.handle.value;
    (s.(handle := Some(h.(log := h.log + [c]))),
     if MethodOf(c) in h.faults then Some(RecorderThrew(MethodOf(c))) else None)
  }

  /** `resolve`/`reject`: only the first settlement of a promise takes effect. */
  function Settle(s: State, p: nat, outcome: Result<string, string>): State {
    if p < |s.promises| && s.promises[p].Pending? then s.(promises := s.promises[p := Settled(outcome)])
    else s
  }

  /** Runs a deferred action against the recorder; the fault, if it threw. */
  function Perform(s: State, a: Action): (State, Option<Fault>)
    requires HasHandle(s)
  {
    var h := s.handle.value;
    match a
    case PushError(m) => Deliver(s, PushCustomError(m))
    case AddProps(event, obj) => Deliver(s, AddProperties(TrackPayload(obj, event)))
    case IdentifyUser(id, obj) => Deliver(s, Identify(id, obj))
    case StartRecording => Deliver(s, Initialize(None))
    case SettleSessionURL(p) => (Settle(s, p, SessionURL(h.OrganizationID(), h.sessionID)), None)
    case RunCallback(cb) => (s.(callbackRuns := s.callbackRuns + [cb]), None)
  }

  /** In an event-loop callback nothing catches: a fault escapes to the host page. */
  function Escape(r: (State, Option<Fault>)): State {
    if r.1.Some? then r.0.(uncaught := r.0.uncaught + [r.1.value]) else r.0
  }

  /**
   * `onHighlightReady(func)` as written: when ready, run `func` at once; a throw
   * is caught and logged (and the `setInterval` after it is skipped); otherwise,
   * and also after a successful run, an interval is scheduled.
   */
  function OnReady(s: State, a: Action): State {
    if IsReady(s) then
      var (s1, thrown) := Perform(s, a);
      if thrown.Some? then s1.(warnings := s1.warnings + [HighlightWarning("onHighlightReady", thrown.value)])
      else s1.(pending := s1.pending + [Poller(HandleReady, a)])
    else
      s.(pending := s.pending + [Poller(HandleReady, a)])
  }

  /** One interval callback of poller `p` (already taken out of `pending`): it stays unless satisfied. */
  function FireInto(s: State, p: Poller): State {
    if Satisfied(s, p.until) then Escape(Perform(s, p.action))
    else s.(pending := s.pending + [p])
  }

  function TickLoop(s: State, todo: seq<Poller>): State
    decreases |todo|
  {
    if todo == [] then s else TickLoop(FireInto(s, todo[0]), todo[1..])
  }

  /** A 200 ms tick: every live interval fires once, oldest first. */
  function Tick(s: State): State {
    TickLoop(s.(pending := []), s.pending)
  }

  /** The `i`-th live interval fires on its own. */
  function FireInterval(s: State, i: nat): State
    requires i < |s.pending|
  {
    var p := s.pending[i];
    if Satisfied(s, p.until) then Escape(Perform(s.(pending := s.pending[..i] + s.pending[i + 1..]), p.action))
    else s
  }

  /**
   * `H.init(orgID, options)`: captures the options, creates the script element
   * and sets its source; when the page has a head the element is appended with
   * its load listener, otherwise the failure is caught and logged as "init".
   */
  function Init(s: State, orgID: Ident, options: Option<Options>, millis: Millis, hasHead: bool): State {
    var s1 := s.(options := options, scriptSrc := Some(ScriptSource(options, millis)));
    if hasHead then s1.(listeners := s1.listeners + [Listener(orgID, options)])
    else s1.(warnings := s1.warnings + [HighlightWarning("init", DomError)])
  }

  /**
   * The load event of the `i`-th waiting script: construct the recorder from
   * what the listener captured and, unless manual start was asked for,
   * initialize it with the organization identifier. `builds` is false when
   * the constructor throws; `faults` are the methods of the new recorder that throw.
   */
  function ScriptLoaded(s: State, i: nat, builds: bool, faults: set<Method>): State
    requires i < |s.listeners|
  {
    var l := s.listeners[i];
    var s1 := s.(listeners := s.listeners[..i] + s.listeners[i + 1..]);
    if !builds then s1.(uncaught := s1.uncaught + [ConstructorThrew])
    else
      var r := Recorder(ClassOptionsOf(l.orgID, l.options), false, None, faults, []);
      var s2 := s1.(handle := Some(r), constructed := s1.constructed + 1);
      if ManualStart(l.options) then s2 else Escape(Deliver(s2, Initialize(Some(l.orgID))))
  }

  /** The recording engine finishes initializing: `ready` turns true and the session is known. */
  function EngineReady(s: State, sessionID: Option<string>): State {
    if s.handle.Some? then s.(handle := Some(s.handle.value.(ready := true, sessionID := sessionID)))
    else s
  }

  function Error(s: State, message: string): State {
    OnReady(s, PushError(message))
  }

  function Track(s: State, event: string, obj: Value): State {
    OnReady(s, AddProps(event, obj))
  }

  function IdentifyCall(s: State, identifier: string, obj: Value): State {
    OnReady(s, IdentifyUser(identifier, obj))
  }

  /** `getSessionURL()`: a new pending promise, settled through `onHighlightReady`. */
  function GetSessionURL(s: State): (State, nat) {
    var p := |s.promises|;
    (OnReady(s.(promises := s.promises + [Pending]), SettleSessionURL(p)), p)
  }

  function OnHighlightReady(s: State, callback: nat): State {
    OnReady(s, RunCallback(callback))
  }

  /** `start()`: reads `H.options` at call time. */
  function Start(s: State): State {
    if ManualStart(s.options) then s.(pending := s.pending + [Poller(HandleExists, StartRecording)])
    else s.(warnings := s.warnings + [ConsoleWarning(START_MISUSE)])
  }

  /** Everything that can happen to the loader. */
  datatype Event =
    | InitEvent(orgID: Ident, options: Option<Options>, millis: Millis, hasHead: bool)
    | LoadEvent(index: nat, builds: bool, faults: set<Method>)
    | ReadyEvent(sessionID: Option<string>)
    | TickEvent
    | FireEvent(index: nat)
    | ErrorEvent(message: string)
    | TrackEvent(event: string, obj: Value)
    | IdentifyEvent(identifier: string, obj: Value)
    | SessionURLEvent
    | StartEvent
    | OnReadyEvent(callback: nat)

  /** The façade calls a host page makes. */
  predicate IsFacadeCall(e: Event) {
    e.InitEvent? || e.ErrorEvent? || e.TrackEvent? || e.IdentifyEvent? || e.SessionURLEvent? || e.StartEvent? || e.OnReadyEvent?
  }

  /** A load or interval event for a listener or interval that does not exist does not happen. */
  function Step(s: State, e: Event): State {
    match e
    case InitEvent(orgID, options, millis, hasHead) => Init(s, orgID, options, millis, hasHead)
    case LoadEvent(i, builds, faults) => if i < |s.listeners| then ScriptLoaded(s, i, builds, faults) else s
    case ReadyEvent(sid) => EngineReady(s, sid)
    case TickEvent => Tick(s)
    case FireEvent(i) => if i < |s.pending| then FireInterval(s, i) else s
    case ErrorEvent(m) => Error(s, m)
    case TrackEvent(ev, obj) => Track(s, ev, obj)
    case IdentifyEvent(id, obj) => IdentifyCall(s, id, obj)
    case SessionURLEvent => GetSessionURL(s).0
    case StartEvent => Start(s)
    case OnReadyEvent(cb) => OnHighlightReady(s, cb)
  }

  function Run(s: State, events: seq<Event>): State
    decreases |events|
  {
    if events == [] then s else Run(Step(s, events[0]), events[1..])
  }
}
