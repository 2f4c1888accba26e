/**
 * Properties of the loader's state machine: what `init` and the load event
 * do, that deferred calls wait for readiness, the one-shot polling of
 * `onHighlightReady` (including the double run of its fast path), `start`,
 * the settling of `getSessionURL` promises, and that façade calls never throw.
 */
module DispatchProperties {
  import opened Wrappers
  import opened Values
  import opened Config
  import opened Recorders
  import opened Dispatch

  /** `n` copies of `x`. */
  function Repeat<T>(x: T, n: nat): (r: seq<T>)
    ensures |r| == n && forall i :: 0 <= i < n ==> r[i] == x
  {
    if n == 0 then [] else [x] + Repeat(x, n - 1)
  }

  /** How often `x` occurs in `s`. */
  function Count<T(==)>(x: T, s: seq<T>): nat {
    if s == [] then 0 else Count(x, s[..|s| - 1]) + (if s[|s| - 1] == x then 1 else 0)
  }

  /** How many intervals in `ps` wait to run callback `cb`. */
  function Waits(cb: nat, ps: seq<Poller>): nat {
    if ps == [] then 0 else Waits(cb, ps[..|ps| - 1]) + (if ps[|ps| - 1].action == RunCallback(cb) then 1 else 0)
  }

  /** Runs of callback `cb` so far plus runs still scheduled. */
  function Total(cb: nat, s: State): nat {
    Count(cb, s.callbackRuns) + Waits(cb, s.pending)
  }

  lemma {:induction false} CountAppend<T>(x: T, a: seq<T>, b: seq<T>)
    ensures Count(x, a + b) == Count(x, a) + Count(x, b)
  {
    if b != [] {
      assert (a + b)[..|a + b| - 1] == a + b[..|b| - 1];
      CountAppend(x, a, b[..|b| - 1]);
    } else {
      assert a + b == a;
    }
  }

  lemma {:induction false} WaitsAppend(cb: nat, a: seq<Poller>, b: seq<Poller>)
    ensures Waits(cb, a + b) == Waits(cb, a) + Waits(cb, b)
  {
    if b != [] {
      assert (a + b)[..|a + b| - 1] == a + b[..|b| - 1];
      WaitsAppend(cb, a, b[..|b| - 1]);
    } else {
      assert a + b == a;
    }
  }

  /** Only `start` schedules intervals that wait for mere existence. */
  predicate StartsOnly(ps: seq<Poller>) {
    forall p :: p in ps && p.until == HandleExists ==> p.action == StartRecording
  }

  predicate WellFormed(s: State) {
    StartsOnly(s.pending)
  }

  /** How many intervals in `ps` wait only for the handle to exist. */
  function StartCount(ps: seq<Poller>): nat {
    if ps == [] then 0 else (if ps[0].until == HandleExists then 1 else 0) + StartCount(ps[1..])
  }

  /** The intervals in `ps` that wait for readiness, in order. */
  function Waiting(ps: seq<Poller>): seq<Poller> {
    if ps == [] then [] else (if ps[0].until == HandleReady then [ps[0]] else []) + Waiting(ps[1..])
  }

  /** The recorder call an action makes, if any. */
  function CallOf(a: Action): seq<Call> {
    match a
    case PushError(m) => [PushCustomError(m)]
    case AddProps(event, obj) => [AddProperties(TrackPayload(obj, event))]
    case IdentifyUser(id, obj) => [Identify(id, obj)]
    case StartRecording => [Initialize(None)]
    case _ => []
  }

  /** The recorder method that the action's call would make throw, if any. */
  predicate ActionThrows(s: State, a: Action)
    requires HasHandle(s)
  {
    CallOf(a) != [] && MethodOf(CallOf(a)[0]) in s.handle.value.faults
  }

  function CallsOf(ps: seq<Poller>): seq<Call> {
    if ps == [] then [] else CallOf(ps[0].action) + CallsOf(ps[1..])
  }

  function CallbacksOf(ps: seq<Poller>): seq<nat> {
    if ps == [] then [] else (if ps[0].action.RunCallback? then [ps[0].action.callback] else []) + CallbacksOf(ps[1..])
  }

  lemma {:induction false} CountCallbacks(cb: nat, ps: seq<Poller>)
    ensures Count(cb, CallbacksOf(ps)) == Waits(cb, ps)
  {
    if ps != [] {
      CountCallbacks(cb, ps[1..]);
      var head := if ps[0].action.RunCallback? then [ps[0].action.callback] else [];
      CountAppend(cb, head, CallbacksOf(ps[1..]));
      assert ps == [ps[0]] + ps[1..];
      WaitsAppend(cb, [ps[0]], ps[1..]);
    }
  }

  // ---------------------------------------------------------------- init and load

  /** `init` overwrites `H.options`, sets the script source, and either waits for the load or logs "init". */
  lemma InitCaptures(s: State, orgID: Ident, options: Option<Options>, millis: Millis, hasHead: bool)
    ensures var t := Init(s, orgID, options, millis, hasHead);
      && t.options == options
      && t.scriptSrc == Some(ScriptSource(options, millis))
      && t.handle == s.handle && t.pending == s.pending && t.uncaught == s.uncaught
      && (hasHead ==> t.listeners == s.listeners + [Listener(orgID, options)] && t.warnings == s.warnings)
      && (!hasHead ==> t.listeners == s.listeners && t.warnings == s.warnings + [HighlightWarning("init", DomError)])
  {
  }

  /**
   * A load event builds exactly one recorder, from the identifier and options
   * its `init` captured, and initializes it with the identifier if and only if
   * manual start was not asked for.
   */
  lemma LoadBuildsRecorder(s: State, i: nat, faults: set<Method>)
    requires i < |s.listeners|
    ensures var t := ScriptLoaded(s, i, true, faults);
      var l := s.listeners[i];
      && t.constructed == s.constructed + 1
      && t.handle.Some?
      && t.handle.value.options == ClassOptionsOf(l.orgID, l.options)
      && !t.handle.value.ready && t.handle.value.faults == faults
      && (t.handle.value.log == [Initialize(Some(l.orgID))] <==> !ManualStart(l.options))
      && (ManualStart(l.options) <==> t.handle.value.log == [])
      && t.listeners == s.listeners[..i] + s.listeners[i + 1..]
      && t.pending == s.pending && t.callbackRuns == s.callbackRuns && t.options == s.options
  {
  }

  /** A constructor that throws leaves the handle as it was and escapes to the page. */
  lemma LoadConstructorThrows(s: State, i: nat, faults: set<Method>)
    requires i < |s.listeners|
    ensures var t := ScriptLoaded(s, i, false, faults);
      t.handle == s.handle && t.constructed == s.constructed && t.uncaught == s.uncaught + [ConstructorThrew]
  {
  }

  lemma RunLoads(s2: State, s3: State, s4: State, loads: seq<Event>)
    requires |loads| == 2 && loads[0].LoadEvent? && loads[1].LoadEvent?
    requires loads[0].index < |s2.listeners| && s3 == ScriptLoaded(s2, loads[0].index, loads[0].builds, loads[0].faults)
    requires loads[1].index < |s3.listeners| && s4 == ScriptLoaded(s3, loads[1].index, loads[1].builds, loads[1].faults)
    ensures Run(s2, loads) == s4
  {
    assert Run(s3, loads[1..]) == Run(s4, []);
  }

  lemma RunPrefix(s: State, e1: Event, e2: Event, rest: seq<Event>)
    ensures Run(s, [e1, e2] + rest) == Run(Step(Step(s, e1), e2), rest)
  {
    assert ([e1, e2] + rest)[1..] == [e2] + rest;
    assert ([e2] + rest)[1..] == rest;
  }

  /** Two `init` calls inject two scripts, and their two loads build two recorders; the second wins. */
  lemma InitTwiceBuildsTwice(s: State, o1: Ident, op1: Option<Options>, m1: Millis, o2: Ident, op2: Option<Options>, m2: Millis, f1: set<Method>, f2: set<Method>)
    requires s.listeners == []
    ensures var t := Run(s, [InitEvent(o1, op1, m1, true), InitEvent(o2, op2, m2, true), LoadEvent(0, true, f1), LoadEvent(0, true, f2)]);
      && t.constructed == s.constructed + 2
      && t.options == op2
      && t.handle.Some? && t.handle.value.options == ClassOptionsOf(o2, op2)
      && t.listeners == []
  {
    var loads := [LoadEvent(0, true, f1), LoadEvent(0, true, f2)];
    var s1 := Init(s, o1, op1, m1, true);
    var s2 := Init(s1, o2, op2, m2, true);
    assert s2.listeners == [Listener(o1, op1), Listener(o2, op2)];
    assert s2.options == op2;
    var s3 := ScriptLoaded(s2, 0, true, f1);
    LoadBuildsRecorder(s2, 0, f1);
    assert s3.listeners == [Listener(o2, op2)];
    var s4 := ScriptLoaded(s3, 0, true, f2);
    LoadBuildsRecorder(s3, 0, f2);
    RunLoads(s2, s3, s4, loads);
    RunPrefix(s, InitEvent(o1, op1, m1, true), InitEvent(o2, op2, m2, true), loads);
  }

  // ---------------------------------------------------------------- readiness gate

  /** Façade calls whose work is deferred through `onHighlightReady`. */
  predicate IsDeferred(e: Event) {
    e.ErrorEvent? || e.TrackEvent? || e.IdentifyEvent? || e.SessionURLEvent? || e.OnReadyEvent?
  }

  function DeferredAction(s: State, e: Event): Action
    requires IsDeferred(e)
  {
    match e
    case ErrorEvent(m) => PushError(m)
    case TrackEvent(ev, obj) => AddProps(ev, obj)
    case IdentifyEvent(id, obj) => IdentifyUser(id, obj)
    case SessionURLEvent => SettleSessionURL(|s.promises|)
    case OnReadyEvent(cb) => RunCallback(cb)
  }

  /** Before readiness a deferred call reaches nothing: it only schedules one interval that waits for readiness. */
  lemma DeferredWaitsForReady(s: State, e: Event)
    requires !IsReady(s) && IsDeferred(e)
    ensures var t := Step(s, e);
      && t.handle == s.handle
      && t.callbackRuns == s.callbackRuns
      && t.pending == s.pending + [Poller(HandleReady, DeferredAction(s, e))]
      && t.promises == if e.SessionURLEvent? then s.promises + [Pending] else s.promises
  {
  }

  lemma {:induction false} TickLoopNoHandle(s: State, todo: seq<Poller>)
    requires !HasHandle(s)
    decreases |todo|
    ensures TickLoop(s, todo) == s.(pending := s.pending + todo)
  {
    if todo != [] {
      TickLoopNoHandle(FireInto(s, todo[0]), todo[1..]);
      assert todo == [todo[0]] + todo[1..];
    }
  }

  /** One interval firing on a handle that is not ready: only a `start` poller acts. */
  lemma FireIntoNotReady(s: State, p: Poller)
    requires HasHandle(s) && !IsReady(s) && (p.until == HandleExists ==> p.action == StartRecording)
    ensures var t := FireInto(s, p);
      && t.handle.Some? && !t.handle.value.ready
      && t.handle.value == s.handle.value.(log := s.handle.value.log + (if p.until == HandleExists then [Initialize(None)] else []))
      && t.pending == s.pending + (if p.until == HandleReady then [p] else [])
      && t.callbackRuns == s.callbackRuns && t.promises == s.promises && t.warnings == s.warnings
  {
  }

  lemma {:induction false} TickLoopNotReady(s: State, todo: seq<Poller>)
    requires HasHandle(s) && !IsReady(s) && StartsOnly(todo)
    ensures var t := TickLoop(s, todo);
      && t.handle.Some? && !t.handle.value.ready
      && t.handle.value == s.handle.value.(log := s.handle.value.log + Repeat(Initialize(None), StartCount(todo)))
      && t.pending == s.pending + Waiting(todo)
      && t.callbackRuns == s.callbackRuns && t.promises == s.promises && t.warnings == s.warnings
    decreases |todo|
  {
    if todo != [] {
      var p := todo[0];
      assert p in todo;
      assert StartsOnly(todo[1..]) by {
        forall q | q in todo[1..] ensures q in todo { }
      }
      var s1 := FireInto(s, p);
      FireIntoNotReady(s, p);
      TickLoopNotReady(s1, todo[1..]);
      var head := if p.until == HandleExists then [Initialize(None)] else [];
      var n := StartCount(todo[1..]);
      assert head + Repeat(Initialize(None), n) == Repeat(Initialize(None), StartCount(todo));
      var w := if p.until == HandleReady then [p] else [];
      assert Waiting(todo) == w + Waiting(todo[1..]);
      assert s.handle.value.log + head + Repeat(Initialize(None), n) == s.handle.value.log + Repeat(Initialize(None), StartCount(todo));
      assert s.pending + w + Waiting(todo[1..]) == s.pending + Waiting(todo);
    }
  }

  /** One interval firing on a ready handle: it runs its action and is not kept. */
  lemma FireIntoRuns(s: State, p: Poller)
    requires IsReady(s)
    ensures var t := FireInto(s, p);
      && t.handle.Some? && t.handle.value.ready
      && t.handle.value == s.handle.value.(log := s.handle.value.log + CallOf(p.action))
      && t.pending == s.pending
      && t.callbackRuns == s.callbackRuns + (if p.action.RunCallback? then [p.action.callback] else [])
      && t.warnings == s.warnings
  {
  }

  /** On a ready handle a run of intervals hands the recorder each action's call, in order. */
  lemma {:induction false} TickLoopReadyCalls(s: State, todo: seq<Poller>)
    requires IsReady(s)
    ensures var t := TickLoop(s, todo);
      && t.handle.Some? && t.handle.value == s.handle.value.(log := s.handle.value.log + CallsOf(todo))
    decreases |todo|
  {
    if todo != [] {
      var p := todo[0];
      FireIntoRuns(s, p);
      TickLoopReadyCalls(FireInto(s, p), todo[1..]);
      var h := s.handle.value;
      assert h.log + CallOf(p.action) + CallsOf(todo[1..]) == h.log + CallsOf(todo);
    }
  }

  /** On a ready handle a run of intervals runs each waiting callback, in order, and keeps none. */
  lemma {:induction false} TickLoopReadyRuns(s: State, todo: seq<Poller>)
    requires IsReady(s)
    ensures var t := TickLoop(s, todo);
      && t.pending == s.pending
      && t.callbackRuns == s.callbackRuns + CallbacksOf(todo)
      && t.warnings == s.warnings
    decreases |todo|
  {
    if todo != [] {
      var p := todo[0];
      var s1 := FireInto(s, p);
      assert IsReady(s1) && s1.pending == s.pending && s1.warnings == s.warnings
        && s1.callbackRuns == s.callbackRuns + CallbacksOf([p]) by {
        FireIntoRuns(s, p);
        assert CallbacksOf([p]) == (if p.action.RunCallback? then [p.action.callback] else []) + CallbacksOf([]);
      }
      TickLoopReadyRuns(s1, todo[1..]);
      assert CallbacksOf(todo) == CallbacksOf([p]) + CallbacksOf(todo[1..]) by {
        assert CallbacksOf([p]) == (if p.action.RunCallback? then [p.action.callback] else []) + CallbacksOf([]);
      }
      assert TickLoop(s, todo) == TickLoop(s1, todo[1..]);
    }
  }

  lemma TickLoopReady(s: State, todo: seq<Poller>)
    requires IsReady(s)
    ensures var t := TickLoop(s, todo);
      && t.handle.Some? && t.handle.value.ready
      && t.handle.value == s.handle.value.(log := s.handle.value.log + CallsOf(todo))
      && t.pending == s.pending
      && t.callbackRuns == s.callbackRuns + CallbacksOf(todo)
      && t.warnings == s.warnings
  {
    TickLoopReadyCalls(s, todo);
    TickLoopReadyRuns(s, todo);
  }

  /** No handle yet: a tick changes nothing, every interval keeps waiting. */
  lemma TickWithoutHandle(s: State)
    requires !HasHandle(s)
    ensures Tick(s) == s
  {
    TickLoopNoHandle(s.(pending := []), s.pending);
  }

  /**
   * A handle that is not ready: a tick hands the recorder nothing but the
   * argument-less `initialize()` of pending `start` calls; no deferred
   * `track`, `identify` or `error` and no callback runs, and no promise settles.
   */
  lemma TickBeforeReady(s: State)
    requires WellFormed(s) && HasHandle(s) && !IsReady(s)
    ensures var t := Tick(s);
      && t.handle.Some?
      && t.handle.value == s.handle.value.(log := s.handle.value.log + Repeat(Initialize(None), StartCount(s.pending)))
      && t.pending == Waiting(s.pending)
      && t.callbackRuns == s.callbackRuns && t.promises == s.promises
  {
    TickLoopNotReady(s.(pending := []), s.pending);
  }

  /** A ready handle: a tick runs every interval's action, in order, and clears them all. */
  lemma TickWhenReady(s: State)
    requires IsReady(s)
    ensures var t := Tick(s);
      && t.pending == []
      && t.handle.Some?
      && t.handle.value == s.handle.value.(log := s.handle.value.log + CallsOf(s.pending))
      && t.callbackRuns == s.callbackRuns + CallbacksOf(s.pending)
  {
    TickLoopReady(s.(pending := []), s.pending);
  }

  // ---------------------------------------------------------------- well-formedness

  lemma {:induction false} TickLoopPendingFrom(s: State, todo: seq<Poller>)
    ensures forall p :: p in TickLoop(s, todo).pending ==> p in s.pending || p in todo
    decreases |todo|
  {
    if todo != [] {
      TickLoopPendingFrom(FireInto(s, todo[0]), todo[1..]);
    }
  }

  lemma WellFormedStep(s: State, e: Event)
    requires WellFormed(s)
    ensures WellFormed(Step(s, e))
  {
    match e
    case TickEvent => TickLoopPendingFrom(s.(pending := []), s.pending);
    case FireEvent(i) => FireWellFormed(s, i);
    case LoadEvent(i, builds, faults) => LoadWellFormed(s, i, builds, faults);
    case StartEvent => StartWellFormed(s);
    case ErrorEvent(m) => OnReadyWellFormed(s, PushError(m));
    case TrackEvent(ev, obj) => OnReadyWellFormed(s, AddProps(ev, obj));
    case IdentifyEvent(id, obj) => OnReadyWellFormed(s, IdentifyUser(id, obj));
    case SessionURLEvent => OnReadyWellFormed(s.(promises := s.promises + [Pending]), SettleSessionURL(|s.promises|));
    case OnReadyEvent(cb) => OnReadyWellFormed(s, RunCallback(cb));
    case InitEvent(o, op, m, hh) => assert Step(s, e).pending == s.pending;
    case ReadyEvent(sid) => assert Step(s, e).pending == s.pending;
  }

  lemma FireWellFormed(s: State, i: nat)
    requires WellFormed(s)
    ensures WellFormed(Step(s, FireEvent(i)))
  {
    if i < |s.pending| {
      var rest := s.pending[..i] + s.pending[i + 1..];
      forall p | p in rest ensures p in s.pending { }
      assert Step(s, FireEvent(i)).pending == rest || Step(s, FireEvent(i)).pending == s.pending;
    }
  }

  lemma LoadWellFormed(s: State, i: nat, builds: bool, faults: set<Method>)
    requires WellFormed(s)
    ensures WellFormed(Step(s, LoadEvent(i, builds, faults)))
  {
    assert Step(s, LoadEvent(i, builds, faults)).pending == s.pending;
  }

  lemma StartWellFormed(s: State)
    requires WellFormed(s)
    ensures WellFormed(Step(s, StartEvent))
  {
    var t := Step(s, StartEvent);
    assert t.pending == s.pending || t.pending == s.pending + [Poller(HandleExists, StartRecording)];
  }

  lemma OnReadyWellFormed(s: State, a: Action)
    requires WellFormed(s)
    ensures WellFormed(OnReady(s, a))
  {
    var t := OnReady(s, a);
    assert t.pending == s.pending || t.pending == s.pending + [Poller(HandleReady, a)];
  }

  lemma {:induction false} WellFormedRun(s: State, events: seq<Event>)
    requires WellFormed(s)
    ensures WellFormed(Run(s, events))
    decreases |events|
  {
    if events != [] {
      WellFormedStep(s, events[0]);
      WellFormedRun(Step(s, events[0]), events[1..]);
    }
  }

  lemma InitialWellFormed()
    ensures WellFormed(INITIAL) && !HasHandle(INITIAL) && INITIAL.options.None?
  {
  }

  // ---------------------------------------------------------------- one-shot callbacks

  lemma PerformCallbacks(s: State, a: Action, cb: nat)
    requires HasHandle(s)
    ensures Perform(s, a).0.pending == s.pending
    ensures Count(cb, Perform(s, a).0.callbackRuns) == Count(cb, s.callbackRuns) + (if a == RunCallback(cb) then 1 else 0)
  {
    var t := Perform(s, a).0;
    if a.RunCallback? {
      CountAppend(cb, s.callbackRuns, [a.callback]);
    } else {
      assert t.callbackRuns == s.callbackRuns;
    }
  }

  lemma TotalFireInto(s: State, p: Poller, cb: nat)
    ensures Total(cb, FireInto(s, p)) == Total(cb, s) + Waits(cb, [p])
  {
    if Satisfied(s, p.until) {
      PerformCallbacks(s, p.action, cb);
    } else {
      WaitsAppend(cb, s.pending, [p]);
    }
  }

  lemma {:induction false} TotalTickLoop(s: State, todo: seq<Poller>, cb: nat)
    ensures Total(cb, TickLoop(s, todo)) == Total(cb, s) + Waits(cb, todo)
    decreases |todo|
  {
    if todo != [] {
      TotalFireInto(s, todo[0], cb);
      TotalTickLoop(FireInto(s, todo[0]), todo[1..], cb);
      assert todo == [todo[0]] + todo[1..];
      WaitsAppend(cb, [todo[0]], todo[1..]);
    }
  }

  lemma TotalOnReady(s: State, a: Action, cb: nat)
    ensures Total(cb, OnReady(s, a)) == Total(cb, s) + (if a == RunCallback(cb) then (if IsReady(s) then 2 else 1) else 0)
  {
    if IsReady(s) {
      PerformCallbacks(s, a, cb);
      assert Perform(s, a).1.None? <== a.RunCallback?;
      if Perform(s, a).1.None? {
        WaitsAppend(cb, s.pending, [Poller(HandleReady, a)]);
      }
    } else {
      WaitsAppend(cb, s.pending, [Poller(HandleReady, a)]);
    }
  }

  lemma TotalFireInterval(s: State, i: nat, cb: nat)
    ensures Total(cb, Step(s, FireEvent(i))) == Total(cb, s)
  {
    if i < |s.pending| {
      var p := s.pending[i];
      assert s.pending == s.pending[..i] + [p] + s.pending[i + 1..];
      WaitsAppend(cb, s.pending[..i] + [p], s.pending[i + 1..]);
      WaitsAppend(cb, s.pending[..i], [p]);
      WaitsAppend(cb, s.pending[..i], s.pending[i + 1..]);
      if Satisfied(s, p.until) {
        PerformCallbacks(s.(pending := s.pending[..i] + s.pending[i + 1..]), p.action, cb);
      }
    }
  }

  lemma TotalLoad(s: State, i: nat, builds: bool, faults: set<Method>, cb: nat)
    ensures Total(cb, Step(s, LoadEvent(i, builds, faults))) == Total(cb, s)
  {
    if i < |s.listeners| && builds && !ManualStart(s.listeners[i].options) {
      var l := s.listeners[i];
      var s1 := s.(listeners := s.listeners[..i] + s.listeners[i + 1..]);
      var r := Recorder(ClassOptionsOf(l.orgID, l.options), false, None, faults, []);
      var s2 := s1.(handle := Some(r), constructed := s1.constructed + 1);
      assert Deliver(s2, Initialize(Some(l.orgID))).0.callbackRuns == s.callbackRuns;
    }
  }

  /**
   * Runs of a callback, done plus scheduled, are conserved by every event
   * except a new `onHighlightReady` call for that same callback.
   */
  lemma TotalStep(s: State, e: Event, cb: nat)
    requires e != OnReadyEvent(cb)
    ensures Total(cb, Step(s, e)) == Total(cb, s)
  {
    match e
    case TickEvent =>
      TotalTickLoop(s.(pending := []), s.pending, cb);
    case FireEvent(i) => TotalFireInterval(s, i, cb);
    case ErrorEvent(m) => TotalOnReady(s, PushError(m), cb);
    case TrackEvent(ev, obj) => TotalOnReady(s, AddProps(ev, obj), cb);
    case IdentifyEvent(id, obj) => TotalOnReady(s, IdentifyUser(id, obj), cb);
    case SessionURLEvent => TotalOnReady(s.(promises := s.promises + [Pending]), SettleSessionURL(|s.promises|), cb);
    case OnReadyEvent(other) => TotalOnReady(s, RunCallback(other), cb);
    case StartEvent =>
      if ManualStart(s.options) {
        WaitsAppend(cb, s.pending, [Poller(HandleExists, StartRecording)]);
      }
    case LoadEvent(i, builds, faults) => TotalLoad(s, i, builds, faults, cb);
    case _ =>
  }

  lemma {:induction false} TotalRun(s: State, events: seq<Event>, cb: nat)
    requires forall i :: 0 <= i < |events| ==> events[i] != OnReadyEvent(cb)
    ensures Total(cb, Run(s, events)) == Total(cb, s)
    decreases |events|
  {
    if events != [] {
      TotalStep(s, events[0], cb);
      TotalRun(Step(s, events[0]), events[1..], cb);
    }
  }

  /**
   * `onHighlightReady(cb)` before readiness: the callback does not run now,
   * and from then on, whatever happens (other than another call with the same
   * callback), it has either run once and waits no more, or has not run and
   * one interval still waits: it never runs twice.
   */
  lemma SlowPathAtMostOnce(s: State, cb: nat, events: seq<Event>)
    requires !IsReady(s) && Total(cb, s) == 0
    requires forall i :: 0 <= i < |events| ==> events[i] != OnReadyEvent(cb)
    ensures OnHighlightReady(s, cb).callbackRuns == s.callbackRuns
    ensures var t := Run(OnHighlightReady(s, cb), events);
      Count(cb, t.callbackRuns) + Waits(cb, t.pending) == 1
  {
    TotalOnReady(s, RunCallback(cb), cb);
    TotalRun(OnHighlightReady(s, cb), events, cb);
  }

  /** A tick with a ready handle runs every waiting callback and leaves none waiting. */
  lemma ReadyTickRunsWaiting(s: State, cb: nat)
    requires IsReady(s)
    ensures Count(cb, Tick(s).callbackRuns) == Count(cb, s.callbackRuns) + Waits(cb, s.pending)
    ensures Waits(cb, Tick(s).pending) == 0
  {
    TickWhenReady(s);
    CountAppend(cb, s.callbackRuns, CallbacksOf(s.pending));
    CountCallbacks(cb, s.pending);
  }

  /** A tick without a ready handle runs no callback: they keep waiting. */
  lemma UnreadyTickRunsNothing(s: State)
    requires WellFormed(s) && !IsReady(s)
    ensures Tick(s).callbackRuns == s.callbackRuns
    ensures Waiting(Tick(s).pending) == Waiting(s.pending)
  {
    if HasHandle(s) {
      TickBeforeReady(s);
      WaitingIdempotent(s.pending);
    } else {
      TickWithoutHandle(s);
    }
  }

  lemma {:induction false} WaitingIdempotent(ps: seq<Poller>)
    ensures Waiting(Waiting(ps)) == Waiting(ps)
  {
    if ps != [] {
      WaitingIdempotent(ps[1..]);
      var w := Waiting(ps[1..]);
      if ps[0].until == HandleReady {
        assert Waiting(ps) == [ps[0]] + w;
        assert ([ps[0]] + w)[1..] == w;
        assert Waiting([ps[0]] + w) == [ps[0]] + Waiting(w);
      } else {
        assert Waiting(ps) == w;
      }
    }
  }

  /**
   * `onHighlightReady(cb)` when the handle is already ready: `cb` runs at once,
   * an interval is still scheduled, and the next tick runs it a second time;
   * no interval is left, so the total stays at two.
   */
  lemma FastPathRunsTwice(s: State, cb: nat)
    requires IsReady(s) && Total(cb, s) == 0
    ensures var s1 := OnHighlightReady(s, cb);
      && Count(cb, s1.callbackRuns) == 1
      && Waits(cb, s1.pending) == 1
      && Count(cb, Tick(s1).callbackRuns) == 2
      && Tick(s1).pending == []
  {
    var s1 := OnHighlightReady(s, cb);
    TotalOnReady(s, RunCallback(cb), cb);
    CountAppend(cb, s.callbackRuns, [cb]);
    assert IsReady(s1);
    ReadyTickRunsWaiting(s1, cb);
    TickWhenReady(s1);
  }

  /**
   * The slow path end to end: a callback registered while the recorder is not
   * ready does not run on a tick before readiness, runs once on the first tick
   * after the engine is ready, and not again on the tick after that.
   */
  lemma SlowPathScenario(s: State, cb: nat, sessionID: Option<string>)
    requires WellFormed(s) && HasHandle(s) && !IsReady(s) && Total(cb, s) == 0
    ensures var s1 := Tick(OnHighlightReady(s, cb));
      var s2 := Tick(EngineReady(s1, sessionID));
      var s3 := Tick(s2);
      && Count(cb, s1.callbackRuns) == 0
      && Count(cb, s2.callbackRuns) == 1
      && Count(cb, s3.callbackRuns) == 1
  {
    var s0 := OnHighlightReady(s, cb);
    TotalOnReady(s, RunCallback(cb), cb);
    WellFormedStep(s, OnReadyEvent(cb));
    var s1 := Tick(s0);
    UnreadyTickRunsNothing(s0);
    TotalStep(s0, TickEvent, cb);
    var r := EngineReady(s1, sessionID);
    TickBeforeReady(s0);
    assert IsReady(r);
    ReadyTickRunsWaiting(r, cb);
    var s2 := Tick(r);
    TickWhenReady(r);
    ReadyTickRunsWaiting(s2, cb);
  }

  // ---------------------------------------------------------------- start

  /** `start()` without `manualStart`: one warning per call, nothing scheduled, nothing else changes. */
  lemma {:induction false} StartWithoutManualStart(s: State, n: nat)
    requires !ManualStart(s.options)
    ensures Run(s, Repeat(StartEvent, n)) == s.(warnings := s.warnings + Repeat(ConsoleWarning(START_MISUSE), n))
    decreases n
  {
    if n > 0 {
      var s1 := Start(s);
      assert Repeat(StartEvent, n)[1..] == Repeat(StartEvent, n - 1);
      StartWithoutManualStart(s1, n - 1);
      assert s1.warnings + Repeat(ConsoleWarning(START_MISUSE), n - 1)
          == s.warnings + Repeat(ConsoleWarning(START_MISUSE), n);
    }
  }

  lemma {:induction false} StartsQueue(s: State, n: nat)
    requires ManualStart(s.options)
    ensures Run(s, Repeat(StartEvent, n)) == s.(pending := s.pending + Repeat(Poller(HandleExists, StartRecording), n))
    decreases n
  {
    if n > 0 {
      var s1 := Start(s);
      assert Repeat(StartEvent, n)[1..] == Repeat(StartEvent, n - 1);
      StartsQueue(s1, n - 1);
      assert s1.pending + Repeat(Poller(HandleExists, StartRecording), n - 1)
          == s.pending + Repeat(Poller(HandleExists, StartRecording), n);
    }
  }

  lemma {:induction false} TickLoopStarts(s: State, n: nat)
    requires HasHandle(s)
    ensures var t := TickLoop(s, Repeat(Poller(HandleExists, StartRecording), n));
      && t.handle.Some?
      && t.handle.value == s.handle.value.(log := s.handle.value.log + Repeat(Initialize(None), n))
      && t.pending == s.pending
    decreases n
  {
    if n > 0 {
      var ps := Repeat(Poller(HandleExists, StartRecording), n);
      assert ps[1..] == Repeat(Poller(HandleExists, StartRecording), n - 1);
      TickLoopStarts(FireInto(s, ps[0]), n - 1);
      assert [Initialize(None)] + Repeat(Initialize(None), n - 1) == Repeat(Initialize(None), n);
    }
  }

  /**
   * `start()` with `manualStart`, `n` times: once a handle exists, ready or
   * not, the next tick calls `initialize()` with no argument `n` times and
   * leaves no interval.
   */
  lemma StartsThenTick(s: State, n: nat)
    requires ManualStart(s.options) && HasHandle(s) && s.pending == []
    ensures var t := Tick(Run(s, Repeat(StartEvent, n)));
      && t.handle.Some?
      && t.handle.value == s.handle.value.(log := s.handle.value.log + Repeat(Initialize(None), n))
      && t.pending == []
  {
    StartsQueue(s, n);
    var q := Run(s, Repeat(StartEvent, n));
    assert q.(pending := []) == s;
    assert q.pending == Repeat(Poller(HandleExists, StartRecording), n);
    TickLoopStarts(s, n);
    assert Tick(q) == TickLoop(s, Repeat(Poller(HandleExists, StartRecording), n));
  }

  // ---------------------------------------------------------------- getSessionURL

  /** With a ready handle the promise settles at once, to the session URL or to the rejection. */
  lemma SessionURLWhenReady(s: State)
    requires IsReady(s)
    ensures var (t, p) := GetSessionURL(s);
      && p == |s.promises| && p < |t.promises|
      && t.promises[p] == Settled(SessionURL(s.handle.value.OrganizationID(), s.handle.value.sessionID))
  {
  }

  /** Once a promise has settled, nothing changes it. */
  predicate Keeps(s: State, t: State) {
    |s.promises| <= |t.promises|
    && forall p :: 0 <= p < |s.promises| && s.promises[p].Settled? ==> t.promises[p] == s.promises[p]
  }

  lemma PerformKeeps(s: State, a: Action)
    requires HasHandle(s)
    ensures Keeps(s, Perform(s, a).0)
  {
  }

  lemma {:induction false} TickLoopKeeps(s: State, todo: seq<Poller>)
    ensures Keeps(s, TickLoop(s, todo))
    decreases |todo|
  {
    if todo != [] {
      var p := todo[0];
      if Satisfied(s, p.until) {
        PerformKeeps(s, p.action);
      }
      TickLoopKeeps(FireInto(s, p), todo[1..]);
    }
  }

  lemma SettledStays(s: State, e: Event)
    ensures Keeps(s, Step(s, e))
  {
    match e
    case TickEvent =>
      TickLoopKeeps(s.(pending := []), s.pending);
    case FireEvent(i) =>
      if i < |s.pending| && Satisfied(s, s.pending[i].until) {
        PerformKeeps(s.(pending := s.pending[..i] + s.pending[i + 1..]), s.pending[i].action);
      }
    case _ =>
  }

  lemma {:induction false} SettledStaysRun(s: State, events: seq<Event>)
    ensures Keeps(s, Run(s, events))
    decreases |events|
  {
    if events != [] {
      SettledStays(s, events[0]);
      SettledStaysRun(Step(s, events[0]), events[1..]);
    }
  }

  /** The session URL a ready state's recorder settles promises to. */
  function URLOf(s: State): Result<string, string>
    requires HasHandle(s)
  {
    SessionURL(s.handle.value.OrganizationID(), s.handle.value.sessionID)
  }

  lemma FireIntoReady(s: State, p: Poller, k: nat)
    requires IsReady(s) && k < |s.promises|
    ensures var t := FireInto(s, p);
      && IsReady(t) && URLOf(t) == URLOf(s) && k < |t.promises|
      && t.promises[k] == (if p.action == SettleSessionURL(k) && s.promises[k].Pending? then Settled(URLOf(s)) else s.promises[k])
  {
  }

  lemma {:induction false} TickLoopSettles(s: State, todo: seq<Poller>, k: nat)
    requires IsReady(s) && k < |s.promises|
    requires s.promises[k] == Pending || s.promises[k] == Settled(URLOf(s))
    requires Poller(HandleReady, SettleSessionURL(k)) in todo
    ensures k < |TickLoop(s, todo).promises| && TickLoop(s, todo).promises[k] == Settled(URLOf(s))
    decreases |todo|
  {
    var s1 := FireInto(s, todo[0]);
    FireIntoReady(s, todo[0], k);
    if todo[0] == Poller(HandleReady, SettleSessionURL(k)) {
      TickLoopKeeps(s1, todo[1..]);
    } else {
      assert Poller(HandleReady, SettleSessionURL(k)) in todo[1..];
      TickLoopSettles(s1, todo[1..], k);
    }
  }

  /** A `getSessionURL` promise still waiting settles on the first tick with a ready recorder. */
  lemma SessionURLSettlesOnReadyTick(s: State, k: nat)
    requires IsReady(s) && k < |s.promises| && s.promises[k].Pending?
    requires Poller(HandleReady, SettleSessionURL(k)) in s.pending
    ensures k < |Tick(s).promises|
    ensures Tick(s).promises[k] == Settled(SessionURL(s.handle.value.OrganizationID(), s.handle.value.sessionID))
  {
    TickLoopSettles(s.(pending := []), s.pending, k);
  }

  // ---------------------------------------------------------------- containment

  /** No façade call lets an error escape to the page. */
  lemma FacadeNeverThrows(s: State, e: Event)
    requires IsFacadeCall(e)
    ensures Step(s, e).uncaught == s.uncaught
  {
  }

  /**
   * A ready recorder whose `addProperties` throws: `track` catches it inside
   * `onHighlightReady`, logs it there, and schedules no interval.
   */
  lemma FastPathFaultCaught(s: State, event: string, obj: Value)
    requires IsReady(s) && AddPropertiesMethod in s.handle.value.faults
    ensures var t := Track(s, event, obj);
      && t.warnings == s.warnings + [HighlightWarning("onHighlightReady", RecorderThrew(AddPropertiesMethod))]
      && t.pending == s.pending
      && t.handle.value.log == s.handle.value.log + [AddProperties(TrackPayload(obj, event))]
      && t.uncaught == s.uncaught
  {
  }

  /** The same fault thrown from an interval callback is not caught: it escapes to the page. */
  lemma IntervalFaultEscapes(s: State, i: nat)
    requires i < |s.pending| && IsReady(s) && s.pending[i].action.AddProps?
    requires AddPropertiesMethod in s.handle.value.faults
    ensures var t := FireInterval(s, i);
      && t.uncaught == s.uncaught + [RecorderThrew(AddPropertiesMethod)]
      && t.warnings == s.warnings
      && t.pending == s.pending[..i] + s.pending[i + 1..]
  {
  }

  /** `track` with a ready recorder: `{ ...obj, event }` is delivered at once and an interval is still scheduled. */
  lemma TrackWhenReady(s: State, event: string, obj: Value)
    requires IsReady(s) && AddPropertiesMethod !in s.handle.value.faults
    ensures var t := Track(s, event, obj);
      && t.handle.value.log == s.handle.value.log + [AddProperties(TrackPayload(obj, event))]
      && t.pending == s.pending + [Poller(HandleReady, AddProps(event, obj))]
  {
  }
}
