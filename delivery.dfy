/**
 * Deferred recorder calls. A `track`, `identify` or `error` made before the
 * recorder is ready hands the recorder nothing until it is ready, and is then
 * delivered once: the calls a recorder has received plus the calls its
 * intervals still hold are conserved by every event but the load of a new
 * recorder (which starts a fresh log) and another call with the same payload.
 */
module Delivery {
  import opened Wrappers
  import opened Values
  import opened Config
  import opened Recorders
  import opened Dispatch
  import opened DispatchProperties

  // ---------------------------------------------------------------- before readiness

  /** `l1` is `l0` followed only by `initialize` calls. */
  predicate InitializeOnlyAfter(l0: seq<Call>, l1: seq<Call>) {
    |l0| <= |l1| && l1[..|l0|] == l0 && forall k :: |l0| <= k < |l1| ==> l1[k].Initialize?
  }

  lemma InitializeOnlyAfterTrans(l0: seq<Call>, l1: seq<Call>, l2: seq<Call>)
    requires InitializeOnlyAfter(l0, l1) && InitializeOnlyAfter(l1, l2)
    ensures InitializeOnlyAfter(l0, l2)
  {
    assert l2[..|l0|] == l2[..|l1|][..|l0|];
  }

  /**
   * While the recorder exists but is not ready, no event other than the
   * engine becoming ready or a new load hands it anything but `initialize`:
   * no deferred `track`, `identify` or `error` reaches it, neither from a
   * façade call, nor from a tick, nor from a single interval firing.
   */
  lemma NotReadyStepOnlyInitialize(s: State, e: Event)
    requires WellFormed(s) && HasHandle(s) && !IsReady(s) && !e.LoadEvent? && !e.ReadyEvent?
    ensures HasHandle(Step(s, e)) && !IsReady(Step(s, e))
    ensures InitializeOnlyAfter(s.handle.value.log, Step(s, e).handle.value.log)
  {
    match e
    case TickEvent => TickBeforeReady(s);
    case FireEvent(i) =>
      if i < |s.pending| {
        assert s.pending[i] in s.pending;
      }
    case _ =>
  }

  /** The same over any run of events that neither makes the engine ready nor loads a new recorder. */
  lemma {:induction false} NotReadyRunOnlyInitialize(s: State, events: seq<Event>)
    requires WellFormed(s) && HasHandle(s) && !IsReady(s)
    requires forall k :: 0 <= k < |events| ==> !events[k].LoadEvent? && !events[k].ReadyEvent?
    ensures HasHandle(Run(s, events)) && !IsReady(Run(s, events))
    ensures InitializeOnlyAfter(s.handle.value.log, Run(s, events).handle.value.log)
    decreases |events|
  {
    if events == [] {
      assert s.handle.value.log[..|s.handle.value.log|] == s.handle.value.log;
    } else {
      var s1 := Step(s, events[0]);
      NotReadyStepOnlyInitialize(s, events[0]);
      WellFormedStep(s, events[0]);
      NotReadyRunOnlyInitialize(s1, events[1..]);
      InitializeOnlyAfterTrans(s.handle.value.log, s1.handle.value.log, Run(s1, events[1..]).handle.value.log);
    }
  }

  // ---------------------------------------------------------------- delivered once

  /** The recorder call a façade event defers (or `start` schedules), if any. */
  function EventCall(e: Event): seq<Call> {
    match e
    case ErrorEvent(m) => [PushCustomError(m)]
    case TrackEvent(ev, obj) => [AddProperties(TrackPayload(obj, ev))]
    case IdentifyEvent(id, obj) => [Identify(id, obj)]
    case StartEvent => [Initialize(None)]
    case _ => []
  }

  /** How many intervals in `ps` will make call `c`. */
  function Holds(c: Call, ps: seq<Poller>): nat {
    if ps == [] then 0 else Holds(c, ps[..|ps| - 1]) + (if CallOf(ps[|ps| - 1].action) == [c] then 1 else 0)
  }

  lemma {:induction false} HoldsAppend(c: Call, a: seq<Poller>, b: seq<Poller>)
    ensures Holds(c, a + b) == Holds(c, a) + Holds(c, b)
  {
    if b != [] {
      assert (a + b)[..|a + b| - 1] == a + b[..|b| - 1];
      HoldsAppend(c, a, b[..|b| - 1]);
    } else {
      assert a + b == a;
    }
  }

  /** How often the current recorder has received `c`. */
  function Received(c: Call, s: State): nat {
    if HasHandle(s) then Count(c, s.handle.value.log) else 0
  }

  /** Calls `c` received by the current recorder plus those its intervals still hold. */
  function Deliveries(c: Call, s: State): nat {
    Received(c, s) + Holds(c, s.pending)
  }

  lemma PerformDelivers(s: State, a: Action, c: Call)
    requires HasHandle(s)
    ensures var t := Escape(Perform(s, a));
      && HasHandle(t) && t.pending == s.pending
      && Received(c, t) == Received(c, s) + (if CallOf(a) == [c] then 1 else 0)
  {
    var t := Escape(Perform(s, a));
    assert t.handle.value.log == s.handle.value.log + CallOf(a);
    CountAppend(c, s.handle.value.log, CallOf(a));
    if CallOf(a) != [] {
      assert Count(c, CallOf(a)) == Count(c, CallOf(a)[..0]) + (if CallOf(a)[0] == c then 1 else 0);
    }
  }

  lemma DeliveriesFireInto(s: State, p: Poller, c: Call)
    ensures Deliveries(c, FireInto(s, p)) == Deliveries(c, s) + Holds(c, [p])
  {
    assert Holds(c, [p]) == (if CallOf(p.action) == [c] then 1 else 0) by {
      assert [p][..0] == [];
    }
    if Satisfied(s, p.until) {
      PerformDelivers(s, p.action, c);
    } else {
      HoldsAppend(c, s.pending, [p]);
    }
  }

  lemma {:induction false} DeliveriesTickLoop(s: State, todo: seq<Poller>, c: Call)
    ensures Deliveries(c, TickLoop(s, todo)) == Deliveries(c, s) + Holds(c, todo)
    decreases |todo|
  {
    if todo != [] {
      DeliveriesFireInto(s, todo[0], c);
      DeliveriesTickLoop(FireInto(s, todo[0]), todo[1..], c);
      assert todo == [todo[0]] + todo[1..];
      HoldsAppend(c, [todo[0]], todo[1..]);
    }
  }

  /** Taking the `i`-th interval out of `ps`. */
  lemma HoldsRemove(c: Call, ps: seq<Poller>, i: nat)
    requires i < |ps|
    ensures Holds(c, ps) == Holds(c, ps[..i] + ps[i + 1..]) + (if CallOf(ps[i].action) == [c] then 1 else 0)
  {
    var p := ps[i];
    assert ps == ps[..i] + [p] + ps[i + 1..];
    HoldsAppend(c, ps[..i] + [p], ps[i + 1..]);
    HoldsAppend(c, ps[..i], [p]);
    HoldsAppend(c, ps[..i], ps[i + 1..]);
    assert Holds(c, [p]) == (if CallOf(p.action) == [c] then 1 else 0) by {
      assert [p][..0] == [];
    }
  }

  lemma DeliveriesFireInterval(s: State, i: nat, c: Call)
    ensures Deliveries(c, Step(s, FireEvent(i))) == Deliveries(c, s)
  {
    if i < |s.pending| {
      var p := s.pending[i];
      var rest := s.pending[..i] + s.pending[i + 1..];
      HoldsRemove(c, s.pending, i);
      if Satisfied(s, p.until) {
        var s1 := s.(pending := rest);
        assert Step(s, FireEvent(i)) == Escape(Perform(s1, p.action));
        PerformDelivers(s1, p.action, c);
      }
    }
  }

  /** Before readiness the gate leaves the recorder alone and holds the call in one new interval. */
  lemma DeliveriesOnReadyWaits(s: State, a: Action, c: Call)
    requires !IsReady(s)
    ensures OnReady(s, a).handle == s.handle
    ensures Deliveries(c, OnReady(s, a)) == Deliveries(c, s) + (if CallOf(a) == [c] then 1 else 0)
  {
    var q := Poller(HandleReady, a);
    assert Holds(c, [q]) == (if CallOf(a) == [c] then 1 else 0) by {
      assert [q][..0] == [];
    }
    HoldsAppend(c, s.pending, [q]);
  }

  /** On the fast path the gate makes the call at once and, unless it threw, schedules it again. */
  lemma ReadyGate(s: State, a: Action)
    requires IsReady(s)
    ensures var t := OnReady(s, a);
      && t.handle.Some? && t.handle.value.log == s.handle.value.log + CallOf(a)
      && t.pending == s.pending + (if ActionThrows(s, a) then [] else [Poller(HandleReady, a)])
  {
    assert Perform(s, a).1.Some? <==> ActionThrows(s, a);
  }

  /** How often `c` occurs in the call an action makes. */
  lemma CountCallOf(c: Call, a: Action)
    ensures Count(c, CallOf(a)) == (if CallOf(a) == [c] then 1 else 0)
  {
    if CallOf(a) != [] {
      assert Count(c, CallOf(a)) == Count(c, CallOf(a)[..0]) + (if CallOf(a)[0] == c then 1 else 0);
    }
  }

  lemma DeliveriesOnReadyFast(s: State, a: Action, c: Call)
    requires IsReady(s)
    ensures CallOf(a) != [c] ==> Deliveries(c, OnReady(s, a)) == Deliveries(c, s)
    ensures CallOf(a) == [c] ==> Deliveries(c, OnReady(s, a)) == Deliveries(c, s) + (if ActionThrows(s, a) then 1 else 2)
  {
    var t := OnReady(s, a);
    var q := Poller(HandleReady, a);
    var extra := if ActionThrows(s, a) then [] else [q];
    ReadyGate(s, a);
    assert Received(c, t) == Received(c, s) + (if CallOf(a) == [c] then 1 else 0) by {
      CountAppend(c, s.handle.value.log, CallOf(a));
      CountCallOf(c, a);
    }
    assert Holds(c, t.pending) == Holds(c, s.pending) + (if CallOf(a) == [c] && !ActionThrows(s, a) then 1 else 0) by {
      HoldsAppend(c, s.pending, extra);
      assert [q][..0] == [];
    }
  }

  /** The gate adds the deferred call once when it waits, and twice (or once, if it throws) on the fast path. */
  lemma DeliveriesOnReady(s: State, a: Action, c: Call)
    ensures CallOf(a) != [c] ==> Deliveries(c, OnReady(s, a)) == Deliveries(c, s)
    ensures CallOf(a) == [c] && !IsReady(s) ==> Deliveries(c, OnReady(s, a)) == Deliveries(c, s) + 1
    ensures CallOf(a) == [c] && IsReady(s) ==> Deliveries(c, OnReady(s, a)) == Deliveries(c, s) + (if ActionThrows(s, a) then 1 else 2)
  {
    if IsReady(s) {
      DeliveriesOnReadyFast(s, a, c);
    } else {
      DeliveriesOnReadyWaits(s, a, c);
    }
  }

  lemma DeliveriesStart(s: State, c: Call)
    requires c != Initialize(None)
    ensures Deliveries(c, Step(s, StartEvent)) == Deliveries(c, s)
  {
    var q := Poller(HandleExists, StartRecording);
    assert Holds(c, [q]) == 0 by {
      assert [q][..0] == [];
    }
    HoldsAppend(c, s.pending, [q]);
  }

  /** Every event but a load and a call with the same payload conserves the deliveries of `c`. */
  lemma DeliveriesStep(s: State, e: Event, c: Call)
    requires !e.LoadEvent? && EventCall(e) != [c]
    ensures Deliveries(c, Step(s, e)) == Deliveries(c, s)
  {
    if RecorderCall(e) {
      DeliveriesRecorderCall(s, e, c);
    } else {
      match e
      case TickEvent => DeliveriesTick(s, c);
      case FireEvent(i) => DeliveriesFireInterval(s, i, c);
      case StartEvent => DeliveriesStart(s, c);
      case SessionURLEvent => DeliveriesSessionURL(s, c);
      case OnReadyEvent(cb) => DeliveriesCallback(s, cb, c);
      case InitEvent(o, op, m, hh) => DeliveriesInit(s, o, op, m, hh, c);
      case ReadyEvent(sid) => DeliveriesEngineReady(s, sid, c);
    }
  }

  lemma DeliveriesRecorderCall(s: State, e: Event, c: Call)
    requires RecorderCall(e) && EventCall(e) != [c]
    ensures Deliveries(c, Step(s, e)) == Deliveries(c, s)
  {
    StepRecorderCall(s, e);
    DeliveriesOnReady(s, CallAction(e), c);
  }

  lemma DeliveriesTick(s: State, c: Call)
    ensures Deliveries(c, Step(s, TickEvent)) == Deliveries(c, s)
  {
    DeliveriesTickLoop(s.(pending := []), s.pending, c);
  }

  lemma DeliveriesCallback(s: State, cb: nat, c: Call)
    ensures Deliveries(c, Step(s, OnReadyEvent(cb))) == Deliveries(c, s)
  {
    DeliveriesOnReady(s, RunCallback(cb), c);
  }

  lemma DeliveriesInit(s: State, orgID: Ident, options: Option<Options>, millis: Millis, hasHead: bool, c: Call)
    ensures Deliveries(c, Step(s, InitEvent(orgID, options, millis, hasHead))) == Deliveries(c, s)
  {
    var t := Step(s, InitEvent(orgID, options, millis, hasHead));
    assert t.handle == s.handle && t.pending == s.pending;
  }

  lemma DeliveriesSessionURL(s: State, c: Call)
    ensures Deliveries(c, Step(s, SessionURLEvent)) == Deliveries(c, s)
  {
    var s1 := s.(promises := s.promises + [Pending]);
    DeliveriesOnReady(s1, SettleSessionURL(|s.promises|), c);
    assert Deliveries(c, s1) == Deliveries(c, s);
  }

  lemma DeliveriesEngineReady(s: State, sid: Option<string>, c: Call)
    ensures Deliveries(c, Step(s, ReadyEvent(sid))) == Deliveries(c, s)
  {
    assert Step(s, ReadyEvent(sid)).pending == s.pending;
    assert Received(c, Step(s, ReadyEvent(sid))) == Received(c, s);
  }

  /** A load replaces the recorder: for a call other than `initialize` the count can only drop. */
  lemma DeliveriesLoad(s: State, i: nat, builds: bool, faults: set<Method>, c: Call)
    requires !c.Initialize?
    ensures Deliveries(c, Step(s, LoadEvent(i, builds, faults))) <= Deliveries(c, s)
  {
    var t := Step(s, LoadEvent(i, builds, faults));
    assert t.pending == s.pending;
    if i < |s.listeners| && builds {
      var log := t.handle.value.log;
      assert log == [] || log == [Initialize(Some(s.listeners[i].orgID))];
      if log != [] {
        assert Count(c, log) == Count(c, log[..0]) + 0;
      }
    }
  }

  /** No event conserves less: over any run without another call `c`, deliveries of `c` never grow. */
  lemma {:induction false} DeliveriesRun(s: State, events: seq<Event>, c: Call)
    requires !c.Initialize?
    requires forall k :: 0 <= k < |events| ==> EventCall(events[k]) != [c]
    ensures Deliveries(c, Run(s, events)) <= Deliveries(c, s)
    ensures (forall k :: 0 <= k < |events| ==> !events[k].LoadEvent?) ==> Deliveries(c, Run(s, events)) == Deliveries(c, s)
    decreases |events|
  {
    if events != [] {
      var e := events[0];
      if e.LoadEvent? {
        DeliveriesLoad(s, e.index, e.builds, e.faults, c);
      } else {
        DeliveriesStep(s, e, c);
      }
      DeliveriesRun(Step(s, e), events[1..], c);
      if forall k :: 0 <= k < |events| ==> !events[k].LoadEvent? {
        assert !e.LoadEvent?;
      }
    }
  }

  /** `track`, `identify` and `error`: the façade calls whose work is one recorder call. */
  predicate RecorderCall(e: Event) {
    e.ErrorEvent? || e.TrackEvent? || e.IdentifyEvent?
  }

  /** The deferred body of such a call. */
  function CallAction(e: Event): Action
    requires RecorderCall(e)
  {
    match e
    case ErrorEvent(m) => PushError(m)
    case TrackEvent(ev, obj) => AddProps(ev, obj)
    case IdentifyEvent(id, obj) => IdentifyUser(id, obj)
  }

  lemma StepRecorderCall(s: State, e: Event)
    requires RecorderCall(e)
    ensures Step(s, e) == OnReady(s, CallAction(e))
    ensures CallOf(CallAction(e)) == EventCall(e) && |EventCall(e)| == 1
  {
  }

  /**
   * A `track`, `identify` or `error` made before readiness schedules its call
   * once and hands the recorder nothing; whatever happens after (other than
   * another call with the same payload), the current recorder receives it at
   * most once, and with no new load it is either received once or still held
   * by one interval.
   */
  lemma SlowPathDeliveredAtMostOnce(s: State, e: Event, events: seq<Event>)
    requires RecorderCall(e) && !IsReady(s) && Deliveries(EventCall(e)[0], s) == 0
    requires forall k :: 0 <= k < |events| ==> EventCall(events[k]) != EventCall(e)
    ensures var c := EventCall(e)[0];
      var t := Run(Step(s, e), events);
      && Step(s, e).handle == s.handle
      && Deliveries(c, Step(s, e)) == 1
      && Received(c, t) <= 1
      && ((forall k :: 0 <= k < |events| ==> !events[k].LoadEvent?) ==> Deliveries(c, t) == 1)
  {
    StepRecorderCall(s, e);
    var c := EventCall(e)[0];
    assert EventCall(e) == [c];
    DeliveriesOnReadyWaits(s, CallAction(e), c);
    DeliveriesRun(Step(s, e), events, c);
  }

  /**
   * With no new load, the first tick once the recorder is ready hands it the
   * held call: it has then received it exactly once.
   */
  lemma ReadyTickDeliversOnce(t: State, c: Call)
    requires IsReady(t) && Deliveries(c, t) == 1
    ensures Received(c, Tick(t)) == 1 && Deliveries(c, Tick(t)) == 1
  {
    DeliveriesTickLoop(t.(pending := []), t.pending, c);
    TickWhenReady(t);
  }
}
