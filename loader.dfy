/**
 * The loader object `H` with its module-level state as fields, updated in
 * place by the façade calls and by the event-loop callbacks (script load,
 * interval ticks). Each method is proved to perform exactly the transition
 * `Dispatch` defines for it.
 */
module Loader {
  import opened Wrappers
  import opened Values
  import opened Config
  import opened Recorders
  import opened Dispatch

  class Loader {
    var options: Option<Options>
    var scriptSrc: Option<string>
    var listeners: seq<Listener>
    var handle: Option<Recorder>
    var constructed: nat
    var pending: seq<Poller>
    var promises: seq<Settlement>
    var callbackRuns: seq<nat>
    var warnings: seq<Warning>
    var uncaught: seq<Fault>

    /** The loader's state as a value. */
    function Snapshot(): State
      reads this
    {
      State(options, scriptSrc, listeners, handle, constructed, pending, promises, callbackRuns, warnings, uncaught)
    }

    constructor ()
      ensures Snapshot() == INITIAL
    {
      options, scriptSrc, listeners, handle, constructed := None, None, [], None, 0;
      pending, promises, callbackRuns, warnings, uncaught := [], [], [], [], [];
    }

    /** The recorder receives `c`; `thrown` is set when that method throws. */
    method Deliver(c: Call) returns (thrown: Option<Fault>)
      requires handle.Some?
      modifies this
      ensures (Snapshot(), thrown) == Dispatch.Deliver(old(Snapshot()), c)
    {
      var h := handle.value;
      handle := Some(h.(log := h.log + [c]));
      thrown := if MethodOf(c) in h.faults then Some(RecorderThrew(MethodOf(c))) else None;
    }

    method Perform(a: Action) returns (thrown: Option<Fault>)
      requires handle.Some?
      modifies this
      ensures (Snapshot(), thrown) == Dispatch.Perform(old(Snapshot()), a)
    {
      match a {
        case PushError(m) =>
          thrown := Deliver(PushCustomError(m));
        case AddProps(event, obj) =>
          thrown := Deliver(AddProperties(TrackPayload(obj, event)));
        case IdentifyUser(id, obj) =>
          thrown := Deliver(Recorders.Identify(id, obj));
        case StartRecording =>
          thrown := Deliver(Initialize(None));
        case SettleSessionURL(p) =>
          var outcome := SessionURL(handle.value.OrganizationID(), handle.value.sessionID);
          if p < |promises| && promises[p].Pending? {
            promises := promises[p := Settled(outcome)];
          }
          thrown := None;
        case RunCallback(cb) =>
          callbackRuns := callbackRuns + [cb];
          thrown := None;
      }
    }

    /** `onHighlightReady` with the deferred action `a`. */
    method OnReady(a: Action)
      modifies this
      ensures Snapshot() == Dispatch.OnReady(old(Snapshot()), a)
    {
      if handle.Some? && handle.value.ready {
        var thrown := Perform(a);
        if thrown.Some? {
          warnings := warnings + [HighlightWarning("onHighlightReady", thrown.value)];
          return;
        }
      }
      pending := pending + [Poller(HandleReady, a)];
    }

    /** The interval callback of `p`, which the caller has taken out of `pending`. */
    method FireInto(p: Poller)
      modifies this
      ensures Snapshot() == Dispatch.FireInto(old(Snapshot()), p)
    {
      if Satisfied(Snapshot(), p.until) {
        var thrown := Perform(p.action);
        if thrown.Some? {
          uncaught := uncaught + [thrown.value];
        }
      } else {
        pending := pending + [p];
      }
    }

    /** A 200 ms tick: each live interval fires once, oldest first. */
    method Tick()
      modifies this
      ensures Snapshot() == Dispatch.Tick(old(Snapshot()))
    {
      var todo := pending;
      pending := [];
      var i := 0;
      while i < |todo|
        invariant 0 <= i <= |todo|
        invariant TickLoop(Snapshot(), todo[i..]) == Dispatch.Tick(old(Snapshot()))
      {
        assert todo[i..][1..] == todo[i + 1..];
        FireInto(todo[i]);
        i := i + 1;
      }
    }

    /** The `i`-th live interval fires on its own. */
    method FireInterval(i: nat)
      requires i < |pending|
      modifies this
      ensures Snapshot() == Dispatch.FireInterval(old(Snapshot()), i)
    {
      var p := pending[i];
      if Satisfied(Snapshot(), p.until) {
        pending := pending[..i] + pending[i + 1..];
        var thrown := Perform(p.action);
        if thrown.Some? {
          uncaught := uncaught + [thrown.value];
        }
      }
    }

    /** `H.init(orgID, options)`; `millis` is the clock's millisecond field, `hasHead` whether the page has a head. */
    method Init(orgID: Ident, opts: Option<Options>, millis: Millis, hasHead: bool)
      modifies this
      ensures Snapshot() == Dispatch.Init(old(Snapshot()), orgID, opts, millis, hasHead)
    {
      options := opts;
      scriptSrc := Some(ScriptSource(opts, millis));
      if hasHead {
        listeners := listeners + [Listener(orgID, opts)];
      } else {
        warnings := warnings + [HighlightWarning("init", DomError)];
      }
    }

    /** The load event of the `i`-th waiting script element. */
    method ScriptLoaded(i: nat, builds: bool, faults: set<Method>)
      requires i < |listeners|
      modifies this
      ensures Snapshot() == Dispatch.ScriptLoaded(old(Snapshot()), i, builds, faults)
    {
      var l := listeners[i];
      listeners := listeners[..i] + listeners[i + 1..];
      if !builds {
        uncaught := uncaught + [ConstructorThrew];
        return;
      }
      handle := Some(Recorder(ClassOptionsOf(l.orgID, l.options), false, None, faults, []));
      constructed := constructed + 1;
      if !ManualStart(l.options) {
        var thrown := Deliver(Initialize(Some(l.orgID)));
        if thrown.Some? {
          uncaught := uncaught + [thrown.value];
        }
      }
    }

    /** The recording engine reports itself ready, with its session identifier. */
    method EngineReady(sessionID: Option<string>)
      modifies this
      ensures Snapshot() == Dispatch.EngineReady(old(Snapshot()), sessionID)
    {
      if handle.Some? {
        handle := Some(handle.value.(ready := true, sessionID := sessionID));
      }
    }

    method Error(message: string)
      modifies this
      ensures Snapshot() == Dispatch.Error(old(Snapshot()), message)
    {
      OnReady(PushError(message));
    }

    method Track(event: string, obj: Value)
      modifies this
      ensures Snapshot() == Dispatch.Track(old(Snapshot()), event, obj)
    {
      OnReady(AddProps(event, obj));
    }

    method Identify(identifier: string, obj: Value)
      modifies this
      ensures Snapshot() == Dispatch.IdentifyCall(old(Snapshot()), identifier, obj)
    {
      OnReady(IdentifyUser(identifier, obj));
    }

    /** `getSessionURL()`; `promise` numbers the returned promise in `promises`. */
    method GetSessionURL() returns (promise: nat)
      modifies this
      ensures (Snapshot(), promise) == Dispatch.GetSessionURL(old(Snapshot()))
    {
      promise := |promises|;
      promises := promises + [Pending];
      OnReady(SettleSessionURL(promise));
    }

    method Start()
      modifies this
      ensures Snapshot() == Dispatch.Start(old(Snapshot()))
    {
      if ManualStart(options) {
        pending := pending + [Poller(HandleExists, StartRecording)];
      } else {
        warnings := warnings + [ConsoleWarning(START_MISUSE)];
      }
    }

    /** `onHighlightReady(func)`, the callback named by `callback`. */
    method OnHighlightReady(callback: nat)
      modifies this
      ensures Snapshot() == Dispatch.OnHighlightReady(old(Snapshot()), callback)
    {
      OnReady(RunCallback(callback));
    }
  }
}
