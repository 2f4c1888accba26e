/**
 * The fast path of `onHighlightReady` runs the deferred action at once but
 * does not return, so it also schedules an interval that runs the action a
 * second time on the next tick. For `track`, `identify` and `error` this
 * hands the recorder the same call twice. `OnReadyFixed` is the gate with the
 * missing early return; with it every deferred action runs exactly once.
 */
module FastPath {
  import opened Wrappers
  import opened Values
  import opened Recorders
  import opened Dispatch
  import opened DispatchProperties

  /** As written: `track` on a ready recorder, then one tick, delivers the payload twice. */
  lemma TrackDeliveredTwice(s: State, event: string, obj: Value)
    requires IsReady(s) && s.pending == [] && AddPropertiesMethod !in s.handle.value.faults
    ensures var t := Tick(Track(s, event, obj));
      && t.handle.Some?
      && t.handle.value.log == s.handle.value.log + [AddProperties(TrackPayload(obj, event)), AddProperties(TrackPayload(obj, event))]
  {
    var s1 := Track(s, event, obj);
    TrackWhenReady(s, event, obj);
    TickWhenReady(s1);
    assert CallsOf(s1.pending) == [AddProperties(TrackPayload(obj, event))];
  }

  /**
   * `onHighlightReady` with `return` after the synchronous call: a ready
   * recorder gets the action's call (or the callback runs, or the promise
   * settles) at once, a throw is logged, and no interval is scheduled.
   */
  function OnReadyFixed(s: State, a: Action): (r: State)
    ensures IsReady(s) ==> r.pending == s.pending
    ensures IsReady(s) ==> r.handle.Some? && r.handle.value == s.handle.value.(log := s.handle.value.log + CallOf(a))
    ensures IsReady(s) ==> r.callbackRuns == s.callbackRuns + (if a.RunCallback? then [a.callback] else [])
    ensures IsReady(s) ==> (r.promises ==
      if a.SettleSessionURL? then Settle(s, a.promise, SessionURL(s.handle.value.OrganizationID(), s.handle.value.sessionID)).promises
      else s.promises)
    ensures IsReady(s) ==> r.uncaught == s.uncaught
    ensures IsReady(s) ==> (r.warnings == s.warnings +
      if ActionThrows(s, a) then [HighlightWarning("onHighlightReady", RecorderThrew(MethodOf(CallOf(a)[0])))] else [])
    ensures !IsReady(s) ==> r == s.(pending := s.pending + [Poller(HandleReady, a)])
  {
    if IsReady(s) then
      var (s1, thrown) := Perform(s, a);
      if thrown.Some? then s1.(warnings := s1.warnings + [HighlightWarning("onHighlightReady", thrown.value)])
      else s1
    else
      s.(pending := s.pending + [Poller(HandleReady, a)])
  }

  /** Corrected: `track` on a ready recorder, then any tick, delivers the payload exactly once. */
  lemma FixedTrackDeliveredOnce(s: State, event: string, obj: Value)
    requires IsReady(s) && s.pending == []
    ensures var t := Tick(OnReadyFixed(s, AddProps(event, obj)));
      && t.handle.Some?
      && t.handle.value.log == s.handle.value.log + [AddProperties(TrackPayload(obj, event))]
      && t.pending == []
  {
    var s1 := OnReadyFixed(s, AddProps(event, obj));
    assert IsReady(s1);
    TickWhenReady(s1);
  }

  /**
   * Corrected: a callback handed to the fixed gate is scheduled or run exactly
   * once in total, ready or not; every later event conserves that total.
   */
  lemma FixedGateRunsOnce(s: State, cb: nat)
    ensures Total(cb, OnReadyFixed(s, RunCallback(cb))) == Total(cb, s) + 1
    ensures IsReady(s) ==> Count(cb, OnReadyFixed(s, RunCallback(cb)).callbackRuns) == Count(cb, s.callbackRuns) + 1
  {
    if IsReady(s) {
      PerformCallbacks(s, RunCallback(cb), cb);
    } else {
      WaitsAppend(cb, s.pending, [Poller(HandleReady, RunCallback(cb))]);
    }
  }
}
