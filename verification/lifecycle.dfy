/**
 startbus and stopbus: installing the bridge on a connection with
 all-or-nothing rollback, and tearing it down again.
 */
module Lifecycle {
  import opened Flags
  import opened Bridge
  import opened Pending

  /** No bridge attached: descriptor closed and no callback family installed. */
  predicate Unstarted(st: State) {
    st.efd.None? && !st.conn.statusFn && !st.conn.watchFns && !st.conn.timeoutFns
  }

  /** The `fail:` path of startbus: close the descriptor (efd = -1) and reset
      all three callback families to none. No bus source exists at this
      point, so there is none to remove. */
  function Abort(st: State): (r: Step<Option<SourceId>>)
    ensures r.ret.None? && r.calls == [] && Unstarted(r.st)
    ensures r.st.loop == st.loop && r.st.watches == st.watches && r.st.timeouts == st.timeouts
    ensures r.st.conn.exitOnDisconnect == st.conn.exitOnDisconnect && r.st.conn.status == st.conn.status
  {
    Step(st.(efd := None, conn := st.conn.(statusFn := false, watchFns := false, timeoutFns := false)), None, [])
  }

  /** startbus. The four external results are whether eventfd() succeeded,
      whether dbus_connection_set_watch_functions and
      dbus_connection_set_timeout_functions returned TRUE, and whether
      wl_event_loop_add_fd returned a source. The result is the bus source,
      or None (NULL) when any step failed. Installing a callback family
      makes libdbus run its add callback on every existing watch or timeout,
      and resetting one runs the remove callback; those calls are not part
      of this function, which is why it leaves the handles and their slots
      untouched. */
  function StartBus(st: State, eventfdOk: bool, watchFnsOk: bool, timeoutFnsOk: bool, addFdOk: bool)
    : (r: Step<Option<SourceId>>)
    ensures r.calls == []
    ensures r.st.watches == st.watches && r.st.timeouts == st.timeouts
    ensures !r.st.conn.exitOnDisconnect && r.st.conn.status == st.conn.status
    ensures r.ret.Some? <==> eventfdOk && watchFnsOk && timeoutFnsOk && addFdOk
    ensures r.ret.None? ==> Unstarted(r.st) && r.st.loop == st.loop
    ensures r.ret.Some? ==>
              && r.st.conn.statusFn && r.st.conn.watchFns && r.st.conn.timeoutFns
              && r.ret.value !in st.loop.sources
              && r.st.loop.sources == st.loop.sources[r.ret.value := BusSource({WlReadable})]
              && r.st.efd == Some(if st.conn.status == DataRemains then 1 else 0)
  {
    var s0 := st.(conn := st.conn.(exitOnDisconnect := false));
    if !eventfdOk then
      Abort(s0)
    else
      var s1 := s0.(efd := Some(0), conn := s0.conn.(statusFn := true));
      if !watchFnsOk then
        Abort(s1)
      else
        var s2 := s1.(conn := s1.conn.(watchFns := true));
        if !timeoutFnsOk then
          Abort(s2)
        else
          var s3 := s2.(conn := s2.conn.(timeoutFns := true));
          var (loop', bus) := AddOrFail(s3.loop, BusSource({WlReadable}), addFdOk);
          if bus.None? then
            Abort(s3)
          else
            var s4 := s3.(loop := loop');
            // messages queued before the bridge existed prime the flag
            if s4.conn.status == DataRemains then Step(s4.(efd := Raise(s4.efd)), bus, [])
            else Step(s4, bus, [])
  }

  /** stopbus: removes the bus source, closes the descriptor (efd = -1) and
      resets all three callback families. */
  function StopBus(st: State, bus: SourceId): (r: Step<()>)
    ensures Unstarted(r.st)
    ensures r.st.loop.sources == st.loop.sources - {bus} && r.st.loop.next == st.loop.next
    ensures r.calls == [LoopSourceRemove(bus)]
    ensures r.st.watches == st.watches && r.st.timeouts == st.timeouts
    ensures r.st.conn.exitOnDisconnect == st.conn.exitOnDisconnect && r.st.conn.status == st.conn.status
  {
    var st' := st.(loop := RemoveSource(st.loop, bus), efd := None);
    Step(st'.(conn := st'.conn.(statusFn := false, watchFns := false, timeoutFns := false)), (), [LoopSourceRemove(bus)])
  }

  /** Rollback: a failed start on an unstarted bridge leaves the modelled
      state as it was, except that exit_on_disconnect has been switched off.
      The add and remove callbacks libdbus runs on install and reset are
      outside StartBus. */
  lemma StartFailureRollsBack(st: State, eventfdOk: bool, watchFnsOk: bool, timeoutFnsOk: bool, addFdOk: bool)
    requires Unstarted(st)
    requires !(eventfdOk && watchFnsOk && timeoutFnsOk && addFdOk)
    ensures StartBus(st, eventfdOk, watchFnsOk, timeoutFnsOk, addFdOk).st
              == st.(conn := st.conn.(exitOnDisconnect := false))
  {
  }

  /** A successful start followed by stop restores the loop's sources and
      the unstarted state, as far as StartBus and StopBus go: the add and
      remove callbacks run on install and reset are outside them. */
  lemma StartThenStop(st: State)
    requires Unstarted(st)
    ensures var started := StartBus(st, true, true, true, true);
            var stopped := StopBus(started.st, started.ret.value).st;
            stopped.loop.sources == st.loop.sources
            && stopped.watches == st.watches && stopped.timeouts == st.timeouts
            && stopped.efd == st.efd
            && stopped.conn == st.conn.(exitOnDisconnect := false)
  {
    var started := StartBus(st, true, true, true, true);
    var id := started.ret.value;
    assert started.st.loop.sources - {id} == st.loop.sources;
  }

  /** Startup priming: on a connection that already has data remaining, the
      very first host-loop iteration after a successful start dispatches. */
  lemma StartPrimesDispatch(st: State, rounds: seq<Round>)
    requires st.conn.status == DataRemains && |rounds| > 0
    ensures var started := StartBus(st, true, true, true, true);
            EfdReadable(started.st) && Pump(started.st, rounds).ret >= 1
  {
  }

  /** Without queued data a fresh bridge does not dispatch until raised. */
  lemma StartWithoutDataIsQuiet(st: State, rounds: seq<Round>)
    requires st.conn.status != DataRemains
    ensures var started := StartBus(st, true, true, true, true);
            Pump(started.st, rounds).ret == 0
  {
  }

  /** A corollary of the StartBus and StopBus contracts: start and stop keep
      the registry invariant. */
  lemma LifecycleKeepsOwnership(st: State, eventfdOk: bool, watchFnsOk: bool, timeoutFnsOk: bool, addFdOk: bool, bus: SourceId)
    requires Owned(st)
    ensures Owned(StartBus(st, eventfdOk, watchFnsOk, timeoutFnsOk, addFdOk).st)
    ensures Owned(StopBus(st, bus).st)
  {
    var started := StartBus(st, eventfdOk, watchFnsOk, timeoutFnsOk, addFdOk).st;
    forall k | k in started.loop.sources
      ensures SourceOwned(started, k)
    {
      if k in st.loop.sources {
        assert SourceOwned(st, k);
      }
    }
    var stopped := StopBus(st, bus).st;
    forall k | k in stopped.loop.sources
      ensures SourceOwned(stopped, k)
    {
      assert SourceOwned(st, k);
    }
  }
}
