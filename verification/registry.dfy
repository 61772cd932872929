/**
 The watch and timeout callbacks dwl/dbus.c installs on the connection, as
 transitions of the bridge state, and the registry invariant they keep.
 */
module Registry {
  import opened Flags
  import opened Bridge
  import opened Pending

  // ---------------------------------------------------------------------
  // Watches

  /** dwl_dbus_watch_handle: the host loop reports `mask` on a watch's
      descriptor; an enabled watch has the translated flags forwarded to
      dbus_watch_handle, a disabled one has nothing forwarded. While
      dbus_watch_handle runs, libdbus may report new dispatch statuses
      (`notices`) to the installed dwl_dbus_dispatch_status, which is how a
      newly read message raises the pending flag. */
  function OnWatchReady(st: State, w: WatchId, mask: set<WlEvent>, notices: seq<DispatchStatus>): (r: Step<int>)
    requires w in st.watches
    ensures r.ret == 0
    ensures r.st.loop == st.loop && r.st.watches == st.watches && r.st.timeouts == st.timeouts
    ensures r.st.conn == st.conn.(status := r.st.conn.status)
    ensures |r.calls| <= 1
    ensures r.calls != [] <==> st.watches[w].enabled
    ensures forall c :: c in r.calls ==>
              c.BusWatchHandle? && c.watch == w
              && (BusReadable in c.flags <==> WlReadable in mask)
              && (BusWritable in c.flags <==> WlWritable in mask)
              && (BusHangup in c.flags <==> WlHangup in mask)
              && (BusError in c.flags <==> WlError in mask)
    ensures !st.watches[w].enabled ==> r.st == st
    ensures r.st.efd.Some? <==> st.efd.Some?
    ensures st.watches[w].enabled && st.efd.Some? ==>
              r.st.efd.value == st.efd.value + CountRemains(notices)
  {
    if !st.watches[w].enabled then Step(st, 0, [])
    else Step(Notify(st, notices), 0, [BusWatchHandle(w, ReadyFlags(mask))])
  }

  /** dwl_dbus_add_watch, as written: a disabled watch is accepted with no
      source; an enabled one gets an fd source on its descriptor whose mask
      holds only the readable/writable interest, and the data slot receives
      whatever wl_event_loop_add_fd returned (None when it failed). The
      result is TRUE in every case. */
  function AddWatch(st: State, w: WatchId, addFdOk: bool): (r: Step<bool>)
    requires w in st.watches
    ensures r.ret && r.calls == []
    ensures r.st.efd == st.efd && r.st.conn == st.conn && r.st.timeouts == st.timeouts
    ensures r.st.watches.Keys == st.watches.Keys
    ensures forall v :: v in st.watches && v != w ==> r.st.watches[v] == st.watches[v]
    ensures !st.watches[w].enabled ==> r.st == st
    ensures st.watches[w].enabled ==>
              r.st.watches[w] == st.watches[w].(data := r.st.watches[w].data)
    ensures st.watches[w].enabled && addFdOk ==>
              r.st.watches[w].data.Some?
              && r.st.watches[w].data.value !in st.loop.sources
              && SlotAllocated(r.st.watches[w].data, r.st.loop)
              && r.st.loop.sources == st.loop.sources[r.st.watches[w].data.value :=
                   WatchSource(st.watches[w].fd, InterestMask(st.watches[w].flags), w)]
    ensures st.watches[w].enabled && !addFdOk ==>
              r.st.loop == st.loop && r.st.watches[w].data.None?
  {
    var watch := st.watches[w];
    if !watch.enabled then
      Step(st, true, [])
    else
      var (loop', source) := AddOrFail(st.loop, WatchSource(watch.fd, InterestMask(watch.flags), w), addFdOk);
      Step(st.(loop := loop', watches := st.watches[w := watch.(data := source)]), true, [])
  }

  /** dwl_dbus_add_watch as evidently intended: a failed registration is
      reported as FALSE and leaves no trace. */
  function AddWatchChecked(st: State, w: WatchId, addFdOk: bool): (r: Step<bool>)
    requires w in st.watches
    ensures r.ret <==> !st.watches[w].enabled || addFdOk
    ensures !r.ret ==> r.st == st
    ensures r.ret ==> r == AddWatch(st, w, addFdOk)
  {
    if st.watches[w].enabled && !addFdOk then Step(st, false, [])
    else AddWatch(st, w, addFdOk)
  }

  /** dwl_dbus_remove_watch: removes the stored source, and only it; a no-op
      on an empty slot. The slot itself is left as it was. */
  function RemoveWatch(st: State, w: WatchId): (r: Step<()>)
    requires w in st.watches
    ensures r.st.watches == st.watches && r.st.timeouts == st.timeouts
    ensures r.st.efd == st.efd && r.st.conn == st.conn && r.st.loop.next == st.loop.next
    ensures st.watches[w].data.None? ==> r.st == st && r.calls == []
    ensures st.watches[w].data.Some? ==>
              var id := st.watches[w].data.value;
              r.st.loop.sources == st.loop.sources - {id} && r.calls == [LoopSourceRemove(id)]
  {
    match st.watches[w].data
    case None => Step(st, (), [])
    case Some(id) => Step(st.(loop := RemoveSource(st.loop, id)), (), [LoopSourceRemove(id)])
  }

  /** dwl_dbus_remove_watch as evidently intended: the stored source is
      removed as written, and the data slot is then cleared, so that no later
      callback can reach the removed source through it. */
  function RemoveWatchClearing(st: State, w: WatchId): (r: Step<()>)
    requires w in st.watches
    ensures r.st.timeouts == st.timeouts && r.st.efd == st.efd && r.st.conn == st.conn
    ensures r.st.loop.next == st.loop.next && r.st.watches.Keys == st.watches.Keys
    ensures r.st.watches[w] == st.watches[w].(data := None)
    ensures forall v :: v in st.watches && v != w ==> r.st.watches[v] == st.watches[v]
    ensures st.watches[w].data.None? ==> r.st.loop == st.loop && r.calls == []
    ensures st.watches[w].data.Some? ==>
              var id := st.watches[w].data.value;
              r.st.loop.sources == st.loop.sources - {id} && r.calls == [LoopSourceRemove(id)]
  {
    var removed := RemoveWatch(st, w);
    Step(removed.st.(watches := st.watches[w := st.watches[w].(data := None)]), (), removed.calls)
  }

  // ---------------------------------------------------------------------
  // Timeouts

  /** dwl_dbus_timeout_handle: an enabled timeout has its expiry forwarded
      to dbus_timeout_handle, a disabled one has nothing forwarded. Status
      reports libdbus makes meanwhile (`notices`) reach
      dwl_dbus_dispatch_status. */
  function OnTimeoutExpired(st: State, t: TimeoutId, notices: seq<DispatchStatus>): (r: Step<int>)
    requires t in st.timeouts
    ensures r.ret == 0
    ensures r.st.loop == st.loop && r.st.watches == st.watches && r.st.timeouts == st.timeouts
    ensures r.st.conn == st.conn.(status := r.st.conn.status)
    ensures st.timeouts[t].enabled ==> r.calls == [BusTimeoutHandle(t)]
    ensures !st.timeouts[t].enabled ==> r.calls == [] && r.st == st
    ensures r.st.efd.Some? <==> st.efd.Some?
    ensures st.timeouts[t].enabled && st.efd.Some? ==>
              r.st.efd.value == st.efd.value + CountRemains(notices)
  {
    if st.timeouts[t].enabled then Step(Notify(st, notices), 0, [BusTimeoutHandle(t)])
    else Step(st, 0, [])
  }

  /** dwl_dbus_add_timeout: a disabled timeout is accepted with no source.
      Otherwise a timer source is created and armed with the bus interval;
      if arming fails that source is removed again and FALSE is returned
      with the slot untouched; on success the source is stored in the slot. */
  function AddTimeout(st: State, t: TimeoutId, armOk: bool): (r: Step<bool>)
    requires t in st.timeouts
    ensures r.st.efd == st.efd && r.st.conn == st.conn && r.st.watches == st.watches
    ensures r.st.timeouts.Keys == st.timeouts.Keys
    ensures forall u :: u in st.timeouts && u != t ==> r.st.timeouts[u] == st.timeouts[u]
    ensures r.ret <==> !st.timeouts[t].enabled || armOk
    ensures !st.timeouts[t].enabled ==> r.st == st && r.calls == []
    ensures st.timeouts[t].enabled && !armOk ==>
              r.st.loop.sources == st.loop.sources && r.st.timeouts == st.timeouts
              && |r.calls| == 2 && r.calls[0].LoopTimerUpdate?
              && r.calls[0].source !in st.loop.sources
              && r.calls[0].interval == st.timeouts[t].interval
              && r.calls[1] == LoopSourceRemove(r.calls[0].source)
    ensures st.timeouts[t].enabled && armOk ==>
              r.st.timeouts[t] == st.timeouts[t].(data := r.st.timeouts[t].data)
              && r.st.timeouts[t].data.Some?
              && r.st.timeouts[t].data.value !in st.loop.sources
              && SlotAllocated(r.st.timeouts[t].data, r.st.loop)
              && r.st.loop.sources == st.loop.sources[r.st.timeouts[t].data.value :=
                   TimerSource(st.timeouts[t].interval, t)]
              && r.calls == [LoopTimerUpdate(r.st.timeouts[t].data.value, st.timeouts[t].interval)]
  {
    var timeout := st.timeouts[t];
    if !timeout.enabled then
      Step(st, true, [])
    else
      // a new timer is created disarmed
      var (l1, id) := AddSource(st.loop, TimerSource(0, t));
      var l2 := TimerUpdate(l1, id, timeout.interval, armOk);
      if !armOk then
        Step(st.(loop := RemoveSource(l2, id)), false,
             [LoopTimerUpdate(id, timeout.interval), LoopSourceRemove(id)])
      else
        Step(st.(loop := l2, timeouts := st.timeouts[t := timeout.(data := Some(id))]), true,
             [LoopTimerUpdate(id, timeout.interval)])
  }

  /** dwl_dbus_remove_timeout: disarms the stored timer (interval 0), then
      removes it and no other source; a no-op on an empty slot. The slot is
      left as it was. */
  function RemoveTimeout(st: State, t: TimeoutId): (r: Step<()>)
    requires t in st.timeouts
    ensures r.st.watches == st.watches && r.st.timeouts == st.timeouts
    ensures r.st.efd == st.efd && r.st.conn == st.conn && r.st.loop.next == st.loop.next
    ensures st.timeouts[t].data.None? ==> r.st == st && r.calls == []
    ensures st.timeouts[t].data.Some? ==>
              var id := st.timeouts[t].data.value;
              r.st.loop.sources == st.loop.sources - {id}
              && r.calls == [LoopTimerUpdate(id, 0), LoopSourceRemove(id)]
  {
    match st.timeouts[t].data
    case None => Step(st, (), [])
    case Some(id) =>
      // the result of disarming is ignored; the source is removed either way
      var disarmed := TimerUpdate(st.loop, id, 0, true);
      Step(st.(loop := RemoveSource(disarmed, id)), (), [LoopTimerUpdate(id, 0), LoopSourceRemove(id)])
  }

  /** dwl_dbus_remove_timeout as evidently intended: disarm and remove as
      written, then clear the data slot. */
  function RemoveTimeoutClearing(st: State, t: TimeoutId): (r: Step<()>)
    requires t in st.timeouts
    ensures r.st.watches == st.watches && r.st.efd == st.efd && r.st.conn == st.conn
    ensures r.st.loop.next == st.loop.next && r.st.timeouts.Keys == st.timeouts.Keys
    ensures r.st.timeouts[t] == st.timeouts[t].(data := None)
    ensures forall u :: u in st.timeouts && u != t ==> r.st.timeouts[u] == st.timeouts[u]
    ensures st.timeouts[t].data.None? ==> r.st.loop == st.loop && r.calls == []
    ensures st.timeouts[t].data.Some? ==>
              var id := st.timeouts[t].data.value;
              r.st.loop.sources == st.loop.sources - {id}
              && r.calls == [LoopTimerUpdate(id, 0), LoopSourceRemove(id)]
  {
    var removed := RemoveTimeout(st, t);
    Step(removed.st.(timeouts := st.timeouts[t := st.timeouts[t].(data := None)]), (), removed.calls)
  }

  /** dwl_dbus_adjust_timeout: re-arms the stored timer with the timeout's
      current interval; a no-op, creating nothing, on an empty slot. */
  function AdjustTimeout(st: State, t: TimeoutId, updateOk: bool): (r: Step<()>)
    requires t in st.timeouts
    ensures r.st.watches == st.watches && r.st.timeouts == st.timeouts
    ensures r.st.efd == st.efd && r.st.conn == st.conn && r.st.loop.next == st.loop.next
    ensures r.st.loop.sources.Keys == st.loop.sources.Keys
    ensures forall id :: id in st.loop.sources && Some(id) != st.timeouts[t].data ==>
              r.st.loop.sources[id] == st.loop.sources[id]
    ensures st.timeouts[t].data.None? ==> r.st == st && r.calls == []
    ensures st.timeouts[t].data.Some? ==>
              var id := st.timeouts[t].data.value;
              r.calls == [LoopTimerUpdate(id, st.timeouts[t].interval)]
              && (updateOk && id in st.loop.sources && st.loop.sources[id].TimerSource? ==>
                    r.st.loop.sources[id] == st.loop.sources[id].(interval := st.timeouts[t].interval))
  {
    match st.timeouts[t].data
    case None => Step(st, (), [])
    case Some(id) =>
      var interval := st.timeouts[t].interval;
      Step(st.(loop := TimerUpdate(st.loop, id, interval, updateOk)), (), [LoopTimerUpdate(id, interval)])
  }

  // ---------------------------------------------------------------------
  // The registry invariant

  /** Adding a watch that has no live registration keeps every live source
      owned by its handle's slot, and leaves the watch with exactly one live
      registration precisely when it was enabled and the loop accepted it. */
  lemma AddWatchKeepsOwnership(st: State, w: WatchId, addFdOk: bool)
    requires Owned(st) && w in st.watches && WatchSources(st, w) == {}
    ensures Owned(AddWatch(st, w, addFdOk).st)
    ensures var st' := AddWatch(st, w, addFdOk).st;
            (st.watches[w].enabled && addFdOk ==> |WatchSources(st', w)| == 1)
            && (!(st.watches[w].enabled && addFdOk) ==> WatchSources(st', w) == {})
  {
    var st' := AddWatch(st, w, addFdOk).st;
    if st.watches[w].enabled && addFdOk {
      var id := st'.watches[w].data.value;
      forall k | k in st'.loop.sources
        ensures SourceOwned(st', k)
      {
        if k != id {
          assert SourceOwned(st, k);
          if st.loop.sources[k].WatchSource? {
            assert k !in WatchSources(st, w);
          }
        }
      }
      assert WatchSources(st', w) == {id};
    } else if st.watches[w].enabled {
      forall k | k in st'.loop.sources
        ensures SourceOwned(st', k)
      {
        assert SourceOwned(st, k);
        if st.loop.sources[k].WatchSource? {
          assert k !in WatchSources(st, w);
        }
      }
      assert WatchSources(st', w) == WatchSources(st, w);
    }
  }

  /** Removing a watch keeps the invariant and leaves the watch with no live
      registration. */
  lemma RemoveWatchKeepsOwnership(st: State, w: WatchId)
    requires Owned(st) && w in st.watches
    ensures Owned(RemoveWatch(st, w).st)
    ensures WatchSources(RemoveWatch(st, w).st, w) == {}
  {
    var st' := RemoveWatch(st, w).st;
    forall k | k in st'.loop.sources
      ensures SourceOwned(st', k)
    {
      assert SourceOwned(st, k);
    }
    forall k | k in WatchSources(st', w)
      ensures false
    {
      assert k in WatchSources(st, w);
      AtMostOneWatchSource(st, w);
    }
  }

  /** Adding a timeout that has no live timer keeps the invariant, and leaves
      the timeout with exactly one live timer precisely when it was enabled
      and arming succeeded. */
  lemma AddTimeoutKeepsOwnership(st: State, t: TimeoutId, armOk: bool)
    requires Owned(st) && t in st.timeouts && TimerSources(st, t) == {}
    ensures Owned(AddTimeout(st, t, armOk).st)
    ensures var st' := AddTimeout(st, t, armOk).st;
            (st.timeouts[t].enabled && armOk ==> |TimerSources(st', t)| == 1)
            && (!(st.timeouts[t].enabled && armOk) ==> TimerSources(st', t) == {})
  {
    var st' := AddTimeout(st, t, armOk).st;
    if st.timeouts[t].enabled && armOk {
      var id := st'.timeouts[t].data.value;
      forall k | k in st'.loop.sources
        ensures SourceOwned(st', k)
      {
        if k != id {
          assert SourceOwned(st, k);
          if st.loop.sources[k].TimerSource? {
            assert k !in TimerSources(st, t);
          }
        }
      }
      assert TimerSources(st', t) == {id};
    } else if st.timeouts[t].enabled {
      forall k | k in st'.loop.sources
        ensures SourceOwned(st', k)
      {
        assert SourceOwned(st, k);
      }
      assert TimerSources(st', t) == TimerSources(st, t);
    }
  }

  /** Removing a timeout keeps the invariant and leaves it with no live timer. */
  lemma RemoveTimeoutKeepsOwnership(st: State, t: TimeoutId)
    requires Owned(st) && t in st.timeouts
    ensures Owned(RemoveTimeout(st, t).st)
    ensures TimerSources(RemoveTimeout(st, t).st, t) == {}
  {
    var st' := RemoveTimeout(st, t).st;
    forall k | k in st'.loop.sources
      ensures SourceOwned(st', k)
    {
      assert SourceOwned(st, k);
    }
    forall k | k in TimerSources(st', t)
      ensures false
    {
      assert k in TimerSources(st, t);
      AtMostOneTimerSource(st, t);
    }
  }

  /** Re-arming a timeout keeps the invariant and the timeout's registrations. */
  lemma AdjustTimeoutKeepsOwnership(st: State, t: TimeoutId, updateOk: bool)
    requires Owned(st) && t in st.timeouts
    ensures Owned(AdjustTimeout(st, t, updateOk).st)
    ensures TimerSources(AdjustTimeout(st, t, updateOk).st, t) == TimerSources(st, t)
  {
    var st' := AdjustTimeout(st, t, updateOk).st;
    forall k | k in st'.loop.sources
      ensures SourceOwned(st', k)
    {
      assert SourceOwned(st, k);
    }
  }

  /** With the invariant, a timer's re-arming reaches the live source the
      timeout owns: after a successful adjust its interval is the new one. */
  lemma AdjustTimeoutRearms(st: State, t: TimeoutId, id: SourceId)
    requires Owned(st) && t in st.timeouts && id in TimerSources(st, t)
    ensures var st' := AdjustTimeout(st, t, true).st;
            id in st'.loop.sources && st'.loop.sources[id] == TimerSource(st.timeouts[t].interval, t)
  {
    AtMostOneTimerSource(st, t);
  }

  // ---------------------------------------------------------------------
  // Findings

  /** As written, an enabled watch whose registration the loop refused is
      still reported as added, although no source serves it. */
  lemma AddWatchHidesRefusal(st: State, w: WatchId)
    requires w in st.watches && st.watches[w].enabled && WatchSources(st, w) == {}
    ensures AddWatch(st, w, false).ret
    ensures WatchSources(AddWatch(st, w, false).st, w) == {}
  {
  }

  /** With the corrected callback, TRUE for an enabled watch means a live
      source serves it. */
  lemma AddWatchCheckedIsHonest(st: State, w: WatchId, addFdOk: bool)
    requires Owned(st) && w in st.watches && WatchSources(st, w) == {}
    ensures var r := AddWatchChecked(st, w, addFdOk);
            st.watches[w].enabled ==> (r.ret <==> |WatchSources(r.st, w)| == 1)
  {
    AddWatchKeepsOwnership(st, w, addFdOk);
  }

  /** The corrected callback keeps the registry invariant as well. */
  lemma AddWatchCheckedKeepsOwnership(st: State, w: WatchId, addFdOk: bool)
    requires Owned(st) && w in st.watches && WatchSources(st, w) == {}
    ensures Owned(AddWatchChecked(st, w, addFdOk).st)
    ensures |WatchSources(AddWatchChecked(st, w, addFdOk).st, w)| <= 1
  {
    AddWatchKeepsOwnership(st, w, addFdOk);
  }

  /** The clearing watch remove keeps the registry invariant and leaves the
      watch with no live source. */
  lemma RemoveWatchClearingKeepsOwnership(st: State, w: WatchId)
    requires Owned(st) && w in st.watches
    ensures Owned(RemoveWatchClearing(st, w).st) && WatchSources(RemoveWatchClearing(st, w).st, w) == {}
  {
    RemoveWatchKeepsOwnership(st, w);
    var st' := RemoveWatchClearing(st, w).st;
    forall k | k in st'.loop.sources
      ensures SourceOwned(st', k)
    {
      assert SourceOwned(RemoveWatch(st, w).st, k);
      if st'.loop.sources[k].WatchSource? {
        assert k !in WatchSources(RemoveWatch(st, w).st, w);
      }
    }
  }

  /** The clearing timeout remove keeps the registry invariant and leaves the
      timeout with no live timer. */
  lemma RemoveTimeoutClearingKeepsOwnership(st: State, t: TimeoutId)
    requires Owned(st) && t in st.timeouts
    ensures Owned(RemoveTimeoutClearing(st, t).st) && TimerSources(RemoveTimeoutClearing(st, t).st, t) == {}
  {
    RemoveTimeoutKeepsOwnership(st, t);
    var st' := RemoveTimeoutClearing(st, t).st;
    forall k | k in st'.loop.sources
      ensures SourceOwned(st', k)
    {
      assert SourceOwned(RemoveTimeout(st, t).st, k);
      if st'.loop.sources[k].TimerSource? {
        assert k !in TimerSources(RemoveTimeout(st, t).st, t);
      }
    }
  }

  // ---------------------------------------------------------------------
  // Calls on removed sources

  /** As written, a remove reached through a slot that still names a
      removed source calls wl_event_source_remove on that dead source. */
  lemma StaleWatchSlotDangles(st: State, w: WatchId)
    requires w in st.watches && st.watches[w].data.Some?
    requires st.watches[w].data.value < st.loop.next && st.watches[w].data.value !in st.loop.sources
    ensures !NoDangling(st.loop, RemoveWatch(st, w).calls)
  {
    assert Dangling(st.loop, RemoveWatch(st, w).calls[0]);
  }

  /** As written, a remove or adjust reached through a timeout slot that
      still names a removed timer updates and removes that dead source. */
  lemma StaleTimeoutSlotDangles(st: State, t: TimeoutId, updateOk: bool)
    requires t in st.timeouts && st.timeouts[t].data.Some?
    requires st.timeouts[t].data.value < st.loop.next && st.timeouts[t].data.value !in st.loop.sources
    ensures !NoDangling(st.loop, RemoveTimeout(st, t).calls)
    ensures !NoDangling(st.loop, AdjustTimeout(st, t, updateOk).calls)
  {
    assert Dangling(st.loop, RemoveTimeout(st, t).calls[0]);
    assert Dangling(st.loop, AdjustTimeout(st, t, updateOk).calls[0]);
  }

  /** Adding a watch makes no call and keeps every slot naming a live source
      of its own handle. */
  lemma AddWatchKeepsSlotsLive(st: State, w: WatchId, addFdOk: bool)
    requires SlotsLive(st) && w in st.watches
    ensures SlotsLive(AddWatch(st, w, addFdOk).st)
  {
    var st' := AddWatch(st, w, addFdOk).st;
    forall v | v in st'.watches
      ensures WatchSlotLive(st', v)
    {
      assert WatchSlotLive(st, v);
    }
    forall u | u in st'.timeouts
      ensures TimeoutSlotLive(st', u)
    {
      assert TimeoutSlotLive(st, u);
    }
  }

  /** With live slots, the clearing remove touches only the watch's own live
      source, and keeps every slot live. */
  lemma RemoveWatchClearingIsSafe(st: State, w: WatchId)
    requires SlotsLive(st) && w in st.watches
    ensures NoDangling(st.loop, RemoveWatchClearing(st, w).calls)
    ensures SlotsLive(RemoveWatchClearing(st, w).st)
  {
    var st' := RemoveWatchClearing(st, w).st;
    assert WatchSlotLive(st, w);
    forall v | v in st'.watches
      ensures WatchSlotLive(st', v)
    {
      assert WatchSlotLive(st, v);
    }
    forall u | u in st'.timeouts
      ensures TimeoutSlotLive(st', u)
    {
      assert TimeoutSlotLive(st, u);
    }
  }

  /** Adding a timeout only updates and removes the timer it has just
      created, and keeps every slot live. */
  lemma AddTimeoutIsSafe(st: State, t: TimeoutId, armOk: bool)
    requires SlotsLive(st) && t in st.timeouts
    ensures NoDangling(st.loop, AddTimeout(st, t, armOk).calls)
    ensures SlotsLive(AddTimeout(st, t, armOk).st)
  {
    var st' := AddTimeout(st, t, armOk).st;
    forall v | v in st'.watches
      ensures WatchSlotLive(st', v)
    {
      assert WatchSlotLive(st, v);
    }
    forall u | u in st'.timeouts
      ensures TimeoutSlotLive(st', u)
    {
      assert TimeoutSlotLive(st, u);
    }
  }

  /** With live slots, the clearing timeout remove disarms and removes only
      the timeout's own live timer, and keeps every slot live. */
  lemma RemoveTimeoutClearingIsSafe(st: State, t: TimeoutId)
    requires SlotsLive(st) && t in st.timeouts
    ensures NoDangling(st.loop, RemoveTimeoutClearing(st, t).calls)
    ensures SlotsLive(RemoveTimeoutClearing(st, t).st)
  {
    var st' := RemoveTimeoutClearing(st, t).st;
    assert TimeoutSlotLive(st, t);
    forall v | v in st'.watches
      ensures WatchSlotLive(st', v)
    {
      assert WatchSlotLive(st, v);
    }
    forall u | u in st'.timeouts
      ensures TimeoutSlotLive(st', u)
    {
      assert TimeoutSlotLive(st, u);
    }
  }

  /** With live slots, adjusting re-arms only the timeout's own live timer,
      and keeps every slot live. */
  lemma AdjustTimeoutIsSafe(st: State, t: TimeoutId, updateOk: bool)
    requires SlotsLive(st) && t in st.timeouts
    ensures NoDangling(st.loop, AdjustTimeout(st, t, updateOk).calls)
    ensures SlotsLive(AdjustTimeout(st, t, updateOk).st)
  {
    var st' := AdjustTimeout(st, t, updateOk).st;
    assert TimeoutSlotLive(st, t);
    forall v | v in st'.watches
      ensures WatchSlotLive(st', v)
    {
      assert WatchSlotLive(st, v);
    }
    forall u | u in st'.timeouts
      ensures TimeoutSlotLive(st', u)
    {
      assert TimeoutSlotLive(st, u);
    }
  }
}
