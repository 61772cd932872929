/**
 The host loop's side of the bridge: routing a ready source to the callback
 it was registered with, and the sequences of watch and timeout callbacks
 libdbus drives over a handle's life.
 */
module HostLoop {
  import opened Flags
  import opened Bridge
  import opened Registry
  import opened Pending

  /** The handle a live source serves still exists (libdbus keeps a watch or
      timeout alive while its registration is). */
  predicate Serviceable(st: State, id: SourceId) {
    id in st.loop.sources
    && match st.loop.sources[id]
       case WatchSource(_, _, w) => w in st.watches
       case TimerSource(_, t) => t in st.timeouts
       case BusSource(_) => true
  }

  /** The source is a watch or timer source whose handle is enabled, so
      firing it forwards to libdbus. */
  predicate Forwards(st: State, id: SourceId)
    requires Serviceable(st, id)
  {
    match st.loop.sources[id]
    case WatchSource(_, _, w) => st.watches[w].enabled
    case TimerSource(_, t) => st.timeouts[t].enabled
    case BusSource(_) => false
  }

  /** The host loop runs the callback source `id` was registered with:
      dwl_dbus_watch_handle with the ready mask, dwl_dbus_timeout_handle, or
      dwl_dbus_dispatch. `round` holds libdbus's answers for this iteration:
      the statuses it reports while handling, and for the bus source the
      result of dispatching. */
  function Fire(st: State, id: SourceId, mask: set<WlEvent>, round: Round): (r: Step<int>)
    requires Serviceable(st, id)
    ensures r.ret == 0
    ensures r.st.loop == st.loop && r.st.watches == st.watches && r.st.timeouts == st.timeouts
    ensures r.st.conn == st.conn.(status := r.st.conn.status)
    ensures forall c :: c in r.calls && c.BusWatchHandle? ==>
              st.loop.sources[id].WatchSource? && c.watch == st.loop.sources[id].watch
              && c.flags == ReadyFlags(mask)
    ensures forall c :: c in r.calls && c.BusTimeoutHandle? ==>
              st.loop.sources[id].TimerSource? && c.timeout == st.loop.sources[id].timeout
    ensures BusDispatch in r.calls <==> st.loop.sources[id].BusSource?
    ensures !st.loop.sources[id].BusSource? ==> (r.calls != [] <==> Forwards(st, id))
    ensures !st.loop.sources[id].BusSource? && !Forwards(st, id) ==> r.st == st
    ensures r.st.efd.Some? <==> st.efd.Some?
    ensures Forwards(st, id) && st.efd.Some? ==>
              r.st.efd.value == st.efd.value + CountRemains(round.notices)
  {
    match st.loop.sources[id]
    case WatchSource(_, _, w) => OnWatchReady(st, w, mask, round.notices)
    case TimerSource(_, t) => OnTimeoutExpired(st, t, round.notices)
    case BusSource(_) => Dispatch(st, round.notices, round.result)
  }

  /** A message read while handling a watch or a timeout is not lost: a
      DATA_REMAINS report during the handler leaves the eventfd readable, so
      the bus source dispatches on a later iteration. */
  lemma HandlerNoticeRaisesFlag(st: State, id: SourceId, mask: set<WlEvent>, round: Round)
    requires Serviceable(st, id) && Forwards(st, id)
    requires st.efd.Some? && DataRemains in round.notices
    ensures EfdReadable(Fire(st, id, mask, round).st)
  {
    CountRemainsPositive(round.notices);
  }

  /** Disabled-watch delivery suppression: once a watch is registered, its
      source forwards the host's readiness to that watch exactly while the
      watch is enabled, whatever the enabled flag did since registration. */
  lemma RegisteredWatchDelivers(st: State, w: WatchId, mask: set<WlEvent>, round: Round, enabledNow: bool)
    requires Owned(st) && w in st.watches && st.watches[w].enabled && WatchSources(st, w) == {}
    ensures var added := AddWatch(st, w, true).st;
            var id := added.watches[w].data.value;
            var later := added.(watches := added.watches[w := added.watches[w].(enabled := enabledNow)]);
            Serviceable(later, id)
            && Fire(later, id, mask, round).calls == (if enabledNow then [BusWatchHandle(w, ReadyFlags(mask))] else [])
  {
  }

  /** Disabled-timeout expiry suppression: once a timeout is armed, its timer
      forwards an expiry to that timeout exactly while the timeout is
      enabled. */
  lemma ArmedTimerDelivers(st: State, t: TimeoutId, mask: set<WlEvent>, round: Round, enabledNow: bool)
    requires t in st.timeouts && st.timeouts[t].enabled
    ensures var added := AddTimeout(st, t, true).st;
            var id := added.timeouts[t].data.value;
            var later := added.(timeouts := added.timeouts[t := added.timeouts[t].(enabled := enabledNow)]);
            Serviceable(later, id)
            && Fire(later, id, mask, round).calls == (if enabledNow then [BusTimeoutHandle(t)] else [])
  {
  }

  // ---------------------------------------------------------------------
  // A watch's life

  /** What libdbus does to one watch: call the add or remove callback, or
      change its enabled flag. The toggled callback is installed as NULL, so
      toggling reaches the bridge by no callback at all. */
  datatype WatchEvent = AddW(addFdOk: bool) | RemoveW | ToggleW(enabled: bool)

  /** libdbus's protocol: add and remove alternate, starting from `added`. */
  predicate WatchProtocol(evs: seq<WatchEvent>, added: bool)
    decreases |evs|
  {
    |evs| == 0
    || match evs[0]
       case AddW(_) => !added && WatchProtocol(evs[1..], true)
       case RemoveW => added && WatchProtocol(evs[1..], false)
       case ToggleW(_) => WatchProtocol(evs[1..], added)
  }

  /** Whether the add callback is the more recent of the two after `evs`. */
  function AddedAfter(evs: seq<WatchEvent>, added: bool): bool
    decreases |evs|
  {
    if |evs| == 0 then added
    else match evs[0]
      case AddW(_) => AddedAfter(evs[1..], true)
      case RemoveW => AddedAfter(evs[1..], false)
      case ToggleW(_) => AddedAfter(evs[1..], added)
  }

  /** One watch event, with the remove callback as written (`clearing`
      false) or with the slot-clearing remove (`clearing` true). */
  function ApplyWatchEvent(st: State, w: WatchId, e: WatchEvent, clearing: bool): (r: Step<()>)
    requires w in st.watches
    ensures r.st.watches.Keys == st.watches.Keys
    ensures !e.RemoveW? ==> r.calls == []
  {
    match e
    case AddW(ok) => Step(AddWatch(st, w, ok).st, (), [])
    case RemoveW => if clearing then RemoveWatchClearing(st, w) else RemoveWatch(st, w)
    case ToggleW(enabled) => Step(st.(watches := st.watches[w := st.watches[w].(enabled := enabled)]), (), [])
  }

  function RunWatch(st: State, w: WatchId, evs: seq<WatchEvent>, clearing: bool): (r: State)
    requires w in st.watches
    ensures r.watches.Keys == st.watches.Keys
    decreases |evs|
  {
    if |evs| == 0 then st else RunWatch(ApplyWatchEvent(st, w, evs[0], clearing).st, w, evs[1..], clearing)
  }

  /** No event of the run calls into the host loop on a source that existed
      before that event and had already been removed. */
  predicate WatchRunSafe(st: State, w: WatchId, evs: seq<WatchEvent>, clearing: bool)
    requires w in st.watches
    decreases |evs|
  {
    |evs| == 0
    || (var step := ApplyWatchEvent(st, w, evs[0], clearing);
        NoDangling(st.loop, step.calls) && WatchRunSafe(step.st, w, evs[1..], clearing))
  }

  /** Watch lifecycle symmetry: over any protocol-respecting sequence of
      adds, removes and toggles, the watch never has more than one live
      registration, has none whenever the remove callback was the last one
      called, and every live source stays owned by its handle's slot. This
      holds for the remove as written and for the clearing one. */
  lemma {:induction false} WatchLifecycleSymmetry(st: State, w: WatchId, evs: seq<WatchEvent>, added: bool, clearing: bool)
    requires Owned(st) && w in st.watches
    requires WatchProtocol(evs, added)
    requires !added ==> WatchSources(st, w) == {}
    ensures Owned(RunWatch(st, w, evs, clearing))
    ensures |WatchSources(RunWatch(st, w, evs, clearing), w)| <= 1
    ensures !AddedAfter(evs, added) ==> WatchSources(RunWatch(st, w, evs, clearing), w) == {}
    decreases |evs|
  {
    if |evs| == 0 {
      AtMostOneWatchSource(st, w);
    } else {
      var next := ApplyWatchEvent(st, w, evs[0], clearing).st;
      match evs[0]
      case AddW(ok) =>
        AddWatchKeepsOwnership(st, w, ok);
        WatchLifecycleSymmetry(next, w, evs[1..], true, clearing);
      case RemoveW =>
        if clearing {
          RemoveWatchClearingKeepsOwnership(st, w);
        } else {
          RemoveWatchKeepsOwnership(st, w);
        }
        WatchLifecycleSymmetry(next, w, evs[1..], false, clearing);
      case ToggleW(enabled) =>
        assert WatchSources(next, w) == WatchSources(st, w);
        forall k | k in next.loop.sources
          ensures SourceOwned(next, k)
        {
          assert SourceOwned(st, k);
        }
        WatchLifecycleSymmetry(next, w, evs[1..], added, clearing);
    }
  }

  /** As written, the remove callback leaves the slot naming the removed
      source. A watch that is then disabled when the add callback runs again
      (as when the bridge is stopped and restarted on the same connection)
      keeps that stale slot, and the next remove calls
      wl_event_source_remove on a source that no longer exists. */
  lemma AsWrittenWatchRunDangles(st: State, w: WatchId, evs: seq<WatchEvent>)
    requires w in st.watches && st.watches[w].enabled
    requires evs == [AddW(true), RemoveW, ToggleW(false), AddW(true), RemoveW]
    ensures WatchProtocol(evs, false) && !WatchRunSafe(st, w, evs, false)
  {
    assert evs[1..][1..][1..][1..][1..] == [];
    assert WatchProtocol(evs[1..][1..][1..][1..], true);
    assert WatchProtocol(evs[1..][1..][1..], false);
    assert WatchProtocol(evs[1..][1..], false);
    assert WatchProtocol(evs[1..], true);
    var s1 := ApplyWatchEvent(st, w, evs[0], false).st;
    var id := s1.watches[w].data.value;
    var s2 := ApplyWatchEvent(s1, w, evs[1], false).st;
    var s3 := ApplyWatchEvent(s2, w, evs[2], false).st;
    var s4 := ApplyWatchEvent(s3, w, evs[3], false).st;
    assert s4 == s3 && s3.watches[w].data == Some(id);
    assert Dangling(s4.loop, ApplyWatchEvent(s4, w, evs[4], false).calls[0]);
    assert evs[1..][1..][1..][1..] == [RemoveW];
    assert !WatchRunSafe(s4, w, evs[1..][1..][1..][1..], false);
    assert !WatchRunSafe(s3, w, evs[1..][1..][1..], false);
    assert !WatchRunSafe(s2, w, evs[1..][1..], false);
    assert !WatchRunSafe(s1, w, evs[1..], false);
  }

  /** With the clearing remove, starting from slots that each name a live
      source of their own handle or nothing, no event of any sequence calls
      into the host loop on a removed source, and the slots stay live. */
  lemma {:induction false} ClearingWatchRunIsSafe(st: State, w: WatchId, evs: seq<WatchEvent>)
    requires SlotsLive(st) && w in st.watches
    ensures WatchRunSafe(st, w, evs, true)
    ensures SlotsLive(RunWatch(st, w, evs, true))
    decreases |evs|
  {
    if |evs| > 0 {
      var next := ApplyWatchEvent(st, w, evs[0], true).st;
      match evs[0] {
        case AddW(ok) =>
          AddWatchKeepsSlotsLive(st, w, ok);
        case RemoveW =>
          RemoveWatchClearingIsSafe(st, w);
        case ToggleW(enabled) =>
          forall v | v in next.watches
            ensures WatchSlotLive(next, v)
          {
            assert WatchSlotLive(st, v);
          }
          forall u | u in next.timeouts
            ensures TimeoutSlotLive(next, u)
          {
            assert TimeoutSlotLive(st, u);
          }
      }
      ClearingWatchRunIsSafe(next, w, evs[1..]);
    }
  }

  /** A watch that is disabled when the add callback runs gets no source,
      and enabling it later does not give it one: the toggled callback is
      NULL, so the bridge never hears of the change. */
  lemma DisabledAddNeverRegisters(st: State, w: WatchId, addFdOk: bool, clearing: bool)
    requires w in st.watches && !st.watches[w].enabled && WatchSources(st, w) == {}
    ensures var st' := RunWatch(st, w, [AddW(addFdOk), ToggleW(true)], clearing);
            st'.watches[w].enabled && WatchSources(st', w) == {}
  {
    var evs := [AddW(addFdOk), ToggleW(true)];
    var s1 := ApplyWatchEvent(st, w, evs[0], clearing).st;
    var s2 := ApplyWatchEvent(s1, w, evs[1], clearing).st;
    assert s1 == st;
    assert evs[1..] == [ToggleW(true)] && evs[1..][1..] == [];
    assert RunWatch(s1, w, evs[1..], clearing) == RunWatch(s2, w, [], clearing) == s2;
    assert WatchSources(s2, w) == WatchSources(st, w);
  }

  // ---------------------------------------------------------------------
  // A timeout's life

  /** What libdbus does to one timeout: call the add or remove callback, or
      change its enabled flag and interval and then call the toggled
      callback, which is dwl_dbus_adjust_timeout. */
  datatype TimeoutEvent = AddT(armOk: bool) | RemoveT | ChangeT(enabled: bool, interval: int, updateOk: bool)

  predicate TimeoutProtocol(evs: seq<TimeoutEvent>, added: bool)
    decreases |evs|
  {
    |evs| == 0
    || match evs[0]
       case AddT(_) => !added && TimeoutProtocol(evs[1..], true)
       case RemoveT => added && TimeoutProtocol(evs[1..], false)
       case ChangeT(_, _, _) => TimeoutProtocol(evs[1..], added)
  }

  function TimeoutAddedAfter(evs: seq<TimeoutEvent>, added: bool): bool
    decreases |evs|
  {
    if |evs| == 0 then added
    else match evs[0]
      case AddT(_) => TimeoutAddedAfter(evs[1..], true)
      case RemoveT => TimeoutAddedAfter(evs[1..], false)
      case ChangeT(_, _, _) => TimeoutAddedAfter(evs[1..], added)
  }

  /** A ChangeT event's effect on the handle, before the toggled callback. */
  function Changed(st: State, t: TimeoutId, enabled: bool, interval: int): (r: State)
    requires t in st.timeouts
    ensures r.loop == st.loop && r.watches == st.watches && r.timeouts.Keys == st.timeouts.Keys
    ensures r.timeouts[t].data == st.timeouts[t].data && r.timeouts[t].interval == interval
    ensures forall u :: u in st.timeouts && u != t ==> r.timeouts[u] == st.timeouts[u]
  {
    st.(timeouts := st.timeouts[t := st.timeouts[t].(enabled := enabled, interval := interval)])
  }

  /** One timeout event, with the remove callback as written or clearing. */
  function ApplyTimeoutEvent(st: State, t: TimeoutId, e: TimeoutEvent, clearing: bool): (r: Step<()>)
    requires t in st.timeouts
    ensures r.st.timeouts.Keys == st.timeouts.Keys
  {
    match e
    case AddT(ok) => var added := AddTimeout(st, t, ok); Step(added.st, (), added.calls)
    case RemoveT => if clearing then RemoveTimeoutClearing(st, t) else RemoveTimeout(st, t)
    case ChangeT(enabled, interval, ok) => AdjustTimeout(Changed(st, t, enabled, interval), t, ok)
  }

  function RunTimeout(st: State, t: TimeoutId, evs: seq<TimeoutEvent>, clearing: bool): (r: State)
    requires t in st.timeouts
    ensures r.timeouts.Keys == st.timeouts.Keys
    decreases |evs|
  {
    if |evs| == 0 then st else RunTimeout(ApplyTimeoutEvent(st, t, evs[0], clearing).st, t, evs[1..], clearing)
  }

  /** No event of the run calls into the host loop on a removed source. */
  predicate TimeoutRunSafe(st: State, t: TimeoutId, evs: seq<TimeoutEvent>, clearing: bool)
    requires t in st.timeouts
    decreases |evs|
  {
    |evs| == 0
    || (var step := ApplyTimeoutEvent(st, t, evs[0], clearing);
        NoDangling(st.loop, step.calls) && TimeoutRunSafe(step.st, t, evs[1..], clearing))
  }

  /** Timeout lifecycle symmetry, as for watches, for both removes. */
  lemma {:induction false} TimeoutLifecycleSymmetry(st: State, t: TimeoutId, evs: seq<TimeoutEvent>, added: bool, clearing: bool)
    requires Owned(st) && t in st.timeouts
    requires TimeoutProtocol(evs, added)
    requires !added ==> TimerSources(st, t) == {}
    ensures Owned(RunTimeout(st, t, evs, clearing))
    ensures |TimerSources(RunTimeout(st, t, evs, clearing), t)| <= 1
    ensures !TimeoutAddedAfter(evs, added) ==> TimerSources(RunTimeout(st, t, evs, clearing), t) == {}
    decreases |evs|
  {
    if |evs| == 0 {
      AtMostOneTimerSource(st, t);
    } else {
      var next := ApplyTimeoutEvent(st, t, evs[0], clearing).st;
      match evs[0]
      case AddT(ok) =>
        AddTimeoutKeepsOwnership(st, t, ok);
        TimeoutLifecycleSymmetry(next, t, evs[1..], true, clearing);
      case RemoveT =>
        if clearing {
          RemoveTimeoutClearingKeepsOwnership(st, t);
        } else {
          RemoveTimeoutKeepsOwnership(st, t);
        }
        TimeoutLifecycleSymmetry(next, t, evs[1..], false, clearing);
      case ChangeT(enabled, interval, ok) =>
        var changed := Changed(st, t, enabled, interval);
        forall k | k in changed.loop.sources
          ensures SourceOwned(changed, k)
        {
          assert SourceOwned(st, k);
        }
        assert TimerSources(changed, t) == TimerSources(st, t);
        AdjustTimeoutKeepsOwnership(changed, t, ok);
        TimeoutLifecycleSymmetry(next, t, evs[1..], added, clearing);
    }
  }

  /** As written, a timeout that is removed and then disabled when the add
      callback runs again keeps a slot naming the removed timer, and the
      next remove updates and removes that dead source. */
  lemma AsWrittenTimeoutRunDangles(st: State, t: TimeoutId, interval: int, evs: seq<TimeoutEvent>)
    requires t in st.timeouts && st.timeouts[t].enabled
    requires evs == [AddT(true), ChangeT(false, interval, true), RemoveT, AddT(true), RemoveT]
    ensures TimeoutProtocol(evs, false) && !TimeoutRunSafe(st, t, evs, false)
  {
    assert evs[1..][1..][1..][1..][1..] == [];
    assert TimeoutProtocol(evs[1..][1..][1..][1..], true);
    assert TimeoutProtocol(evs[1..][1..][1..], false);
    assert TimeoutProtocol(evs[1..][1..], true);
    var s1 := ApplyTimeoutEvent(st, t, evs[0], false).st;
    var id := s1.timeouts[t].data.value;
    var s2 := ApplyTimeoutEvent(s1, t, evs[1], false).st;
    assert s2.timeouts[t].data == Some(id) && id in s2.loop.sources;
    var s3 := ApplyTimeoutEvent(s2, t, evs[2], false).st;
    var s4 := ApplyTimeoutEvent(s3, t, evs[3], false).st;
    assert s4 == s3 && s3.timeouts[t].data == Some(id) && id !in s3.loop.sources;
    assert Dangling(s4.loop, ApplyTimeoutEvent(s4, t, evs[4], false).calls[0]);
    assert evs[1..][1..][1..][1..] == [RemoveT];
    assert !TimeoutRunSafe(s4, t, evs[1..][1..][1..][1..], false);
    assert !TimeoutRunSafe(s3, t, evs[1..][1..][1..], false);
    assert !TimeoutRunSafe(s2, t, evs[1..][1..], false);
    assert !TimeoutRunSafe(s1, t, evs[1..], false);
  }

  /** With the clearing remove, starting from live slots, no event of any
      sequence calls into the host loop on a removed source, and the slots
      stay live. */
  lemma {:induction false} ClearingTimeoutRunIsSafe(st: State, t: TimeoutId, evs: seq<TimeoutEvent>)
    requires SlotsLive(st) && t in st.timeouts
    ensures TimeoutRunSafe(st, t, evs, true)
    ensures SlotsLive(RunTimeout(st, t, evs, true))
    decreases |evs|
  {
    if |evs| > 0 {
      var next := ApplyTimeoutEvent(st, t, evs[0], true).st;
      match evs[0] {
        case AddT(ok) =>
          AddTimeoutIsSafe(st, t, ok);
        case RemoveT =>
          RemoveTimeoutClearingIsSafe(st, t);
        case ChangeT(enabled, interval, ok) =>
          var changed := Changed(st, t, enabled, interval);
          forall v | v in changed.watches
            ensures WatchSlotLive(changed, v)
          {
            assert WatchSlotLive(st, v);
          }
          forall u | u in changed.timeouts
            ensures TimeoutSlotLive(changed, u)
          {
            assert TimeoutSlotLive(st, u);
          }
          AdjustTimeoutIsSafe(changed, t, ok);
      }
      ClearingTimeoutRunIsSafe(next, t, evs[1..]);
    }
  }

  /** A timeout that is disabled when the add callback runs gets no timer,
      and enabling it later does not give it one: the toggled callback,
      dwl_dbus_adjust_timeout, does nothing on an empty slot. */
  lemma DisabledAddNeverArms(st: State, t: TimeoutId, armOk: bool, interval: int, updateOk: bool, clearing: bool)
    requires t in st.timeouts && !st.timeouts[t].enabled && st.timeouts[t].data.None?
    ensures var st' := RunTimeout(st, t, [AddT(armOk), ChangeT(true, interval, updateOk)], clearing);
            st'.timeouts[t].enabled && st'.timeouts[t].interval == interval
            && st'.timeouts[t].data.None? && st'.loop == st.loop
  {
    var evs := [AddT(armOk), ChangeT(true, interval, updateOk)];
    var s1 := ApplyTimeoutEvent(st, t, evs[0], clearing).st;
    var s2 := ApplyTimeoutEvent(s1, t, evs[1], clearing).st;
    assert s1 == st;
    assert s2 == Changed(st, t, true, interval);
    assert evs[1..] == [ChangeT(true, interval, updateOk)] && evs[1..][1..] == [];
    assert RunTimeout(s1, t, evs[1..], clearing) == RunTimeout(s2, t, [], clearing) == s2;
  }

  /** Timer re-arm: changing a registered timeout's interval from A to B
      leaves its one live timer armed with B, not A. */
  lemma ChangeRearmsWithNewInterval(st: State, t: TimeoutId, id: SourceId, enabled: bool, b: int)
    requires Owned(st) && t in st.timeouts && id in TimerSources(st, t)
    ensures var st' := ApplyTimeoutEvent(st, t, ChangeT(enabled, b, true), false).st;
            id in st'.loop.sources && st'.loop.sources[id] == TimerSource(b, t)
  {
    var changed := Changed(st, t, enabled, b);
    forall k | k in changed.loop.sources
      ensures SourceOwned(changed, k)
    {
      assert SourceOwned(st, k);
    }
    assert id in TimerSources(changed, t);
    AdjustTimeoutRearms(changed, t, id);
  }
}
