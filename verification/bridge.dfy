/**
 The abstract state the callbacks of dwl/dbus.c act on: the Wayland event
 loop's sources, the libdbus watch and timeout handles with their data slots,
 the eventfd counter that carries the pending-dispatch flag, and the
 connection's installed-callback state.
 */
module Bridge {
  import opened Flags

  datatype Option<T> = None | Some(value: T)

  /** Identity of a wl_event_source (the pointer the loop hands out). */
  type SourceId = nat
  /** Identity of a DBusWatch / DBusTimeout handle. */
  type WatchId = nat
  type TimeoutId = nat

  /** What a live host-loop source is registered for. */
  datatype Source =
    | WatchSource(fd: int, mask: set<WlEvent>, watch: WatchId)  // fd source bound to dwl_dbus_watch_handle
    | BusSource(mask: set<WlEvent>)                              // the eventfd source bound to dwl_dbus_dispatch
    | TimerSource(interval: int, timeout: TimeoutId)             // timer source bound to dwl_dbus_timeout_handle

  datatype EventLoop = EventLoop(sources: map<SourceId, Source>, next: SourceId)

  /** A host loop whose live handles all lie below the allocation mark, so the
      handle it hands out next is distinct from every live one. */
  type Loop = l: EventLoop | forall id :: id in l.sources ==> id < l.next
    witness EventLoop(map[], 0)

  /** A bus-side watch: enabled flag, interest flags, descriptor and data slot. */
  datatype Watch = Watch(enabled: bool, flags: set<BusFlag>, fd: int, data: Option<SourceId>)

  /** A bus-side timeout: enabled flag, interval in milliseconds and data slot. */
  datatype Timeout = Timeout(enabled: bool, interval: int, data: Option<SourceId>)

  /** DBusDispatchStatus. */
  datatype DispatchStatus = DataRemains | Complete | NeedMemory

  /** The connection as far as the bridge configures it: exit_on_disconnect,
      whether each callback family is installed, and the dispatch status
      libdbus last reported. */
  datatype Connection = Connection(
    exitOnDisconnect: bool,
    statusFn: bool,
    watchFns: bool,
    timeoutFns: bool,
    status: DispatchStatus)

  /** The whole bridge state. `efd` is None when the descriptor is -1, and
      otherwise holds the eventfd counter. */
  datatype State = State(
    loop: Loop,
    watches: map<WatchId, Watch>,
    timeouts: map<TimeoutId, Timeout>,
    efd: Option<nat>,
    conn: Connection)

  /** Calls the bridge makes whose order or arguments matter, in program order. */
  datatype Call =
    | BusWatchHandle(watch: WatchId, flags: set<BusFlag>)  // dbus_watch_handle
    | BusTimeoutHandle(timeout: TimeoutId)                 // dbus_timeout_handle
    | BusDispatch                                          // dbus_connection_dispatch
    | LoopTimerUpdate(source: SourceId, interval: int)     // wl_event_source_timer_update
    | LoopSourceRemove(source: SourceId)                   // wl_event_source_remove

  /** The outcome of one callback: the new state, its return value and the calls it made. */
  datatype Step<R> = Step(st: State, ret: R, calls: seq<Call>)

  // ---------------------------------------------------------------------
  // Host-loop primitives

  /** Allocation of a new source handle. */
  function AddSource(l: Loop, s: Source): (r: (Loop, SourceId))
    ensures r.1 !in l.sources
    ensures r.0.sources == l.sources[r.1 := s]
    ensures l.next <= r.1 < r.0.next
  {
    (EventLoop(l.sources[l.next := s], l.next + 1), l.next)
  }

  /** wl_event_loop_add_fd / wl_event_loop_add_timer: a fresh handle, or
      NULL (None) with the loop untouched when `ok` is false. */
  function AddOrFail(l: Loop, s: Source, ok: bool): (r: (Loop, Option<SourceId>))
    ensures !ok ==> r == (l, None)
    ensures ok ==> r.1.Some? && r.1.value !in l.sources && l.next <= r.1.value < r.0.next
    ensures ok ==> r.0.sources == l.sources[r.1.value := s]
  {
    if ok then var (l', id) := AddSource(l, s); (l', Some(id)) else (l, None)
  }

  /** wl_event_source_remove. */
  function RemoveSource(l: Loop, id: SourceId): (r: Loop)
    ensures r.sources == l.sources - {id}
    ensures r.next == l.next
  {
    EventLoop(l.sources - {id}, l.next)
  }

  /** wl_event_source_timer_update: re-arms a live timer source; on failure
      (`ok` false) or for any other handle the loop is unchanged. */
  function TimerUpdate(l: Loop, id: SourceId, interval: int, ok: bool): (r: Loop)
    ensures r.next == l.next && r.sources.Keys == l.sources.Keys
    ensures forall k :: k in l.sources && k != id ==> r.sources[k] == l.sources[k]
    ensures ok && id in l.sources && l.sources[id].TimerSource? ==>
              r.sources[id] == l.sources[id].(interval := interval)
    ensures !(ok && id in l.sources && l.sources[id].TimerSource?) ==> r == l
  {
    if ok && id in l.sources && l.sources[id].TimerSource? then
      EventLoop(l.sources[id := l.sources[id].(interval := interval)], l.next)
    else
      l
  }

  // ---------------------------------------------------------------------
  // Ownership of host-loop sources by bus handles

  /** The live sources registered on behalf of watch `w`. */
  function WatchSources(st: State, w: WatchId): set<SourceId> {
    set id | id in st.loop.sources && st.loop.sources[id].WatchSource? && st.loop.sources[id].watch == w
  }

  /** The live timer sources registered on behalf of timeout `t`. */
  function TimerSources(st: State, t: TimeoutId): set<SourceId> {
    set id | id in st.loop.sources && st.loop.sources[id].TimerSource? && st.loop.sources[id].timeout == t
  }

  /** Source `id` is the one the data slot of the handle it serves records. */
  predicate SourceOwned(st: State, id: SourceId)
    requires id in st.loop.sources
  {
    match st.loop.sources[id]
    case WatchSource(_, _, w) => w in st.watches && st.watches[w].data == Some(id)
    case TimerSource(_, t) => t in st.timeouts && st.timeouts[t].data == Some(id)
    case BusSource(_) => true
  }

  /** A data slot never names a handle the loop has not yet handed out. */
  predicate SlotAllocated(slot: Option<SourceId>, l: Loop) {
    slot.Some? ==> slot.value < l.next
  }

  /** The registry invariant: every live watch or timer source is recorded
      in its own handle's data slot, and every slot names an allocated handle. */
  predicate Owned(st: State) {
    && (forall id | id in st.loop.sources :: SourceOwned(st, id))
    && (forall w | w in st.watches :: SlotAllocated(st.watches[w].data, st.loop))
    && (forall t | t in st.timeouts :: SlotAllocated(st.timeouts[t].data, st.loop))
  }

  lemma SubsetOfSingleton(s: set<SourceId>, x: SourceId)
    requires s <= {x}
    ensures |s| <= 1
  {
    if s != {} {
      assert s == {x};
    }
  }

  /** Under the invariant a watch has at most one live registration, and it
      is the one its data slot records. */
  lemma AtMostOneWatchSource(st: State, w: WatchId)
    requires Owned(st)
    ensures |WatchSources(st, w)| <= 1
    ensures forall id :: id in WatchSources(st, w) ==> w in st.watches && st.watches[w].data == Some(id)
  {
    var ws := WatchSources(st, w);
    forall id | id in ws
      ensures w in st.watches && st.watches[w].data == Some(id)
    {
      assert SourceOwned(st, id);
    }
    if ws != {} {
      var x :| x in ws;
      SubsetOfSingleton(ws, x);
    }
  }

  /** Under the invariant a timeout has at most one live timer source. */
  lemma AtMostOneTimerSource(st: State, t: TimeoutId)
    requires Owned(st)
    ensures |TimerSources(st, t)| <= 1
    ensures forall id :: id in TimerSources(st, t) ==> t in st.timeouts && st.timeouts[t].data == Some(id)
  {
    var ts := TimerSources(st, t);
    forall id | id in ts
      ensures t in st.timeouts && st.timeouts[t].data == Some(id)
    {
      assert SourceOwned(st, id);
    }
    if ts != {} {
      var x :| x in ts;
      SubsetOfSingleton(ts, x);
    }
  }

  // ---------------------------------------------------------------------
  // Calls on removed sources

  /** A timer update or removal aimed at a handle the loop handed out earlier
      and has since removed: in the program, a call through a dangling
      wl_event_source pointer. Handles are never reused in the model, so the
      call itself changes nothing here; this predicate is what makes it visible. */
  predicate Dangling(before: Loop, c: Call) {
    (c.LoopTimerUpdate? || c.LoopSourceRemove?) && c.source < before.next && c.source !in before.sources
  }

  /** None of `calls`, made from a loop in state `before`, is dangling. */
  predicate NoDangling(before: Loop, calls: seq<Call>) {
    forall i :: 0 <= i < |calls| ==> !Dangling(before, calls[i])
  }

  /** A watch's data slot is empty or names a live source serving that watch. */
  predicate WatchSlotLive(st: State, w: WatchId)
    requires w in st.watches
  {
    match st.watches[w].data
    case None => true
    case Some(id) => id in st.loop.sources && st.loop.sources[id].WatchSource? && st.loop.sources[id].watch == w
  }

  /** A timeout's data slot is empty or names a live timer serving that timeout. */
  predicate TimeoutSlotLive(st: State, t: TimeoutId)
    requires t in st.timeouts
  {
    match st.timeouts[t].data
    case None => true
    case Some(id) => id in st.loop.sources && st.loop.sources[id].TimerSource? && st.loop.sources[id].timeout == t
  }

  /** Every data slot is empty or names a live source of its own handle. */
  predicate SlotsLive(st: State) {
    && (forall w | w in st.watches :: WatchSlotLive(st, w))
    && (forall t | t in st.timeouts :: TimeoutSlotLive(st, t))
  }
}
