# dwl D-Bus bridge — a Dafny model

This project models `dwl/dbus.c`, the glue that lets dwl drive a libdbus
connection from its Wayland `wl_event_loop`. libdbus asks its host to watch
descriptors, run timers and dispatch queued messages. dwl answers with three
families of callbacks:

- the watch callbacks, which register fd sources with the loop;
- the timeout callbacks, which register timer sources;
- the dispatch-status callback, which raises a counter on an eventfd.

The loop runs `dwl_dbus_dispatch` whenever that eventfd is readable.
`startbus` and `stopbus` install and remove the bridge.

The model is functional. One immutable `Bridge.State` value holds:

- the loop's live sources, keyed by handle;
- the libdbus watches and timeouts, each with its `data` slot;
- the eventfd counter. It is `None` when `efd` is -1. It follows Linux
  eventfd(2) without `EFD_SEMAPHORE`: a write adds, a read resets to 0;
- the connection's `exit_on_disconnect` flag, its three installed-callback
  flags and its last dispatch status.

Each C function is a pure transition. It returns a `Step` holding the new
state, the C return value and, in order, the calls it made that the `Call`
type records: `dbus_watch_handle`, `dbus_timeout_handle`,
`dbus_connection_dispatch`, `wl_event_source_timer_update` and
`wl_event_source_remove`. Creating a source shows in the new state rather
than as a call. Getters, setters and logging are not recorded.

External results are parameters. These are: whether `eventfd`,
`dbus_connection_set_watch_functions`, `dbus_connection_set_timeout_functions`,
`wl_event_loop_add_fd` and `wl_event_source_timer_update` succeed; the status
`dbus_connection_dispatch` returns; and the status notifications libdbus makes
to `dwl_dbus_dispatch_status` while it dispatches or handles a watch or a
timeout.

Modules, in dependency order:

- `Flags` (`flags.dfy`): the `WL_EVENT_*` and `DBUS_WATCH_*` conditions as
  enum sets, and the two translations between them.
- `Bridge` (`bridge.dfy`): the state, the loop primitives and the registry
  invariant `Owned`. Under `Owned`, every live watch or timer source is the
  one recorded in its own handle's data slot.
- `Registry` (`registry.dfy`): the watch and timeout callbacks.
- `Pending` (`pending.dfy`): the eventfd counter protocol.
- `Lifecycle` (`lifecycle.dfy`): `startbus` and `stopbus`.
- `HostLoop` (`hostloop.dfy`): the loop running the callback a source was
  registered with, and the add/remove/toggle sequences libdbus drives over
  one watch or one timeout.

Points where the code does something other than what its callback names
suggest. The model does what the code does:

- `dwl_dbus_add_watch` returns TRUE even when `wl_event_loop_add_fd` fails.
  See Findings.
- `dwl_dbus_remove_watch` and `dwl_dbus_remove_timeout` do not clear the
  data slot. After a remove, the slot still names the removed source. See
  Findings.
- A failed `startbus` leaves `exit_on_disconnect` off. It also resets all
  three callback families to none, whatever was installed before.
- A disabled timeout may keep a live, armed timer. `dwl_dbus_adjust_timeout`
  is installed as the timeout-toggled callback, and it re-arms the timer
  rather than disarming it. `dwl_dbus_timeout_handle` then drops the expiry.
- A watch that is disabled when `dwl_dbus_add_watch` runs gets no source.
  Enabling it later does not give it one, because the watch-toggled callback
  is installed as NULL (dwl/dbus.c:196). `HostLoop.DisabledAddNeverRegisters`
  states this.
- A timeout that is disabled when `dwl_dbus_add_timeout` runs gets no timer
  either. Enabling it later does not give it one: the toggled callback,
  `dwl_dbus_adjust_timeout`, does nothing on an empty slot
  (dwl/dbus.c:120-121, 158-160). `HostLoop.DisabledAddNeverArms` states this.

## Model

| member | source | states |
|---|---|---|
| Flags.ReadyFlags | dwl/dbus.c:46-58 | The flags passed to `dbus_watch_handle` contain readable, writable, hangup and error exactly when the loop's mask contains the matching `WL_EVENT_*` condition. |
| Flags.InterestMask | dwl/dbus.c:72-81 | The mask registered for a watch contains readable/writable exactly when the watch's flags do, and never hangup or error. |
| Flags.ReadyFlagsIsImage | dwl/dbus.c:51-58 | The ready-path translation renames each reported condition one for one and adds none. |
| Flags.ReadyFlagsInjective | dwl/dbus.c:51-58 | Distinct loop masks are forwarded as distinct flag sets, so no readiness information is lost. |
| Flags.InterestThenReady | dwl/dbus.c:51-81 | Registering a watch's interest and getting it back as ready yields exactly the readable/writable part of the watch's flags. |
| Flags.ReadyThenInterest | dwl/dbus.c:51-81 | Translating a ready mask to flags and back to interest keeps exactly its readable/writable part. |
| Bridge.AtMostOneWatchSource | dwl/dbus.c:84-98 | Under the registry invariant a watch has at most one live fd source, and that source is the one in its data slot. |
| Bridge.AtMostOneTimerSource | dwl/dbus.c:125-149 | Under the registry invariant a timeout has at most one live timer source, and that source is the one in its data slot. |
| Registry.OnWatchReady | dwl/dbus.c:41-63 | A disabled watch forwards nothing and changes nothing. An enabled one makes exactly one `dbus_watch_handle` call, with the flags matching the mask condition by condition. Status reports libdbus makes during that call raise the counter by the number of DATA_REMAINS among them. The result is 0, and the loop, the watches and the timeouts are unchanged. |
| Registry.AddWatch | dwl/dbus.c:65-90 | Returns TRUE in every case. A disabled watch leaves the state untouched. An enabled one gets exactly one new fd source on its descriptor, and the slot stores its handle; or, when `wl_event_loop_add_fd` fails, the slot is overwritten with NULL and the loop is untouched. Other watches, timeouts, the counter and the connection are unchanged. |
| Registry.AddWatchChecked | dwl/dbus.c:84-89 | Corrected callback: returns FALSE exactly when an enabled watch's registration fails, and then changes nothing. Otherwise it behaves as written. |
| Registry.RemoveWatch | dwl/dbus.c:92-99 | A no-op on an empty slot. Otherwise it removes exactly the stored source, makes one `wl_event_source_remove` call, and leaves the slot and everything else as it was. |
| Registry.OnTimeoutExpired | dwl/dbus.c:101-110 | An enabled timeout makes one `dbus_timeout_handle` call, and status reports during it raise the counter by the number of DATA_REMAINS among them. A disabled one makes no call and changes nothing. The result is 0, and the loop, the watches and the timeouts are unchanged. |
| Registry.AddTimeout | dwl/dbus.c:112-137 | Returns TRUE for a disabled timeout and creates nothing. If arming fails, the new timer is updated and then removed, the source map and slots are unchanged, and it returns FALSE. On success one new timer armed with the bus interval is stored in the slot, and it returns TRUE. |
| Registry.RemoveTimeout | dwl/dbus.c:139-150 | A no-op on an empty slot. Otherwise it first re-arms the stored timer to interval 0, then removes exactly that source, and leaves the slot as it was. |
| Registry.RemoveWatchClearing | dwl/dbus.c:92-99 | Corrected callback: the same calls and loop effect as `RemoveWatch`, and afterwards the watch's slot is NULL. Every other watch, the timeouts, the counter and the connection are unchanged. |
| Registry.RemoveTimeoutClearing | dwl/dbus.c:139-150 | Corrected callback: the same calls and loop effect as `RemoveTimeout`, and afterwards the timeout's slot is NULL. |
| Registry.AdjustTimeout | dwl/dbus.c:152-164 | A no-op on an empty slot, creating nothing. Otherwise it re-arms the stored timer with the timeout's current interval and touches no other source. |
| Registry.AddWatchKeepsOwnership | dwl/dbus.c:74-89 | Adding an unregistered watch keeps the registry invariant. The watch ends with one live source exactly when it was enabled and the loop accepted it, and with none otherwise. |
| Registry.RemoveWatchKeepsOwnership | dwl/dbus.c:95-98 | Removing a watch keeps the invariant and leaves the watch with no live source. |
| Registry.AddTimeoutKeepsOwnership | dwl/dbus.c:120-136 | Adding an unregistered timeout keeps the invariant. The timeout ends with one live timer exactly when it was enabled and arming succeeded. |
| Registry.RemoveTimeoutKeepsOwnership | dwl/dbus.c:144-149 | Removing a timeout keeps the invariant and leaves it with no live timer. |
| Registry.AdjustTimeoutKeepsOwnership | dwl/dbus.c:158-163 | Re-arming keeps the invariant and the timeout's set of live timers. |
| Registry.AdjustTimeoutRearms | dwl/dbus.c:158-163 | After a successful adjust, the timeout's live timer is armed with the timeout's current interval. |
| Registry.AddWatchHidesRefusal | dwl/dbus.c:84-89 | As written: an enabled watch whose registration the loop refuses is still reported as added, and no source serves it. |
| Registry.AddWatchCheckedIsHonest | dwl/dbus.c:84-89 | With the corrected callback, TRUE for an enabled watch means exactly one live source serves it. |
| Registry.AddWatchCheckedKeepsOwnership | dwl/dbus.c:84-89 | The corrected callback keeps the registry invariant, with at most one source per watch. |
| Registry.RemoveWatchClearingKeepsOwnership | dwl/dbus.c:95-98 | The clearing remove keeps the registry invariant and leaves the watch with no live source. |
| Registry.RemoveTimeoutClearingKeepsOwnership | dwl/dbus.c:144-149 | The clearing timeout remove keeps the registry invariant and leaves the timeout with no live timer. |
| Registry.StaleWatchSlotDangles | dwl/dbus.c:95-98 | As written: a remove through a slot that names an already removed source calls `wl_event_source_remove` on that dead source. |
| Registry.StaleTimeoutSlotDangles | dwl/dbus.c:141-163 | As written: a remove or an adjust through a slot that names an already removed timer calls `wl_event_source_timer_update` on that dead source. |
| Registry.AddWatchKeepsSlotsLive | dwl/dbus.c:74-89 | Adding a watch makes no loop call and keeps every slot either NULL or naming a live source of its own handle. |
| Registry.RemoveWatchClearingIsSafe | dwl/dbus.c:92-99 | With every slot NULL or live, the clearing remove calls `wl_event_source_remove` only on a live source, and keeps every slot NULL or live. |
| Registry.AddTimeoutIsSafe | dwl/dbus.c:120-136 | Adding a timeout updates and removes only the timer it has just created, and keeps every slot NULL or live. |
| Registry.RemoveTimeoutClearingIsSafe | dwl/dbus.c:139-150 | With every slot NULL or live, the clearing timeout remove touches only a live timer, and keeps every slot NULL or live. |
| Registry.AdjustTimeoutIsSafe | dwl/dbus.c:152-164 | With every slot NULL or live, adjusting re-arms only a live timer, and keeps every slot NULL or live. |
| Pending.OnDispatchStatus | dwl/dbus.c:166-174 | Only DATA_REMAINS raises the counter, by one. Other statuses leave it unchanged, and nothing is dispatched. |
| Pending.CountRemainsPositive | dwl/dbus.c:166-174 | A run of status notifications raises the counter exactly when one of them is DATA_REMAINS. |
| Pending.Notify | dwl/dbus.c:166-174 | Status notifications made while libdbus works raise the counter by the number of DATA_REMAINS among them, and change nothing else the bridge owns. |
| Pending.Dispatch | dwl/dbus.c:18-39 | Calls `dbus_connection_dispatch` exactly once. The counter goes to 0 only on DISPATCH_COMPLETE. Otherwise it keeps every raise, including raises made during the dispatch. |
| Pending.Pump | dwl/dbus.c:26-36 | Loop iterations on the bus source make at most one dispatch call each, and none at all while the eventfd is not readable. |
| Pending.DispatchKeepsLevel | dwl/dbus.c:28-33 | Corollary of `Pending.Dispatch`: a readable eventfd stays readable across a dispatch that does not report the queue drained. |
| Pending.RaiseMakesReadable | dwl/dbus.c:169-173 | Corollary of `Pending.OnDispatchStatus`: a DATA_REMAINS notification always leaves an open eventfd readable. |
| Pending.PumpDrainsAtFirstComplete | dwl/dbus.c:26-36 | No lost dispatch: from a raised flag, the loop dispatches once per iteration up to and including the first DISPATCH_COMPLETE, then stops with the counter at 0. |
| Pending.DrainedStaysQuiet | dwl/dbus.c:32-36 | Corollary of `Pending.Pump`: once drained, no further dispatch happens until a new raise. |
| Lifecycle.Abort | dwl/dbus.c:216-227 | The failure path closes the descriptor (efd -1), resets all three callback families to none and changes no loop source. |
| Lifecycle.StartBus | dwl/dbus.c:176-228 | Succeeds exactly when all four external steps succeed. On failure: NULL, efd -1, no callbacks, loop unchanged. On success: all three families installed, exactly one new readable bus source, `exit_on_disconnect` off, and the counter 1 when the status was already DATA_REMAINS, else 0. Watches and timeouts are unchanged in the model, which leaves out the add and remove callbacks libdbus runs when a family is installed or reset. |
| Lifecycle.StopBus | dwl/dbus.c:230-240 | Removes exactly the bus source, leaves efd at -1 and no callback family installed. |
| Lifecycle.StartFailureRollsBack | dwl/dbus.c:216-227 | A failed start on an unstarted bridge changes nothing except switching `exit_on_disconnect` off, in the model, which leaves out the install and reset callbacks. |
| Lifecycle.StartThenStop | dwl/dbus.c:182-239 | A successful start followed by stop restores the loop's sources and the unstarted state, in the model, which leaves out the install and reset callbacks. |
| Lifecycle.StartPrimesDispatch | dwl/dbus.c:210-212 | With data already queued, the first loop iteration after a successful start dispatches. |
| Lifecycle.StartWithoutDataIsQuiet | dwl/dbus.c:210-214 | With no data queued, a fresh bridge does not dispatch until it is raised. |
| Lifecycle.LifecycleKeepsOwnership | dwl/dbus.c:206-233 | Corollary of the `StartBus` and `StopBus` contracts: start, on any outcome, and stop both keep the registry invariant. |
| HostLoop.Fire | dwl/dbus.c:84-85 | A ready source delivers only to the handle it was registered for: a watch source (registered at dwl/dbus.c:84-85), a timer source (dwl/dbus.c:125-126) or the bus source (dwl/dbus.c:206). Watch flags are translated. Only the bus source dispatches. A watch or timer source calls libdbus exactly when its handle is enabled, never lowers the counter, raises it by the DATA_REMAINS reports made meanwhile, and leaves the installed callbacks and `exit_on_disconnect` as they were. |
| HostLoop.HandlerNoticeRaisesFlag | dwl/dbus.c:166-174 | A DATA_REMAINS report made while libdbus handles a watch or timeout leaves an open eventfd readable, so the queued message is dispatched later. |
| HostLoop.RegisteredWatchDelivers | dwl/dbus.c:48-60 | A registered watch's source forwards readiness exactly while the watch is enabled, whatever it was toggled to since registration. |
| HostLoop.ArmedTimerDelivers | dwl/dbus.c:101-110 | An armed timeout's timer forwards an expiry exactly while the timeout is enabled, whatever it was toggled to since arming. |
| HostLoop.WatchLifecycleSymmetry | dwl/dbus.c:74-98 | Over any libdbus sequence of add, remove and toggle on one watch, it never has more than one live source, and it has none whenever remove came last. This holds with the remove as written and with the clearing one. It says nothing about calls on removed sources. |
| HostLoop.AsWrittenWatchRunDangles | dwl/dbus.c:74-98 | As written: add, remove, disable, add, remove is a valid libdbus sequence in which the last remove calls `wl_event_source_remove` on a source removed earlier. |
| HostLoop.ClearingWatchRunIsSafe | dwl/dbus.c:74-98 | With the clearing remove and every slot NULL or live at the start, no event of any sequence calls the loop on a removed source, and every slot stays NULL or live. |
| HostLoop.DisabledAddNeverRegisters | dwl/dbus.c:194-196 | A watch disabled at add time and enabled afterwards has no live source. |
| HostLoop.DisabledAddNeverArms | dwl/dbus.c:158-160 | A timeout with an empty slot that is disabled at add time and then enabled with a new interval still has an empty slot, and the loop is untouched, so no timer serves it. |
| HostLoop.TimeoutLifecycleSymmetry | dwl/dbus.c:120-163 | The same holds for one timeout under add, remove and change-then-adjust, for both removes. |
| HostLoop.AsWrittenTimeoutRunDangles | dwl/dbus.c:120-163 | As written: add, disable, remove, add, remove is a valid libdbus sequence in which the last remove updates and removes a timer removed earlier. |
| HostLoop.ClearingTimeoutRunIsSafe | dwl/dbus.c:120-163 | With the clearing remove and every slot NULL or live at the start, no event of any sequence updates or removes a removed source, and every slot stays NULL or live. |
| HostLoop.ChangeRearmsWithNewInterval | dwl/dbus.c:152-164 | Changing a registered timeout's interval from A to B leaves its live timer armed with B. |

## Left out

- The BSD `kqueue` branch. Writing to a kqueue descriptor is not a counter. Only the Linux eventfd path is modelled.
- The bit values of `WL_EVENT_*` and `DBUS_WATCH_*`. The headers that define them are not part of this model. Flags are sets of named conditions. A mask bit outside the four conditions is not represented.
- The system calls themselves: `eventfd`, `read`, `write`, `close` and `perror`. A read or write on efd = -1 fails, and the code only logs it. The model therefore leaves the counter unchanged. Writes on an open eventfd always succeed.
- Pending.Raise: the counter is unbounded. The eventfd ceiling of 2^64-2 is not modelled; at that ceiling a blocking write would stall.
- Pending.Dispatch: a read at count 0 would block on the blocking eventfd. The model drains unconditionally. The loop only runs the callback while the eventfd is readable, and `Pump` respects that.
- The case where `wl_event_loop_add_timer` returns NULL. The code passes that result unchecked to `wl_event_source_timer_update`. The model always creates the timer source.
- Registry.RemoveTimeout: the result of the disarming `wl_event_source_timer_update` is ignored by the code. The model treats the disarm as succeeding. The source is removed immediately afterwards either way.
- libdbus internals: the message queue, message handlers and the wire protocol. Also left out are the add/remove calls libdbus makes for existing watches and timeouts when callback families are installed or reset. Those calls are modelled separately as the `HostLoop` event sequences.
- Free-data and destructor pointers, and the identity of the installed function pointers. "Installed or none" booleans stand in for them.
- The `fd` and `mask` arguments of `dwl_dbus_dispatch`. `mask` is unused. `fd` is the descriptor the bus source was registered on (dwl/dbus.c:206), which is `efd` for the single bridge the code supports, so the model drains `efd`. The `conn` data pointer is implicit, because the model has one connection.
- Lifecycle.StartBus: the add callbacks libdbus runs on existing watches and timeouts inside `dbus_connection_set_watch_functions` and `dbus_connection_set_timeout_functions`, and the remove callbacks run when a family is reset, are not part of StartBus or StopBus. Their effect is modelled by the `HostLoop` event sequences.
- Source handles are never reused, so a call on a removed source cannot reach a newer one. In the C program such a call is a use after free. The model records it as a call on a dead handle (`Bridge.Dangling`) and does not model what it would do.
- The process-global `efd` (dwl/dbus.c:16). It is a field of the state.
- Integer widths. Intervals and descriptors are C `int`s that the code only stores and passes on. Unbounded integers represent them exactly.

## Findings

| source | as written | input that shows it | evidently intended | confidence | as-written member | corrected member |
|---|---|---|---|---|---|---|
| dwl/dbus.c:84-89 | `dwl_dbus_add_watch` stores the result of `wl_event_loop_add_fd` and returns TRUE even when that result is NULL | an enabled watch for which `wl_event_loop_add_fd` fails: TRUE is returned and no source serves the watch, so libdbus waits on a descriptor nobody polls | return FALSE when the registration fails, leaving the slot untouched, as `dwl_dbus_add_timeout` does for its own failure | medium; not executed | Registry.AddWatch (shown by Registry.AddWatchHidesRefusal) | Registry.AddWatchChecked (proved by Registry.AddWatchCheckedIsHonest and Registry.AddWatchCheckedKeepsOwnership) |
| dwl/dbus.c:92-99 | `dwl_dbus_remove_watch` removes the stored source but leaves the watch's data pointing at it | the bridge is stopped while a watch is enabled, the watch is disabled, and the bridge is started again on the same connection: the add callback returns early on the disabled watch, and the next remove calls `wl_event_source_remove` on the freed source | clear the data with `dbus_watch_set_data(watch, NULL, NULL)` after removing | low; not executed | Registry.RemoveWatch (shown by HostLoop.AsWrittenWatchRunDangles) | Registry.RemoveWatchClearing (proved by HostLoop.ClearingWatchRunIsSafe) |
| dwl/dbus.c:139-150 | `dwl_dbus_remove_timeout` removes the stored timer but leaves the timeout's data pointing at it | the same stop and restart with a disabled timeout: the next remove, or an adjust, calls `wl_event_source_timer_update` and `wl_event_source_remove` on the freed timer | clear the data with `dbus_timeout_set_data(timeout, NULL, NULL)` after removing | low; not executed | Registry.RemoveTimeout (shown by HostLoop.AsWrittenTimeoutRunDangles) | Registry.RemoveTimeoutClearing (proved by HostLoop.ClearingTimeoutRunIsSafe) |

The lifecycle lemmas in `HostLoop` run the add-watch callback as written. The
corrected one differs only by leaving the state untouched on failure, and
`Registry.AddWatchCheckedKeepsOwnership` shows it keeps the same invariant.
The watch and timeout runs take the remove callbacks either as written or
clearing; the symmetry lemmas hold for both, and the safety lemmas for the
clearing ones.
