/**
 The pending-dispatch flag: dwl_dbus_dispatch_status raises the eventfd
 counter whenever libdbus reports that data remains, and dwl_dbus_dispatch,
 run by the host loop while the descriptor is readable, dispatches once and
 clears the counter only after libdbus reports the queue drained. Together
 they turn libdbus's edge notification into a level the host loop observes.

 The counter follows Linux eventfd(2) without EFD_SEMAPHORE: a write of 1
 adds 1, a read returns the count and resets it to 0. With the descriptor
 at -1 both calls fail; the code only logs that, so the counter is unchanged.
 */
module Pending {
  import opened Bridge

  /** write(efd, 1). */
  function Raise(efd: Option<nat>): (r: Option<nat>)
    ensures r.Some? <==> efd.Some?
    ensures efd.Some? ==> r.value == efd.value + 1
  {
    match efd
    case None => None
    case Some(n) => Some(n + 1)
  }

  /** read(efd): drains the whole count. */
  function Drain(efd: Option<nat>): (r: Option<nat>)
    ensures r.Some? <==> efd.Some?
    ensures efd.Some? ==> r.value == 0
  {
    match efd
    case None => None
    case Some(_) => Some(0)
  }

  /** The host loop sees the eventfd readable exactly while the count is positive. */
  predicate EfdReadable(st: State) {
    st.efd.Some? && st.efd.value > 0
  }

  /** dwl_dbus_dispatch_status: libdbus reports a new dispatch status; only
      DATA_REMAINS raises the counter. Nothing is dispatched here. */
  function OnDispatchStatus(st: State, status: DispatchStatus): (r: Step<()>)
    ensures r.calls == []
    ensures r.st.loop == st.loop && r.st.watches == st.watches && r.st.timeouts == st.timeouts
    ensures r.st.conn == st.conn.(status := status)
    ensures status == DataRemains ==> r.st.efd == Raise(st.efd)
    ensures status != DataRemains ==> r.st.efd == st.efd
  {
    var st' := st.(conn := st.conn.(status := status));
    if status == DataRemains then Step(st'.(efd := Raise(st.efd)), (), [])
    else Step(st', (), [])
  }

  /** How many of `notices` report DATA_REMAINS. */
  function CountRemains(notices: seq<DispatchStatus>): nat {
    if |notices| == 0 then 0
    else (if notices[0] == DataRemains then 1 else 0) + CountRemains(notices[1..])
  }

  /** A run of notices raises the counter exactly when one of them reports
      DATA_REMAINS. */
  lemma {:induction false} CountRemainsPositive(notices: seq<DispatchStatus>)
    ensures CountRemains(notices) > 0 <==> DataRemains in notices
    decreases |notices|
  {
    if |notices| > 0 {
      CountRemainsPositive(notices[1..]);
      assert notices == [notices[0]] + notices[1..];
    }
  }

  /** The status notifications libdbus delivers, in order, to the installed
      dwl_dbus_dispatch_status while libdbus runs on the bridge's behalf
      (dispatching, or handling a watch or a timeout). */
  function Notify(st: State, notices: seq<DispatchStatus>): (r: State)
    ensures r.loop == st.loop && r.watches == st.watches && r.timeouts == st.timeouts
    ensures r.efd.Some? <==> st.efd.Some?
    ensures st.efd.Some? ==> r.efd.value == st.efd.value + CountRemains(notices)
    ensures r.conn.exitOnDisconnect == st.conn.exitOnDisconnect
    ensures r.conn.statusFn == st.conn.statusFn && r.conn.watchFns == st.conn.watchFns
    ensures r.conn.timeoutFns == st.conn.timeoutFns
    decreases |notices|
  {
    if |notices| == 0 then st
    else Notify(OnDispatchStatus(st, notices[0]).st, notices[1..])
  }

  /** dwl_dbus_dispatch: one call of dbus_connection_dispatch, during which
      libdbus may report statuses back (`notices`), returning `result`. The
      counter is drained only when the result is DISPATCH_COMPLETE;
      otherwise every raise stays in it, so the descriptor stays readable. */
  function Dispatch(st: State, notices: seq<DispatchStatus>, result: DispatchStatus): (r: Step<int>)
    ensures r.ret == 0 && r.calls == [BusDispatch]
    ensures r.st.loop == st.loop && r.st.watches == st.watches && r.st.timeouts == st.timeouts
    ensures r.st.conn == st.conn.(status := result)
    ensures r.st.efd.Some? <==> st.efd.Some?
    ensures result == Complete && st.efd.Some? ==> r.st.efd.value == 0
    ensures result != Complete && st.efd.Some? ==>
              r.st.efd.value == st.efd.value + CountRemains(notices)
  {
    var during := Notify(st, notices);
    var st' := during.(conn := during.conn.(status := result));
    if result != Complete then Step(st', 0, [BusDispatch])
    else Step(st'.(efd := Drain(st'.efd)), 0, [BusDispatch])
  }

  /** One host-loop iteration's worth of input for the bus source: the
      notifications libdbus makes during dispatch and the status it returns. */
  datatype Round = Round(notices: seq<DispatchStatus>, result: DispatchStatus)

  /** Host-loop iterations over the bus source: each iteration in which the
      eventfd is readable runs dwl_dbus_dispatch on the next round; the run
      stops as soon as the eventfd is not readable or the rounds run out.
      `ret` is the number of dispatch calls made. */
  function Pump(st: State, rounds: seq<Round>): (r: Step<nat>)
    ensures r.ret <= |rounds|
    ensures |r.calls| == r.ret && forall i :: 0 <= i < |r.calls| ==> r.calls[i] == BusDispatch
    ensures r.st.loop == st.loop && r.st.watches == st.watches && r.st.timeouts == st.timeouts
    ensures !EfdReadable(st) ==> r.st == st && r.ret == 0
    decreases |rounds|
  {
    if |rounds| == 0 || !EfdReadable(st) then Step(st, 0, [])
    else
      var one := Dispatch(st, rounds[0].notices, rounds[0].result);
      var rest := Pump(one.st, rounds[1..]);
      Step(rest.st, rest.ret + 1, one.calls + rest.calls)
  }

  /** Level triggering, a corollary of Dispatch's contract: while libdbus
      has not reported the queue drained, a readable eventfd stays readable
      across a dispatch. */
  lemma DispatchKeepsLevel(st: State, notices: seq<DispatchStatus>, result: DispatchStatus)
    requires EfdReadable(st) && result != Complete
    ensures EfdReadable(Dispatch(st, notices, result).st)
  {
  }

  /** A corollary of OnDispatchStatus's contract: a DATA_REMAINS notice
      always leaves a live eventfd readable. */
  lemma RaiseMakesReadable(st: State)
    requires st.efd.Some?
    ensures EfdReadable(OnDispatchStatus(st, DataRemains).st)
  {
  }

  /** No lost dispatch: starting from a raised flag, the host loop keeps
      dispatching, one call per iteration, up to and including the first
      round libdbus reports complete, and then stops with the counter at 0. */
  lemma {:induction false} PumpDrainsAtFirstComplete(st: State, rounds: seq<Round>, k: nat)
    requires EfdReadable(st)
    requires k < |rounds| && rounds[k].result == Complete
    requires forall i :: 0 <= i < k ==> rounds[i].result != Complete
    ensures Pump(st, rounds).ret == k + 1
    ensures Pump(st, rounds).st.efd == Some(0)
    decreases k
  {
    var one := Dispatch(st, rounds[0].notices, rounds[0].result);
    if k == 0 {
      assert !EfdReadable(one.st);
      assert Pump(one.st, rounds[1..]).ret == 0;
    } else {
      DispatchKeepsLevel(st, rounds[0].notices, rounds[0].result);
      forall i | 0 <= i < k - 1
        ensures rounds[1..][i].result != Complete
      {
        assert rounds[1..][i] == rounds[i + 1];
      }
      PumpDrainsAtFirstComplete(one.st, rounds[1..], k - 1);
    }
  }

  /** A corollary of Pump's contract: once drained, the host loop makes no
      further dispatch call until a new DATA_REMAINS raises the flag. */
  lemma DrainedStaysQuiet(st: State, rounds: seq<Round>)
    requires st.efd == Some(0)
    ensures Pump(st, rounds).ret == 0
    ensures Pump(st, rounds).st == st
  {
  }
}
