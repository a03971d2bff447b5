/** The browser client's connection handling (src/App.js, the `useEffect` on `isLive`):
    each run of the live effect owns the variables `websocket` and `reconnectTimeout`
    of its `connect` closure; socket and timer callbacks keep acting on the run that
    created them after it has been cleaned up. */
module Monitor {
  import opened Wrappers
  import opened Sockets
  import Feed
  import Status

  /** Delay of `setTimeout(connect, 5000)`. */
  const RECONNECT_DELAY_MS: nat := 5000

  /** A `new WebSocket(...)`: the effect run whose `connect` created it, and its state. */
  datatype Socket = Socket(run: nat, state: ReadyState)

  /** The variables `websocket` and `reconnectTimeout` of one run of the live effect. */
  datatype EffectRun = EffectRun(websocket: Option<nat>, reconnectTimeout: Option<nat>)

  /** A `setTimeout(connect, 5000)`: the run whose `connect` it calls, and whether it has
      neither fired nor been cleared. */
  datatype Timer = Timer(run: nat, delayMs: nat, pending: bool)

  /** The component: its React state (`live`, `status`, `ws`, `transactions`), the
      objects created so far, and the live effect run whose cleanup React will call on
      the next toggle (None while the paused branch is the current effect). */
  datatype Ui = Ui(
    live: bool,
    status: string,
    ws: Option<nat>,
    transactions: seq<Feed.Entry>,
    sockets: seq<Socket>,
    runs: seq<EffectRun>,
    timers: seq<Timer>,
    mounted: Option<nat>)

  /** Every reference points at an object that exists. */
  predicate Wf(u: Ui)
  {
    && (forall k :: 0 <= k < |u.sockets| ==> u.sockets[k].run < |u.runs|)
    && (forall r :: 0 <= r < |u.runs| ==>
          (u.runs[r].websocket.Some? ==> u.runs[r].websocket.value < |u.sockets|)
          && (u.runs[r].reconnectTimeout.Some? ==> u.runs[r].reconnectTimeout.value < |u.timers|))
    && (forall t :: 0 <= t < |u.timers| ==> u.timers[t].run < |u.runs|)
    && (u.ws.Some? ==> u.ws.value < |u.sockets|)
    && (u.mounted.Some? ==> u.mounted.value < |u.runs|)
  }

  /** What can happen to the component: a click on the LIVE/PAUSED button (with whether
      the next `new WebSocket` throws), an event of a socket, or a timer firing. */
  datatype Event =
    | Toggle(ctorThrows: bool)
    | SocketOpened(socket: nat)
    | SocketMessage(socket: nat, message: Feed.Incoming)
    | SocketErrored(socket: nat)
    | SocketClosed(socket: nat)
    | TimerFired(timer: nat, ctorThrows: bool)

  /** Events the browser can deliver: `open` on a CONNECTING socket, messages on an
      OPEN one, `error` and `close` before CLOSED, and timers that are pending. */
  predicate Enabled(u: Ui, ev: Event)
  {
    match ev
    case Toggle(_) => true
    case SocketOpened(k) => k < |u.sockets| && u.sockets[k].state == Connecting
    case SocketMessage(k, _) => k < |u.sockets| && u.sockets[k].state == Open
    case SocketErrored(k) => k < |u.sockets| && Live(u.sockets[k].state)
    case SocketClosed(k) => k < |u.sockets| && Live(u.sockets[k].state)
    case TimerFired(t, _) => t < |u.timers| && u.timers[t].pending
  }

  /** `reconnectTimeout = setTimeout(connect, 5000)` inside run `r`. */
  function ScheduleReconnect(u: Ui, r: nat): (v: Ui)
    requires Wf(u) && r < |u.runs|
    ensures Wf(v)
    ensures v.live == u.live && v.status == u.status && v.transactions == u.transactions
  {
    var t := |u.timers|;
    u.(timers := u.timers + [Timer(r, RECONNECT_DELAY_MS, true)],
       runs := u.runs[r := u.runs[r].(reconnectTimeout := Some(t))])
  }

  /** `connect()` of run `r`: a new socket becomes `websocket` and `ws`; if the
      constructor throws, the status is 'error' and a reconnect is scheduled. */
  function Connect(u: Ui, r: nat, ctorThrows: bool): (v: Ui)
    requires Wf(u) && r < |u.runs|
    ensures Wf(v)
    ensures v.live == u.live && v.transactions == u.transactions
    ensures v.status == if ctorThrows then Status.ERROR else u.status
  {
    if ctorThrows then ScheduleReconnect(u.(status := Status.ERROR), r)
    else
      var k := |u.sockets|;
      u.(sockets := u.sockets + [Socket(r, Connecting)],
         runs := u.runs[r := u.runs[r].(websocket := Some(k))],
         ws := Some(k))
  }

  /** `socket.close()`: a CONNECTING or OPEN socket starts CLOSING; otherwise nothing. */
  function CloseSocket(u: Ui, k: nat): (v: Ui)
    requires Wf(u) && k < |u.sockets|
    ensures Wf(v)
    ensures |v.sockets| == |u.sockets| && !Active(v.sockets[k].state) && v.sockets[k].run == u.sockets[k].run
    ensures forall j :: 0 <= j < |u.sockets| && j != k ==> v.sockets[j] == u.sockets[j]
    ensures v.timers == u.timers && v.runs == u.runs && v.ws == u.ws && v.mounted == u.mounted
    ensures v.(sockets := u.sockets) == u
    ensures v.live == u.live && v.status == u.status && v.transactions == u.transactions
  {
    if Active(u.sockets[k].state)
    then u.(sockets := u.sockets[k := u.sockets[k].(state := Closing)])
    else u
  }

  /** `clearTimeout(t)`. */
  function ClearTimer(u: Ui, t: nat): (v: Ui)
    requires Wf(u) && t < |u.timers|
    ensures Wf(v)
    ensures |v.timers| == |u.timers| && !v.timers[t].pending && v.timers[t].run == u.timers[t].run
    ensures forall i :: 0 <= i < |u.timers| && i != t ==> v.timers[i] == u.timers[i]
    ensures v.sockets == u.sockets && v.runs == u.runs && v.ws == u.ws && v.mounted == u.mounted
    ensures v.(timers := u.timers) == u
    ensures v.live == u.live && v.status == u.status && v.transactions == u.transactions
  {
    u.(timers := u.timers[t := u.timers[t].(pending := false)])
  }

  /** The cleanup of the live effect: close its `websocket`, clear its
      `reconnectTimeout`. */
  function Cleanup(u: Ui): (v: Ui)
    requires Wf(u)
    ensures Wf(v) && v.mounted.None?
    ensures v.live == u.live && v.status == u.status && v.transactions == u.transactions
    ensures |v.sockets| == |u.sockets| && |v.timers| == |u.timers| && v.runs == u.runs && v.ws == u.ws
  {
    match u.mounted
    case None => u
    case Some(r) =>
      var run := u.runs[r];
      var u1 := if run.websocket.Some? then CloseSocket(u, run.websocket.value) else u;
      var u2 := if run.reconnectTimeout.Some? then ClearTimer(u1, run.reconnectTimeout.value) else u1;
      u2.(mounted := None)
  }

  /** The cleanup closes the live run's `websocket` and clears its `reconnectTimeout`,
      and touches no other socket or timer; with no live run it does nothing. */
  lemma CleanupEffect(u: Ui)
    requires Wf(u)
    ensures var v := Cleanup(u);
      && (u.mounted.None? ==> v == u)
      && (u.mounted.Some? ==>
            var run := u.runs[u.mounted.value];
            && (run.websocket.Some? ==> !Active(v.sockets[run.websocket.value].state))
            && (run.reconnectTimeout.Some? ==> !v.timers[run.reconnectTimeout.value].pending)
            && (forall j :: 0 <= j < |u.sockets| && run.websocket != Some(j) ==> v.sockets[j] == u.sockets[j])
            && (forall i :: 0 <= i < |u.timers| && run.reconnectTimeout != Some(i) ==> v.timers[i] == u.timers[i]))
  {
    if u.mounted.Some? {
      var run := u.runs[u.mounted.value];
      var u1 := if run.websocket.Some? then CloseSocket(u, run.websocket.value) else u;
      assert u1.timers == u.timers && |u1.sockets| == |u.sockets|;
      assert run.websocket.Some? ==> !Active(u1.sockets[run.websocket.value].state);
    }
  }

  /** The effect body. Paused: close `ws` if there is one and forget it. Live: a new
      run starts and calls `connect()`. */
  function RunEffect(u: Ui, ctorThrows: bool): (v: Ui)
    requires Wf(u) && u.mounted.None?
    ensures Wf(v)
    ensures v.live == u.live && v.transactions == u.transactions
    ensures v.status == u.status || v.status == Status.ERROR
  {
    if !u.live then
      if u.ws.Some? then CloseSocket(u, u.ws.value).(ws := None) else u
    else
      var r := |u.runs|;
      Connect(u.(runs := u.runs + [EffectRun(None, None)], mounted := Some(r)), r, ctorThrows)
  }

  /** The paused branch closes any socket held in `ws`, opens none and schedules
      nothing. */
  lemma PausedBranch(u: Ui, ctorThrows: bool)
    requires Wf(u) && u.mounted.None? && !u.live
    ensures var v := RunEffect(u, ctorThrows);
      && v.ws.None? && v.mounted.None? && v.status == u.status
      && |v.sockets| == |u.sockets| && v.timers == u.timers && v.runs == u.runs
      && (forall k :: 0 <= k < |v.sockets| ==>
            v.sockets[k] == if u.ws == Some(k) && Active(u.sockets[k].state)
                            then u.sockets[k].(state := Closing) else u.sockets[k])
  {
  }

  /** The component as first rendered, before its effect runs. */
  function Mount(): (u: Ui)
    ensures Wf(u)
  {
    Ui(true, Status.CONNECTING, None, [], [], [], [], None)
  }

  /** The component after its first effect has run. */
  function Init(ctorThrows: bool): (u: Ui)
    ensures Wf(u)
  {
    RunEffect(Mount(), ctorThrows)
  }

  /** The `onclose` handler of socket `k`: 'reconnecting', and a reconnect scheduled in
      the run that created the socket. */
  function CloseHandler(u: Ui, k: nat): (v: Ui)
    requires Wf(u) && k < |u.sockets|
    ensures Wf(v)
    ensures v.live == u.live && v.status == Status.RECONNECTING && v.transactions == u.transactions
  {
    ScheduleReconnect(
      u.(sockets := u.sockets[k := u.sockets[k].(state := Closed)], status := Status.RECONNECTING),
      u.sockets[k].run)
  }

  /** One event, as the code is written. */
  function Step(u: Ui, ev: Event): (v: Ui)
    requires Wf(u) && Enabled(u, ev)
    ensures Wf(v)
  {
    match ev
    case Toggle(ctorThrows) => RunEffect(Cleanup(u).(live := !u.live), ctorThrows)
    case SocketOpened(k) =>
      u.(sockets := u.sockets[k := u.sockets[k].(state := Open)], status := Status.CONNECTED)
    case SocketMessage(_, m) => u.(transactions := Feed.Receive(u.transactions, m))
    case SocketErrored(_) => u.(status := Status.ERROR)
    case SocketClosed(k) => CloseHandler(u, k)
    case TimerFired(t, ctorThrows) => Connect(ClearTimer(u, t), u.timers[t].run, ctorThrows)
  }

  /** `onopen`: the socket is OPEN and the badge reads 'connected'; nothing else
      changes. */
  lemma OpenTransition(u: Ui, k: nat)
    requires Wf(u) && Enabled(u, SocketOpened(k))
    ensures var v := Step(u, SocketOpened(k));
      && v.status == Status.CONNECTED
      && |v.sockets| == |u.sockets| && v.sockets[k] == Socket(u.sockets[k].run, Open)
      && (forall j :: 0 <= j < |u.sockets| && j != k ==> v.sockets[j] == u.sockets[j])
      && v.(sockets := u.sockets, status := u.status) == u
  {
  }

  /** `onerror`: the badge reads 'error'; nothing else changes, and in particular no
      reconnect is scheduled. */
  lemma ErrorTransition(u: Ui, k: nat)
    requires Wf(u) && Enabled(u, SocketErrored(k))
    ensures var v := Step(u, SocketErrored(k));
      v.status == Status.ERROR && v.(status := u.status) == u
  {
  }

  /** `onmessage`: only the feed changes. */
  lemma MessageTransition(u: Ui, k: nat, m: Feed.Incoming)
    requires Wf(u) && Enabled(u, SocketMessage(k, m))
    ensures var v := Step(u, SocketMessage(k, m));
      v.transactions == Feed.Receive(u.transactions, m) && v.(transactions := u.transactions) == u
  {
  }

  /** `onclose`: the socket is CLOSED, the badge reads 'reconnecting', and exactly one
      pending 5000 ms timer is added, owned by the run that created the socket and
      recorded as that run's `reconnectTimeout`; nothing else changes. */
  lemma CloseTransition(u: Ui, k: nat)
    requires Wf(u) && Enabled(u, SocketClosed(k))
    ensures var v := Step(u, SocketClosed(k));
      var r := u.sockets[k].run;
      && v.status == Status.RECONNECTING
      && |v.sockets| == |u.sockets| && v.sockets[k] == Socket(r, Closed)
      && (forall j :: 0 <= j < |u.sockets| && j != k ==> v.sockets[j] == u.sockets[j])
      && v.timers == u.timers + [Timer(r, RECONNECT_DELAY_MS, true)]
      && v.runs == u.runs[r := u.runs[r].(reconnectTimeout := Some(|u.timers|))]
      && v.live == u.live && v.ws == u.ws && v.mounted == u.mounted
      && v.transactions == u.transactions
  {
  }

  /** A reconnect timer fires: it is no longer pending and its run's `connect()` runs.
      Either a new CONNECTING socket of that run becomes its `websocket` and `ws`, or the
      constructor throws, the badge reads 'error' and one new pending 5000 ms timer of
      that run is its `reconnectTimeout`. */
  lemma TimerTransition(u: Ui, t: nat, ctorThrows: bool)
    requires Wf(u) && Enabled(u, TimerFired(t, ctorThrows))
    ensures var v := Step(u, TimerFired(t, ctorThrows));
      var r := u.timers[t].run;
      && |v.timers| >= |u.timers| && !v.timers[t].pending
      && (forall i :: 0 <= i < |u.timers| && i != t ==> v.timers[i] == u.timers[i])
      && |v.runs| == |u.runs|
      && (forall q :: 0 <= q < |u.runs| && q != r ==> v.runs[q] == u.runs[q])
      && v.live == u.live && v.mounted == u.mounted && v.transactions == u.transactions
      && (!ctorThrows ==>
            && v.status == u.status
            && v.sockets == u.sockets + [Socket(r, Connecting)]
            && v.ws == Some(|u.sockets|) && v.runs[r].websocket == Some(|u.sockets|)
            && v.runs[r].reconnectTimeout == u.runs[r].reconnectTimeout
            && |v.timers| == |u.timers|)
      && (ctorThrows ==>
            && v.status == Status.ERROR
            && v.sockets == u.sockets && v.ws == u.ws
            && v.timers == u.timers[t := u.timers[t].(pending := false)] + [Timer(r, RECONNECT_DELAY_MS, true)]
            && v.runs[r] == u.runs[r].(reconnectTimeout := Some(|u.timers|)))
  {
  }

  /** A click on LIVE: `isLive` becomes false. The cleanup closes the live run's
      `websocket` and clears its `reconnectTimeout`; the paused branch closes the socket
      held in `ws` and empties `ws`. No socket, timer or run is created. */
  lemma PauseTransition(u: Ui, ctorThrows: bool)
    requires Wf(u) && u.live
    ensures var v := Step(u, Toggle(ctorThrows));
      && !v.live && v.ws.None? && v.mounted.None?
      && v.status == u.status && v.transactions == u.transactions
      && |v.sockets| == |u.sockets| && |v.timers| == |u.timers| && |v.runs| == |u.runs|
      && (u.ws.Some? ==> !Active(v.sockets[u.ws.value].state))
      && (u.mounted.Some? ==>
            var run := u.runs[u.mounted.value];
            && (run.websocket.Some? ==> !Active(v.sockets[run.websocket.value].state))
            && (run.reconnectTimeout.Some? ==> !v.timers[run.reconnectTimeout.value].pending))
  {
  }

  /** A click on PAUSED: `isLive` becomes true and a new effect run starts, whose
      `connect()` either opens a new CONNECTING socket held in `ws`, or throws, reads
      'error' and arms one pending 5000 ms timer of the new run. */
  lemma ResumeTransition(u: Ui, ctorThrows: bool)
    requires Wf(u) && !u.live
    ensures var v := Step(u, Toggle(ctorThrows));
      var c := Cleanup(u);
      && v.live && v.transactions == u.transactions
      && v.runs == c.runs + [v.runs[|u.runs|]] && v.mounted == Some(|u.runs|)
      && (!ctorThrows ==>
            && v.status == u.status
            && v.sockets == c.sockets + [Socket(|u.runs|, Connecting)]
            && v.ws == Some(|u.sockets|)
            && v.runs[|u.runs|] == EffectRun(Some(|u.sockets|), None)
            && v.timers == c.timers)
      && (ctorThrows ==>
            && v.status == Status.ERROR
            && v.sockets == c.sockets && v.ws == u.ws
            && v.timers == c.timers + [Timer(|u.runs|, RECONNECT_DELAY_MS, true)]
            && v.runs[|u.runs|] == EffectRun(None, Some(|u.timers|)))
  {
  }

  /** The component after the events `evs`, in order; an event the browser could not
      deliver at that point is skipped. */
  function Replay(u: Ui, evs: seq<Event>): (v: Ui)
    requires Wf(u)
    ensures Wf(v)
  {
    if evs == [] then u
    else
      var p := Replay(u, evs[..|evs| - 1]);
      if Enabled(p, evs[|evs| - 1]) then Step(p, evs[|evs| - 1]) else p
  }

  /** The status is always one the code sets, and the feed is always duplicate-free and
      within 100 entries. */
  predicate Sound(u: Ui)
  {
    Wf(u) && Status.Known(u.status) && Feed.FeedValid(u.transactions)
  }

  lemma StepSound(u: Ui, ev: Event)
    requires Sound(u) && Enabled(u, ev)
    ensures Sound(Step(u, ev))
  {
    match ev
    case SocketMessage(_, m) =>
      if m.Parsed? && Feed.NewTx(m.tx).Ok? {
        Feed.UpdateKeepsValid(u.transactions, Feed.NewTx(m.tx).value);
      }
    case Toggle(_) =>
    case SocketOpened(_) =>
    case SocketErrored(_) =>
    case SocketClosed(_) =>
    case TimerFired(_, _) =>
  }

  /** Whatever happens, the badge shows one of the four known statuses and the feed
      keeps its invariant. */
  lemma {:induction false} AlwaysSound(ctorThrows: bool, evs: seq<Event>)
    ensures Sound(Replay(Init(ctorThrows), evs))
  {
    if evs != [] {
      AlwaysSound(ctorThrows, evs[..|evs| - 1]);
      var p := Replay(Init(ctorThrows), evs[..|evs| - 1]);
      if Enabled(p, evs[|evs| - 1]) {
        StepSound(p, evs[|evs| - 1]);
      }
    }
  }

  /** The states of the pause trace of PauseStillReconnects, one per event. */
  function PauseTrace(i: nat): Ui
    requires i < 5
  {
    var page := EffectRun(Some(0), None);
    if i == 0 then Ui(true, Status.CONNECTING, Some(0), [], [Socket(0, Connecting)], [page], [], Some(0))
    else if i == 1 then Ui(true, Status.CONNECTED, Some(0), [], [Socket(0, Open)], [page], [], Some(0))
    else if i == 2 then Ui(false, Status.CONNECTED, None, [], [Socket(0, Closing)], [page], [], None)
    else if i == 3 then
      Ui(false, Status.RECONNECTING, None, [], [Socket(0, Closed)], [EffectRun(Some(0), Some(0))],
         [Timer(0, RECONNECT_DELAY_MS, true)], None)
    else
      Ui(false, Status.RECONNECTING, Some(1), [], [Socket(0, Closed), Socket(0, Connecting)],
         [EffectRun(Some(1), Some(0))], [Timer(0, RECONNECT_DELAY_MS, false)], None)
  }

  /* Proof helpers for PauseStillReconnects, one per event of the trace, so that each
     step is checked on its own. */

  lemma PauseTraceStart()
    ensures Init(false) == PauseTrace(0)
  {
  }

  lemma PauseTraceOpen()
    ensures Wf(PauseTrace(0)) && Enabled(PauseTrace(0), SocketOpened(0))
    ensures Step(PauseTrace(0), SocketOpened(0)) == PauseTrace(1)
  {
  }

  lemma PauseTraceToggle()
    ensures Wf(PauseTrace(1)) && Enabled(PauseTrace(1), Toggle(false))
    ensures Step(PauseTrace(1), Toggle(false)) == PauseTrace(2)
  {
    var u := PauseTrace(1);
    var c := Cleanup(u);
    assert c == Ui(true, Status.CONNECTED, Some(0), [], [Socket(0, Closing)], [EffectRun(Some(0), None)], [], None);
  }

  lemma PauseTraceClose()
    ensures Wf(PauseTrace(2)) && Enabled(PauseTrace(2), SocketClosed(0))
    ensures Step(PauseTrace(2), SocketClosed(0)) == PauseTrace(3)
  {
  }

  lemma PauseTraceTimer()
    ensures Wf(PauseTrace(3)) && Enabled(PauseTrace(3), TimerFired(0, false))
    ensures Step(PauseTrace(3), TimerFired(0, false)) == PauseTrace(4)
  {
    var u := PauseTrace(3);
    var c := ClearTimer(u, 0);
    assert c.timers == [Timer(0, RECONNECT_DELAY_MS, false)];
  }

  lemma PauseTraceOutcome()
    ensures var paused := PauseTrace(2);
      var after := PauseTrace(4);
      && !paused.live && paused.sockets[0].state == Closing
      && !after.live && after.status == Status.RECONNECTING
      && |after.sockets| == 2 && after.sockets[1].state == Connecting && after.ws == Some(1)
  {
  }

  /** As written, pausing does not stop the client: the socket closed by the cleanup
      fires `onclose`, which schedules `connect`, and five seconds later a new socket is
      opening while the button shows PAUSED. */
  lemma PauseStillReconnects()
    ensures Init(false) == PauseTrace(0)
    ensures Enabled(PauseTrace(0), SocketOpened(0)) && Step(PauseTrace(0), SocketOpened(0)) == PauseTrace(1)
    ensures Step(PauseTrace(1), Toggle(false)) == PauseTrace(2)
    ensures Enabled(PauseTrace(2), SocketClosed(0)) && Step(PauseTrace(2), SocketClosed(0)) == PauseTrace(3)
    ensures Enabled(PauseTrace(3), TimerFired(0, false)) && Step(PauseTrace(3), TimerFired(0, false)) == PauseTrace(4)
    ensures var paused := PauseTrace(2);
      var after := PauseTrace(4);
      && !paused.live && paused.sockets[0].state == Closing
      && !after.live && after.status == Status.RECONNECTING
      && |after.sockets| == 2 && after.sockets[1].state == Connecting && after.ws == Some(1)
  {
    PauseTraceStart();
    PauseTraceOpen();
    PauseTraceToggle();
    PauseTraceClose();
    PauseTraceTimer();
    PauseTraceOutcome();
  }

  /** The intended close handler: a socket of a run that has been cleaned up only
      reaches CLOSED. */
  function GuardedCloseHandler(u: Ui, k: nat): (v: Ui)
    requires Wf(u) && k < |u.sockets|
    ensures Wf(v)
  {
    if u.mounted == Some(u.sockets[k].run) then CloseHandler(u, k)
    else u.(sockets := u.sockets[k := u.sockets[k].(state := Closed)])
  }

  /** One event, with the guarded close handler. */
  function GuardedStep(u: Ui, ev: Event): (v: Ui)
    requires Wf(u) && Enabled(u, ev)
    ensures Wf(v)
  {
    if ev.SocketClosed? then GuardedCloseHandler(u, ev.socket) else Step(u, ev)
  }

  function GuardedReplay(u: Ui, evs: seq<Event>): (v: Ui)
    requires Wf(u)
    ensures Wf(v)
  {
    if evs == [] then u
    else
      var p := GuardedReplay(u, evs[..|evs| - 1]);
      if Enabled(p, evs[|evs| - 1]) then GuardedStep(p, evs[|evs| - 1]) else p
  }

  /** Only the live run has CONNECTING or OPEN sockets (its `websocket`) or pending
      timers (its `reconnectTimeout`, armed only once its socket is down); sockets of
      cleaned-up runs may still be CLOSING. */
  predicate Quiescent(u: Ui)
  {
    && Wf(u)
    && (u.live <==> u.mounted.Some?)
    && (forall k :: 0 <= k < |u.sockets| && Active(u.sockets[k].state) ==>
          u.mounted == Some(u.sockets[k].run) && u.runs[u.sockets[k].run].websocket == Some(k))
    && (forall k :: 0 <= k < |u.sockets| && u.sockets[k].state == Closing ==>
          u.mounted != Some(u.sockets[k].run))
    && (forall t :: 0 <= t < |u.timers| && u.timers[t].pending ==>
          u.mounted == Some(u.timers[t].run) && u.runs[u.timers[t].run].reconnectTimeout == Some(t))
    && (forall t :: 0 <= t < |u.timers| && u.timers[t].pending ==>
          var w := u.runs[u.timers[t].run].websocket;
          w.None? || !Active(u.sockets[w.value].state))
  }

  lemma InitQuiescent(ctorThrows: bool)
    ensures Quiescent(Init(ctorThrows))
  {
  }

  /** No socket connecting or open, no timer pending, no live run. */
  predicate Idle(u: Ui)
  {
    && Wf(u)
    && u.mounted.None?
    && (forall k :: 0 <= k < |u.sockets| ==> !Active(u.sockets[k].state))
    && (forall t :: 0 <= t < |u.timers| ==> !u.timers[t].pending)
  }

  lemma CleanupIdle(u: Ui)
    requires Quiescent(u)
    ensures Idle(Cleanup(u))
  {
    if u.mounted.Some? {
      var r := u.mounted.value;
      var run := u.runs[r];
      var u1 := if run.websocket.Some? then CloseSocket(u, run.websocket.value) else u;
      assert forall k :: 0 <= k < |u1.sockets| ==> !Active(u1.sockets[k].state);
      assert u1.timers == u.timers && u1.runs == u.runs;
    }
  }

  /** A live run `r` about to call `connect()`: nothing is connecting, open or pending,
      and none of its sockets is still closing. */
  predicate Ready(u: Ui, r: nat)
  {
    && Wf(u)
    && u.live && u.mounted == Some(r)
    && (forall k :: 0 <= k < |u.sockets| ==> !Active(u.sockets[k].state))
    && (forall k :: 0 <= k < |u.sockets| && u.sockets[k].state == Closing ==> u.sockets[k].run != r)
    && (forall t :: 0 <= t < |u.timers| ==> !u.timers[t].pending)
  }

  /** A successful `connect()` from a ready run: its new socket is the only active one. */
  lemma OpenedQuiescent(u: Ui, r: nat)
    requires Ready(u, r)
    ensures Quiescent(Connect(u, r, false))
  {
  }

  /** A `connect()` whose constructor throws: its timer is the only pending one. */
  lemma ThrownQuiescent(u: Ui, r: nat)
    requires Ready(u, r)
    ensures Quiescent(Connect(u, r, true))
  {
    var v := Connect(u, r, true);
    assert v.sockets == u.sockets && v.timers == u.timers + [Timer(r, RECONNECT_DELAY_MS, true)];
    assert v.runs[r].websocket == u.runs[r].websocket;
  }

  lemma ConnectQuiescent(u: Ui, r: nat, ctorThrows: bool)
    requires Ready(u, r)
    ensures Quiescent(Connect(u, r, ctorThrows))
  {
    if ctorThrows {
      ThrownQuiescent(u, r);
    } else {
      OpenedQuiescent(u, r);
    }
  }

  lemma EffectQuiescent(u: Ui, ctorThrows: bool)
    requires Idle(u)
    ensures Quiescent(RunEffect(u, ctorThrows))
  {
    if u.live {
      var r := |u.runs|;
      var u1 := u.(runs := u.runs + [EffectRun(None, None)], mounted := Some(r));
      assert Ready(u1, r);
      ConnectQuiescent(u1, r, ctorThrows);
    }
  }

  lemma ToggleQuiescent(u: Ui, ctorThrows: bool)
    requires Quiescent(u)
    ensures Quiescent(GuardedStep(u, Toggle(ctorThrows)))
  {
    CleanupIdle(u);
    EffectQuiescent(Cleanup(u).(live := !u.live), ctorThrows);
  }

  /** Proof helper for CloseMountedQuiescent: the state `onclose` leaves when the live
      run's own socket closes, written out field by field. */
  lemma ArmedQuiescent(u: Ui, k: nat)
    requires Quiescent(u) && k < |u.sockets| && Active(u.sockets[k].state)
    ensures var r := u.sockets[k].run;
      Quiescent(u.(sockets := u.sockets[k := u.sockets[k].(state := Closed)],
                   status := Status.RECONNECTING,
                   timers := u.timers + [Timer(r, RECONNECT_DELAY_MS, true)],
                   runs := u.runs[r := u.runs[r].(reconnectTimeout := Some(|u.timers|))]))
  {
    var r := u.sockets[k].run;
    assert u.runs[r].websocket == Some(k);
    assert forall t :: 0 <= t < |u.timers| ==> !u.timers[t].pending;
    assert forall j :: 0 <= j < |u.sockets| && Active(u.sockets[j].state) ==> j == k;
  }

  /** The live run's own socket closes: nothing was pending, its reconnect timer is now
      the only pending one, and no socket is active. */
  lemma CloseMountedQuiescent(u: Ui, k: nat)
    requires Quiescent(u) && Enabled(u, SocketClosed(k)) && u.mounted == Some(u.sockets[k].run)
    ensures Quiescent(GuardedStep(u, SocketClosed(k)))
  {
    assert Active(u.sockets[k].state);
    ArmedQuiescent(u, k);
  }

  /** A socket of a cleaned-up run closes: it was CLOSING, and only it changes. */
  lemma CloseOrphanQuiescent(u: Ui, k: nat)
    requires Quiescent(u) && Enabled(u, SocketClosed(k)) && u.mounted != Some(u.sockets[k].run)
    ensures Quiescent(GuardedStep(u, SocketClosed(k)))
  {
    assert !Active(u.sockets[k].state);
  }

  lemma CloseQuiescent(u: Ui, k: nat)
    requires Quiescent(u) && Enabled(u, SocketClosed(k))
    ensures Quiescent(GuardedStep(u, SocketClosed(k)))
  {
    if u.mounted == Some(u.sockets[k].run) {
      CloseMountedQuiescent(u, k);
    } else {
      CloseOrphanQuiescent(u, k);
    }
  }

  /** A pending reconnect fires: its run is the live one, its socket is down, so the
      run is ready once the timer is no longer pending. */
  lemma TimerQuiescent(u: Ui, t: nat, ctorThrows: bool)
    requires Quiescent(u) && Enabled(u, TimerFired(t, ctorThrows))
    ensures Quiescent(GuardedStep(u, TimerFired(t, ctorThrows)))
  {
    var r := u.timers[t].run;
    assert forall k :: 0 <= k < |u.sockets| ==> !Active(u.sockets[k].state);
    assert forall t2 :: 0 <= t2 < |u.timers| && u.timers[t2].pending ==> t2 == t;
    var u1 := ClearTimer(u, t);
    assert Ready(u1, r);
    ConnectQuiescent(u1, r, ctorThrows);
  }

  lemma GuardedStepQuiescent(u: Ui, ev: Event)
    requires Quiescent(u) && Enabled(u, ev)
    ensures Quiescent(GuardedStep(u, ev))
  {
    match ev
    case Toggle(c) => ToggleQuiescent(u, c);
    case SocketClosed(k) => CloseQuiescent(u, k);
    case TimerFired(t, c) => TimerQuiescent(u, t, c);
    case SocketOpened(k) =>
      assert forall t :: 0 <= t < |u.timers| ==> !u.timers[t].pending;
    case SocketMessage(_, _) =>
    case SocketErrored(_) =>
  }

  /** With the guarded close handler, whatever happens, a paused component has no socket
      connecting or open and no reconnect pending. */
  lemma {:induction false} GuardedPauseIsQuiet(ctorThrows: bool, evs: seq<Event>)
    ensures var u := GuardedReplay(Init(ctorThrows), evs);
      !u.live ==>
        && (forall k :: 0 <= k < |u.sockets| ==> !Active(u.sockets[k].state))
        && (forall t :: 0 <= t < |u.timers| ==> !u.timers[t].pending)
    ensures Quiescent(GuardedReplay(Init(ctorThrows), evs))
  {
    if evs == [] {
      InitQuiescent(ctorThrows);
    } else {
      GuardedPauseIsQuiet(ctorThrows, evs[..|evs| - 1]);
      var p := GuardedReplay(Init(ctorThrows), evs[..|evs| - 1]);
      if Enabled(p, evs[|evs| - 1]) {
        GuardedStepQuiescent(p, evs[|evs| - 1]);
      }
    }
  }

  /** With the guarded close handler, nothing but a click creates a socket while the
      component is paused. */
  lemma GuardedPausedNeverConnects(u: Ui, ev: Event)
    requires Quiescent(u) && !u.live && Enabled(u, ev) && !ev.Toggle?
    ensures var v := GuardedStep(u, ev);
      !v.live && |v.sockets| == |u.sockets| && |v.timers| == |u.timers|
  {
  }
}
