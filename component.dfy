/** The `HyperliquidMonitor` component as an object whose handlers update its fields in
    place, each proved to perform exactly the transition of the same name in Monitor. */
module MonitorComponent {
  import opened Wrappers
  import opened Sockets
  import Feed
  import Status
  import M = Monitor

  class HyperliquidMonitor {
    var live: bool
    var status: string
    var ws: Option<nat>
    var transactions: seq<Feed.Entry>
    var sockets: seq<M.Socket>
    var runs: seq<M.EffectRun>
    var timers: seq<M.Timer>
    var mounted: Option<nat>

    function State(): M.Ui
      reads this
    {
      M.Ui(live, status, ws, transactions, sockets, runs, timers, mounted)
    }

    predicate Valid()
      reads this
    {
      M.Wf(State())
    }

    /** First render (`isLive` true, status 'connecting', no transactions) followed by
        the first run of the effect. */
    constructor (ctorThrows: bool)
      ensures Valid() && State() == M.Init(ctorThrows)
    {
      live := true;
      status := Status.CONNECTING;
      ws := None;
      transactions := [];
      sockets := [];
      runs := [];
      timers := [];
      mounted := None;
      new;
      Effect(ctorThrows);
    }

    /** `reconnectTimeout = setTimeout(connect, 5000)` in run `r`. */
    method ScheduleReconnect(r: nat)
      requires Valid() && r < |runs|
      modifies this
      ensures Valid() && State() == M.ScheduleReconnect(old(State()), r)
    {
      var t := |timers|;
      timers := timers + [M.Timer(r, M.RECONNECT_DELAY_MS, true)];
      runs := runs[r := runs[r].(reconnectTimeout := Some(t))];
    }

    /** `connect()` of run `r`. */
    method Connect(r: nat, ctorThrows: bool)
      requires Valid() && r < |runs|
      modifies this
      ensures Valid() && State() == M.Connect(old(State()), r, ctorThrows)
    {
      if ctorThrows {
        status := Status.ERROR;
        ScheduleReconnect(r);
      } else {
        var k := |sockets|;
        sockets := sockets + [M.Socket(r, Connecting)];
        runs := runs[r := runs[r].(websocket := Some(k))];
        ws := Some(k);
      }
    }

    /** `socket.close()`. */
    method CloseSocket(k: nat)
      requires Valid() && k < |sockets|
      modifies this
      ensures Valid() && State() == M.CloseSocket(old(State()), k)
    {
      if Active(sockets[k].state) {
        sockets := sockets[k := sockets[k].(state := Closing)];
      }
    }

    /** `clearTimeout(t)`. */
    method ClearTimeout(t: nat)
      requires Valid() && t < |timers|
      modifies this
      ensures Valid() && State() == M.ClearTimer(old(State()), t)
    {
      timers := timers[t := timers[t].(pending := false)];
    }

    /** The cleanup function returned by the live effect. */
    method Cleanup()
      requires Valid()
      modifies this
      ensures Valid() && State() == M.Cleanup(old(State()))
    {
      if mounted.Some? {
        var run := runs[mounted.value];
        if run.websocket.Some? {
          CloseSocket(run.websocket.value);
        }
        if run.reconnectTimeout.Some? {
          ClearTimeout(run.reconnectTimeout.value);
        }
        mounted := None;
      }
    }

    /** The effect body for the current `isLive`. */
    method Effect(ctorThrows: bool)
      requires Valid() && mounted.None?
      modifies this
      ensures Valid() && State() == M.RunEffect(old(State()), ctorThrows)
    {
      if !live {
        if ws.Some? {
          CloseSocket(ws.value);
          ws := None;
        }
      } else {
        var r := |runs|;
        runs := runs + [M.EffectRun(None, None)];
        mounted := Some(r);
        Connect(r, ctorThrows);
      }
    }

    /** A click on the LIVE/PAUSED button: `isLive` flips, React runs the previous
        effect's cleanup and then the effect again. */
    method Toggle(ctorThrows: bool)
      requires Valid()
      modifies this
      ensures Valid() && State() == M.Step(old(State()), M.Toggle(ctorThrows))
    {
      Cleanup();
      live := !live;
      Effect(ctorThrows);
    }

    /** `websocket.onopen`. */
    method OnOpen(k: nat)
      requires Valid() && M.Enabled(State(), M.SocketOpened(k))
      modifies this
      ensures Valid() && State() == M.Step(old(State()), M.SocketOpened(k))
    {
      sockets := sockets[k := sockets[k].(state := Open)];
      status := Status.CONNECTED;
    }

    /** `websocket.onmessage`. */
    method OnMessage(k: nat, m: Feed.Incoming)
      requires Valid() && M.Enabled(State(), M.SocketMessage(k, m))
      modifies this
      ensures Valid() && State() == M.Step(old(State()), M.SocketMessage(k, m))
    {
      transactions := Feed.Receive(transactions, m);
    }

    /** `websocket.onerror`. */
    method OnError(k: nat)
      requires Valid() && M.Enabled(State(), M.SocketErrored(k))
      modifies this
      ensures Valid() && State() == M.Step(old(State()), M.SocketErrored(k))
    {
      status := Status.ERROR;
    }

    /** `websocket.onclose`. */
    method OnClose(k: nat)
      requires Valid() && M.Enabled(State(), M.SocketClosed(k))
      modifies this
      ensures Valid() && State() == M.Step(old(State()), M.SocketClosed(k))
    {
      sockets := sockets[k := sockets[k].(state := Closed)];
      status := Status.RECONNECTING;
      ScheduleReconnect(sockets[k].run);
    }

    /** The corrected `onclose`: a socket whose run has been cleaned up only reaches
        CLOSED; the socket of the live run behaves as in `OnClose`. */
    method OnCloseGuarded(k: nat)
      requires Valid() && M.Enabled(State(), M.SocketClosed(k))
      modifies this
      ensures Valid() && State() == M.GuardedStep(old(State()), M.SocketClosed(k))
    {
      if mounted == Some(sockets[k].run) {
        OnClose(k);
      } else {
        sockets := sockets[k := sockets[k].(state := Closed)];
      }
    }

    /** A reconnect timer fires and calls its run's `connect`. */
    method OnTimeout(t: nat, ctorThrows: bool)
      requires Valid() && M.Enabled(State(), M.TimerFired(t, ctorThrows))
      modifies this
      ensures Valid() && State() == M.Step(old(State()), M.TimerFired(t, ctorThrows))
    {
      var r := timers[t].run;
      ClearTimeout(t);
      Connect(r, ctorThrows);
    }
  }
}
