/** The WebSocket connection states shared by the relay and the browser client. */
module Sockets {

  /** `readyState` of a WebSocket: CONNECTING (0), OPEN (1), CLOSING (2), CLOSED (3). */
  datatype ReadyState = Connecting | Open | Closing | Closed

  /** A socket that has not yet reached CLOSED can still fire its close event. */
  predicate Live(s: ReadyState)
  {
    s != Closed
  }

  /** A socket whose connection is being set up or is up; `close()` moves it to CLOSING. */
  predicate Active(s: ReadyState)
  {
    s == Connecting || s == Open
  }
}
