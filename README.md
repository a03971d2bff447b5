# Hyperliquid trade relay and monitor, modelled in Dafny

The system relays trades from the Hyperliquid exchange to browsers. The Node server
(`server.js`) keeps one WebSocket to the exchange. When that socket opens, the server
subscribes to the trades of five coins. Each trade it receives becomes a transaction
record, which it sends to every downstream client that is OPEN. When the upstream socket
closes, the server reconnects five seconds later. `/health` reports the server's state.
The React component (`src/App.js`) connects to the server and shows a feed of at most
100 transactions, newest first, with no repeated ids. It also shows the connection
status as a coloured badge and counts the LONG and SHORT entries. A button pauses and
resumes the feed.

Files:

- `wrappers.dfy`: `Option` and `Result`.
- `sockets.dfy`: the WebSocket `readyState` values.
- `text.dfy`: the decimal text that a template literal gives a safe integer, plus its
  parser. The parser is used to prove that transaction ids can be read back.
- `trades.dfy`: module `Trades`. It holds `TRACKED_COINS`, the conversion of an
  upstream frame into transactions, and `generateRandomWallet`.
- `relay.dfy`: module `Relay`. Class `Relay` holds the server's module state:
  `hyperliquidWs`, the requests sent upstream, armed reconnect timers, `wss.clients`
  and every `client.send`. Its methods are the socket handlers, the broadcast and the
  `/health` snapshot. Pure functions (`SubscribeBurst`, `Fanout`, `BroadcastAll`,
  `DeliveredTo`) specify them.
- `feed.dfy`: module `Feed`. It covers how the client builds `newTx`, the
  `setTransactions` updater and the side counters.
- `status.dfy`: module `Status`. It covers `getStatusColor` and `getStatusText`.
- `monitor.dfy`: module `Monitor`. This is the client's `useEffect`/`connect` logic as
  transitions on a state value `Ui`. `Ui` holds the React state, every socket and timer
  created, and the closure variables (`websocket`, `reconnectTimeout`) of each run of
  the live effect.
- `component.dfy`: class `MonitorComponent.HyperliquidMonitor`. It has the same state as
  fields. Each handler is proved to perform exactly the transition `Monitor.Step` gives
  for its event.

Environment inputs are parameters:

- `Date.now()` and the 40 `Math.random()` draws of a placeholder wallet are supplied
  per trade, as a `Trades.TradeEnv`.
- Socket events and timer expiries are events that callers deliver.
- `setTimeout` is recorded as an armed timer.
- Whether `new WebSocket(...)` throws is a boolean on the events that construct a
  socket.

Numbers are kept as unevaluated terms: `parseFloat(px)`, the product `px * sz`, and the
client's `toFixed` display strings. Date strings are kept the same way. The JSON
encoding is abstract: frames arrive already decoded (`Trades.Inbound`,
`Feed.Incoming`), and a broadcast message is `Relay.Wire`.

Behaviour of the code that the model keeps, though a reader of the design might expect
otherwise:

- A trade whose `px` or `sz` does not parse is still broadcast, with NaN values. The
  relay does not skip it.
- `coin` is not checked against `TRACKED_COINS` (`Trades.UntrackedCoinPasses`).
- Clients that are not OPEN receive nothing but stay in `wss.clients`.
- The upstream `error` handler changes nothing.
- `/health` reports a boolean `hyperliquidConnected` and the client count. It reports no
  uptime and no status vocabulary.
- `new Date(time).toISOString()` throws a RangeError when `time` is missing (an Invalid
  Date) or beyond ±8.64e15 ms. A JSON `null` time is the epoch and converts. The `catch` then ends the `forEach`. So what one frame broadcasts is the
  run of trades before the first one with a bad time (`Trades.LeadingOk`,
  `Trades.Normalise`).
- When `hyperliquidWs` is still null, `hyperliquidWs && ...` is null, not false.
  `Relay.HealthReport.hyperliquidConnected` is therefore an `Option<bool>`.
- In the client, `toFixed` on a null price or size throws, and so does `substring` on a
  missing wallet. The message is then dropped (`Feed.NewTxFields`). The relay's NaN
  values serialise as null, so this does happen to trades whose price does not parse.

## Model

| member | source | states |
|---|---|---|
| `Trades.IdRoundTrip` | server.js:52 | the id is the decimal `tid`, a dash, then the decimal time; splitting it at the first dash gives back exactly `(tid, now)` |
| `Trades.IdInjective` | server.js:52 | two equal ids were built from the same trade id at the same time |
| `Trades.GenerateRandomWallet` | server.js:82-89 | the loop returns `0x` followed by `HEX_CHARS[draw[i]]` for i = 0..39; the result has length 42, starts with `0x` and is lower-case hex after that |
| `Trades.PlaceholderRoundTrip` | server.js:82-89 | every generated wallet has the `0x` + 40 hex shape, and the draw can be recovered from it, so distinct draws give distinct wallets |
| `Trades.Transact` | server.js:51-60 | a trade converts iff its time is valid, otherwise the conversion throws `InvalidTime`; the meaning of every field is stated by `Trades.TransactFields` |
| `Trades.TransactFields` | server.js:47-60 | a trade converts exactly when its time is valid (a missing time throws, a `null` time gives the epoch); side is SHORT iff the code is `A`, otherwise LONG; wallet is the user when truthy, otherwise a placeholder built from the draw; coin is copied; the id starts with `tid-` and reads back to `(tid, now)`; price, size and notional are `parseFloat(px)`, `parseFloat(sz)` and their product |
| `Trades.LeadingOk` | server.js:47-68 | counts the trades converted before the first one that throws: all earlier ones convert, the one at the count throws |
| `Trades.Normalise` | server.js:41-68 | anything but a `trades` frame with an array `data` yields nothing; otherwise the k-th transaction is the conversion of the k-th trade, and the list stops exactly at the first trade that throws |
| `Trades.IgnoredFrames` | server.js:46 | an unparsable message, another channel, falsy `data` or non-array `data` yield no transaction |
| `Trades.WholeBatch` | server.js:47-64 | a trades frame with n trades, all with valid times, yields exactly n transactions, the i-th built from the i-th trade |
| `Trades.UntrackedCoinPasses` | server.js:55 | a trade for a coin outside `TRACKED_COINS` is still converted, with its coin unchanged |
| `Relay.SubscribeBurst` | server.js:31-38 | the burst has one request per coin, in coin order; the i-th is `{method: 'subscribe', subscription: {type: 'trades', coin: coins[i]}}` on that socket |
| `Relay.Relay.constructor` | server.js:17-19 | initially `hyperliquidWs` is null, nothing has been sent or scheduled and there are no clients |
| `Relay.Relay.Connect` | server.js:22-25 | a new CONNECTING socket, with a fresh id, replaces `hyperliquidWs`; nothing else changes |
| `Relay.Relay.OnOpen` | server.js:27-39 | the socket becomes OPEN, and exactly the five subscribe requests for BTC, ETH, XRP, SOL, DOGE, in that order, are appended to what was sent, on that socket |
| `Relay.Relay.OnMessage` | server.js:41-69 | the deliveries made are exactly the broadcasts of `Normalise(m, envs)`, in order; the clients are not touched |
| `Relay.Relay.BroadcastBatch` | server.js:47-64 | given the prefix of trades that convert and the trade that throws after it, the deliveries made are exactly the broadcasts of those transactions, in order |
| `Relay.Relay.Broadcast` | server.js:92-100 | the deliveries made are the same serialised message to each OPEN client, in the clients' order; the client set is unchanged |
| `Relay.Fanout` | server.js:95-99 | one broadcast makes at most one send per client, each carrying the same message; which clients receive it is stated by `Relay.FanoutMembers` and `Relay.FanoutTo` |
| `Relay.FanoutMembers` | server.js:95-99 | a broadcast delivers only the broadcast message, and a delivery exists for a client iff that client is OPEN |
| `Relay.FanoutTo` | server.js:95-99 | with distinct clients, each OPEN client receives the message exactly once and every other client receives nothing |
| `Relay.BroadcastAllTo` | server.js:47-64 | over a whole batch, each OPEN client receives every transaction once, in production order; every other client receives nothing |
| `Relay.Relay.OnError` | server.js:71-73 | the upstream error handler changes no state |
| `Relay.Relay.OnClose` | server.js:75-78 | the socket is CLOSED, and exactly one reconnect timer of 5000 ms is added to those armed; nothing else changes |
| `Relay.Relay.FireReconnect` | server.js:77 | the oldest armed timer goes away and `connectToHyperliquid` runs, creating a new CONNECTING socket |
| `Relay.Relay.Join` | server.js:103-104 | a new client joins `wss.clients`, OPEN, at the end |
| `Relay.Relay.ClientStateChanged` | server.js:103-117 | a client's state changes while it stays in `wss.clients`; the other clients and the order are kept |
| `Relay.Relay.Leave` | server.js:110-112 | the closing client is removed and no other client is affected |
| `Relay.WithoutIdempotent` | server.js:110-112 | removing a client twice has the same effect as removing it once |
| `Relay.Relay.Health` | server.js:120-127 | status `ok`; `hyperliquidConnected` is null iff there is no socket and true iff the socket is OPEN; `trackedCoins` is `TRACKED_COINS`; `connectedClients` is the size of `wss.clients` |
| `Feed.ShortWallet` | src/App.js:42 | `walletShort` is the prefix of the wallet of length min(10, length of the wallet) |
| `Feed.NewTx` | src/App.js:38-48 | an entry is built iff the wallet is present and price and size are not null, otherwise a TypeError drops the message; the fields are stated by `Feed.NewTxFields` |
| `Feed.NewTxFields` | src/App.js:36-48 | a message becomes an entry iff it has a wallet and a non-null price and size; id, wallet, coin and side are copied, and the short wallet is a prefix of the wallet |
| `Feed.Update` | src/App.js:50-56 | a known id leaves the feed unchanged; otherwise the result has length min(n+1, 100), the new entry first, and then the first entries of the old feed in their old order |
| `Feed.UpdateContents` | src/App.js:50-56 | after an update the id is in the feed, and the update adds no entry other than the new one |
| `Feed.UpdateKeepsValid` | src/App.js:51-53 | a feed with distinct ids and at most 100 entries keeps both properties after an update |
| `Feed.FeedAlwaysValid` | src/App.js:34-60 | whatever sequence of messages arrives, the feed never holds two entries with the same id nor more than 100 entries |
| `Feed.CountSide` | src/App.js:151-163 | the count of entries with a given side is at most the feed length and is 0 iff no entry has that side; the counters together are related by `Feed.SideCounts` |
| `Feed.SideCounts` | src/App.js:149-176 | the LONG count plus the SHORT count is at most the total, with equality iff every entry's side is LONG or SHORT |
| `Status.StatusColor` | src/App.js:95-103 | connected, connecting, reconnecting and error each get their own colour; every other status gets `text-slate-400` |
| `Status.StatusText` | src/App.js:105-113 | the four known statuses each get their own label; every other status reads Disconnected |
| `Status.BadgeAgrees` | src/App.js:95-113 | two statuses get the same colour iff they get the same text |
| `Monitor.ScheduleReconnect` | src/App.js:70 | scheduling a reconnect keeps the state well formed and keeps status, `isLive` and the feed; the new pending 5000 ms timer recorded as the run's `reconnectTimeout` is stated by `Monitor.CloseTransition` |
| `Monitor.Connect` | src/App.js:25-79 | `isLive` and the feed are kept; the status becomes 'error' iff the constructor throws; the rest is stated by `Monitor.TimerTransition` and `Monitor.ResumeTransition` |
| `Monitor.CloseSocket` | src/App.js:16 | `close()` leaves the socket neither CONNECTING nor OPEN and changes no other socket, timer, run or React state |
| `Monitor.ClearTimer` | src/App.js:85 | `clearTimeout` leaves the timer not pending and changes no other timer, socket, run or React state |
| `Monitor.Cleanup` | src/App.js:83-86 | after the cleanup no run is live; status, feed, `ws`, the runs and the number of sockets and timers are kept |
| `Monitor.CleanupEffect` | src/App.js:83-86 | the cleanup closes the live run's `websocket` and clears its `reconnectTimeout`, touches no other socket or timer, and does nothing when no run is live |
| `Monitor.RunEffect` | src/App.js:13-81 | the effect keeps `isLive` and the feed and sets the status only to 'error'; its branches are stated by `Monitor.PausedBranch` and `Monitor.ResumeTransition` |
| `Monitor.CloseHandler` | src/App.js:67-71 | `onclose` sets 'reconnecting' and keeps `isLive` and the feed; the socket and timer changes are stated by `Monitor.CloseTransition` |
| `Monitor.Step` | src/App.js:13-86 | every event keeps the state well formed; each event's effect is stated by `Monitor.OpenTransition`, `ErrorTransition`, `MessageTransition`, `CloseTransition`, `TimerTransition`, `PauseTransition` and `ResumeTransition` |
| `Monitor.PausedBranch` | src/App.js:14-20 | when paused, the effect closes the socket held in `ws`, forgets it, creates no socket and arms no timer |
| `Monitor.StepSound` | src/App.js:29-78 | every handler keeps the status among the four known ones and keeps the feed invariant |
| `Monitor.AlwaysSound` | src/App.js:13-87 | from mount, after any events, the status is a known one and the feed has distinct ids and at most 100 entries |
| `Monitor.OpenTransition` | src/App.js:29-32 | `onopen`: the socket is OPEN, the status is 'connected', and no other field changes |
| `Monitor.ErrorTransition` | src/App.js:62-65 | `onerror`: the status is 'error' and no other field changes, so no reconnect is armed |
| `Monitor.MessageTransition` | src/App.js:34-60 | `onmessage`: only the feed changes, to `Feed.Receive` of the message |
| `Monitor.CloseTransition` | src/App.js:67-71 | `onclose`: the socket is CLOSED, the status is 'reconnecting', exactly one pending 5000 ms timer is appended, owned by the socket's run and recorded as its `reconnectTimeout`; nothing else changes |
| `Monitor.TimerTransition` | src/App.js:25-79 | a fired reconnect stops pending and runs `connect()` of its run: a new CONNECTING socket becomes the run's `websocket` and `ws` with the status kept, or the constructor throws, the status is 'error' and one new pending 5000 ms timer is the run's `reconnectTimeout` |
| `Monitor.PauseTransition` | src/App.js:14-20 | a click on LIVE pauses: the socket held in `ws` and the live run's `websocket` are no longer CONNECTING or OPEN, the live run's `reconnectTimeout` is no longer pending, `ws` is empty and no run is live; no socket, timer or run is created, and the status is kept |
| `Monitor.ResumeTransition` | src/App.js:22-86 | a click on PAUSED starts a new live run after the cleanup; its `connect()` adds one CONNECTING socket held in `ws` and nothing else, or sets 'error' and adds one pending 5000 ms timer of the new run |
| `Monitor.PauseStillReconnects` | src/App.js:67-86 | as written: connected, then paused; the close event of the socket closed by the cleanup arms a reconnect, and its timer opens a new socket while paused |
| `Monitor.GuardedPauseIsQuiet` | src/App.js:67-86 | with the corrected close handler, after any events a paused component has no socket connecting or open and no reconnect pending |
| `Monitor.GuardedPausedNeverConnects` | src/App.js:14-20 | with the corrected close handler, while paused no event but a click creates a socket or a timer |
| `MonitorComponent.HyperliquidMonitor.constructor` | src/App.js:4-8 | first render (live, 'connecting', empty feed), then the first effect run |
| `MonitorComponent.HyperliquidMonitor.Connect` | src/App.js:25-79 | `connect`: a new CONNECTING socket becomes the run's `websocket` and `ws`; if the constructor throws, the status is 'error' and one 5000 ms reconnect is armed |
| `MonitorComponent.HyperliquidMonitor.ScheduleReconnect` | src/App.js:70 | one pending 5000 ms timer, owned by the run, becomes that run's `reconnectTimeout` |
| `MonitorComponent.HyperliquidMonitor.CloseSocket` | src/App.js:16 | the update is proved equal to `Monitor.CloseSocket`: the socket is no longer CONNECTING or OPEN, nothing else changes |
| `MonitorComponent.HyperliquidMonitor.ClearTimeout` | src/App.js:85 | the update is proved equal to `Monitor.ClearTimer`: the timer is no longer pending, nothing else changes |
| `MonitorComponent.HyperliquidMonitor.Cleanup` | src/App.js:83-86 | the update is proved equal to `Monitor.Cleanup`, which `Monitor.CleanupEffect` states: the live run's `websocket` is closed, its `reconnectTimeout` cleared, nothing else touched |
| `MonitorComponent.HyperliquidMonitor.Effect` | src/App.js:13-23 | paused: closes and drops `ws`; live: a new run starts and calls `connect` |
| `MonitorComponent.HyperliquidMonitor.Toggle` | src/App.js:133 | a click flips `isLive`, runs the previous cleanup and then the effect |
| `MonitorComponent.HyperliquidMonitor.OnOpen` | src/App.js:29-32 | the socket is OPEN and the status is 'connected' |
| `MonitorComponent.HyperliquidMonitor.OnMessage` | src/App.js:34-60 | the feed becomes `Feed.Receive` of the message; nothing else changes |
| `MonitorComponent.HyperliquidMonitor.OnError` | src/App.js:62-65 | the status is 'error'; nothing else changes |
| `MonitorComponent.HyperliquidMonitor.OnClose` | src/App.js:67-71 | the socket is CLOSED, the status is 'reconnecting', and one 5000 ms reconnect is armed in the run that created the socket |
| `MonitorComponent.HyperliquidMonitor.OnCloseGuarded` | src/App.js:67-71 | the corrected close handler: a socket of a cleaned-up run only becomes CLOSED |
| `MonitorComponent.HyperliquidMonitor.OnTimeout` | src/App.js:70 | the timer is no longer pending and its run's `connect` runs |

## Left out

- Floating point is left out. `parseFloat`, `px * sz`, `toFixed` and `/ 1000000` are
  symbolic terms, so whether a value is NaN is not modelled.
- Dates are left out. `Date.now()` is an input, and `toISOString` and
  `toLocaleTimeString` are symbolic. Only the RangeError of `toISOString` is modelled,
  through the ±8.64e15 ms bound.
- `Trades.Trade`: only a missing time, a `null` time and an integral number of
  milliseconds are modelled (`Trades.TimeField`). A fractional, string or boolean `time`
  is left out, because `new Date` would convert it by rules the model does not state.
- `Trades.Trade`: `tid` and `Date.now()` are non-negative safe integers
  (`Trades.SafeNat`, at most 2^53 - 1). For those the template literal prints the exact
  decimal digits that `Trades.IdRoundTrip` and `Trades.IdInjective` rely on. A negative,
  fractional or larger `tid` renders differently (`1e+21`, lost digits) and is left out.
- `Feed.ShortWallet`: counts characters, while `substring(0, 10)` counts UTF-16 code
  units. The two agree on wallets without characters beyond the Basic Multilingual
  Plane, such as hex addresses; other wallets are left out.
- `Math.random` is replaced by a supplied `Draw` of 40 indices below 16.
- `JSON.parse` and `JSON.stringify` are library calls. Messages are modelled already
  decoded. Trade elements are assumed to be objects with a numeric `tid` and string
  fields. A `null` element, which would throw in `trade.px`, is not modelled.
- Sockets, timers, Express, CORS, HTTP routing, `server.listen` and the SIGTERM shutdown
  (server.js:2-15, server.js:129-145) are I/O plumbing. They are modelled only as
  events, recorded sends and armed timers.
- The ws library maintains `wss.clients`. `Relay.Relay.Join`, `ClientStateChanged` and
  `Leave` stand for its effect. The handlers at server.js:106-116 only log.
- Logging (`console.log`, `console.error`) is left out.
- Each upstream event acts on the current `hyperliquidWs`. The relay replaces that socket
  only after it has closed, so events of an older socket are not modelled.
- React rendering, JSX and CSS, the clipboard and its 2 s reset (src/App.js:89-93,
  src/App.js:115-302), and unmounting of the component are UI concerns and are left out.
- Concurrency is left out. All callbacks run one at a time on one thread, and the model
  takes them as a sequence of events.
- `MonitorComponent.HyperliquidMonitor` follows the code as written, and
  `Monitor.Step` and `Monitor.AlwaysSound` are stated for that code. The corrected close
  handler exists as `Monitor.GuardedStep` and as
  `MonitorComponent.HyperliquidMonitor.OnCloseGuarded`.

## Findings

| source | as written | input that shows it | evidently intended | confidence | as-written member | corrected member |
|---|---|---|---|---|---|---|
| src/App.js:67-86 | pausing closes the socket in the effect cleanup and clears `reconnectTimeout`; afterwards the socket's `onclose` handler, still attached, sets 'reconnecting' and arms `setTimeout(connect, 5000)`, which nothing clears | connect and open, click PAUSED, the socket's close event arrives, 5 s pass: a new socket is opening while the button shows PAUSED, and the chain keeps going | while paused, no socket is opened and no reconnect is pending | not executed; high, from the order in which browsers deliver close events | `Monitor.PauseStillReconnects` | `Monitor.GuardedPauseIsQuiet` |
