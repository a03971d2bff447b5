/** The connection-status badge of the browser client (src/App.js `getStatusColor` and
    `getStatusText`). Any status string is accepted; the four known ones each get their
    own colour and text and everything else shows as disconnected. */
module Status {

  const CONNECTED := "connected"
  const CONNECTING := "connecting"
  const RECONNECTING := "reconnecting"
  const ERROR := "error"

  predicate Known(status: string)
  {
    status == CONNECTED || status == CONNECTING || status == RECONNECTING || status == ERROR
  }

  /** `getStatusColor`: the colour identifies the case of the switch it came from. */
  function StatusColor(status: string): (color: string)
    ensures color == "text-green-400" <==> status == CONNECTED
    ensures color == "text-yellow-400" <==> status == CONNECTING
    ensures color == "text-orange-400" <==> status == RECONNECTING
    ensures color == "text-red-400" <==> status == ERROR
    ensures color == "text-slate-400" <==> !Known(status)
  {
    if status == CONNECTED then "text-green-400"
    else if status == CONNECTING then "text-yellow-400"
    else if status == RECONNECTING then "text-orange-400"
    else if status == ERROR then "text-red-400"
    else "text-slate-400"
  }

  /** `getStatusText`: the text identifies the case of the switch it came from. */
  function StatusText(status: string): (text: string)
    ensures text == "\U{1F7E2} Connected to Hyperliquid" <==> status == CONNECTED
    ensures text == "\U{1F7E1} Connecting..." <==> status == CONNECTING
    ensures text == "\U{1F7E0} Reconnecting..." <==> status == RECONNECTING
    ensures text == "\U{1F534} Connection Error" <==> status == ERROR
    ensures text == "\U{26AB} Disconnected" <==> !Known(status)
  {
    if status == CONNECTED then "\U{1F7E2} Connected to Hyperliquid"
    else if status == CONNECTING then "\U{1F7E1} Connecting..."
    else if status == RECONNECTING then "\U{1F7E0} Reconnecting..."
    else if status == ERROR then "\U{1F534} Connection Error"
    else "\U{26AB} Disconnected"
  }

  /** Colour and text always tell the same story: equal colours mean equal texts. */
  lemma BadgeAgrees(s1: string, s2: string)
    ensures StatusColor(s1) == StatusColor(s2) <==> StatusText(s1) == StatusText(s2)
  {
  }
}
