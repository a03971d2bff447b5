/** The relay's trade normaliser: a decoded upstream frame becomes the ordered list of
    transaction records that are broadcast (server.js, the `message` handler and
    `generateRandomWallet`). */
module Trades {
  import opened Wrappers
  import Text

  /** The coins the relay subscribes to, in subscription order. */
  const TRACKED_COINS: seq<string> := ["BTC", "ETH", "XRP", "SOL", "DOGE"]

  /** The alphabet of the placeholder wallet. */
  const HEX_CHARS: string := "0123456789abcdef"

  /** Number of hex characters after the `0x` of a placeholder wallet. */
  const WALLET_DIGITS: nat := 40

  /** Largest magnitude, in milliseconds, that a JavaScript Date accepts; beyond it
      `toISOString` throws a RangeError. */
  const MAX_TIME_MS: int := 8_640_000_000_000_000

  /** `Number.MAX_SAFE_INTEGER`: the largest n such that every integer up to n is a
      JavaScript number and renders as its exact decimal digits. */
  const MAX_SAFE_INTEGER: nat := 9_007_199_254_740_991

  /** A non-negative safe integer: a trade id, or a value of `Date.now()`. */
  type SafeNat = n: nat | n <= MAX_SAFE_INTEGER

  /** `Math.floor(Math.random() * chars.length)`: an index into HEX_CHARS. */
  type Nibble = n: int | 0 <= n < 16

  /** The 40 random indices one call of `generateRandomWallet` draws. */
  type Draw = d: seq<Nibble> | |d| == WALLET_DIGITS witness seq(40, _ => 0)

  datatype Side = Long | Short

  /** The wire text of a side. */
  function SideName(s: Side): string
  {
    match s
    case Long => "LONG"
    case Short => "SHORT"
  }

  /** Floating-point values are kept as the unevaluated expressions the relay computes:
      `parseFloat(text)` (possibly NaN) and products of such values. */
  datatype Number = ParseFloat(text: string) | Times(left: Number, right: Number)

  /** `new Date(ms).toISOString()`, kept uninterpreted. */
  datatype Timestamp = IsoString(epochMs: int)

  /** The `time` field of a trade: absent (`new Date(undefined)` is an Invalid Date),
      JSON `null` (`new Date(null)` is the epoch), or an integral number of milliseconds. */
  datatype TimeField = Missing | NullTime | Millis(ms: int)

  /** One element of a trades frame's `data` array; `user` is None when missing or
      null. */
  datatype Trade = Trade(
    tid: SafeNat,
    time: TimeField,
    user: Option<string>,
    coin: string,
    side: string,
    px: string,
    sz: string)

  /** The `data` field of a frame: falsy, truthy but not an array (so `forEach` throws),
      or an array of trades. */
  datatype Payload = NoData | NotAnArray | Records(trades: seq<Trade>)

  datatype Frame = Frame(channel: Option<string>, data: Payload)

  /** An upstream message: text that `JSON.parse` rejects, or the decoded frame. */
  datatype Inbound = Unparsable | Decoded(frame: Frame)

  /** What the environment supplies while one trade is converted: the value of
      `Date.now()` and the draws of `Math.random()`. */
  datatype TradeEnv = TradeEnv(now: SafeNat, draw: Draw)

  /** The record broadcast to clients. */
  datatype Transaction = Transaction(
    id: string,
    timestamp: Timestamp,
    wallet: string,
    coin: string,
    side: Side,
    notionalValue: Number,
    price: Number,
    size: Number)

  /** Why converting one trade throws. */
  datatype TradeError = InvalidTime

  /** JavaScript truthiness of a possibly missing string. */
  predicate Truthy(s: Option<string>)
  {
    s.Some? && s.value != ""
  }

  /** `new Date(time)` is a valid date, so `toISOString` does not throw. */
  predicate ValidTime(time: TimeField)
  {
    match time
    case Missing => false
    case NullTime => true
    case Millis(ms) => -MAX_TIME_MS <= ms <= MAX_TIME_MS
  }

  /** The time value of a valid date: `null` converts to 0. */
  function EpochMs(time: TimeField): int
    requires ValidTime(time)
  {
    if time.NullTime? then 0 else time.ms
  }

  /** The upstream side code `A` (ask) is a SHORT; every other code is a LONG. */
  function SideOf(code: string): Side
  {
    if code == "A" then Short else Long
  }

  /** The transaction id: the trade id, a dash, and the current time. */
  function MakeId(tid: nat, now: nat): string
  {
    Text.DecimalText(tid) + "-" + Text.DecimalText(now)
  }

  /** Splits an id at its first dash and reads both halves as decimal numbers. */
  function ParseId(id: string): Option<(nat, nat)>
  {
    match Text.IndexOf(id, '-')
    case None => None
    case Some(i) =>
      match (Text.ParseDecimal(id[..i]), Text.ParseDecimal(id[i + 1..]))
      case (Some(tid), Some(now)) => Some((tid, now))
      case _ => None
  }

  /** An id gives back the trade id and the time it was built from. */
  lemma IdRoundTrip(tid: nat, now: nat)
    ensures ParseId(MakeId(tid, now)) == Some((tid, now))
  {
    var a, b := Text.DecimalText(tid), Text.DecimalText(now);
    var id := MakeId(tid, now);
    Text.IndexOfAfter(a, '-', b);
    assert id[..|a|] == a;
    assert id[|a| + 1..] == b;
    Text.ParseDecimalText(tid);
    Text.ParseDecimalText(now);
  }

  /** Two transactions with the same id were built from the same trade id at the same time. */
  lemma IdInjective(tid1: nat, now1: nat, tid2: nat, now2: nat)
    requires MakeId(tid1, now1) == MakeId(tid2, now2)
    ensures tid1 == tid2 && now1 == now2
  {
    IdRoundTrip(tid1, now1);
    IdRoundTrip(tid2, now2);
  }

  /** The wallet `generateRandomWallet` builds from a draw. */
  function PlaceholderWallet(draw: Draw): string
  {
    "0x" + seq(WALLET_DIGITS, i requires 0 <= i < WALLET_DIGITS => HEX_CHARS[draw[i]])
  }

  predicate IsHexChar(c: char)
  {
    '0' <= c <= '9' || 'a' <= c <= 'f'
  }

  /** `0x` followed by 40 lower-case hex characters. */
  predicate IsPlaceholderShape(w: string)
  {
    |w| == 2 + WALLET_DIGITS && w[..2] == "0x" && forall i :: 2 <= i < |w| ==> IsHexChar(w[i])
  }

  /** The value of a lower-case hex character: its index in HEX_CHARS. */
  function HexValue(c: char): Nibble
    requires IsHexChar(c)
  {
    if c <= '9' then (c as int) - ('0' as int) else (c as int) - ('a' as int) + 10
  }

  lemma HexCharAt(n: Nibble)
    ensures IsHexChar(HEX_CHARS[n]) && HexValue(HEX_CHARS[n]) == n
  {
    if n < 8 {
      if n < 4 {
        if n < 2 { assert n == 0 || n == 1; } else { assert n == 2 || n == 3; }
      } else {
        if n < 6 { assert n == 4 || n == 5; } else { assert n == 6 || n == 7; }
      }
    } else {
      if n < 12 {
        if n < 10 { assert n == 8 || n == 9; } else { assert n == 10 || n == 11; }
      } else {
        if n < 14 { assert n == 12 || n == 13; } else { assert n == 14 || n == 15; }
      }
    }
  }

  /** The draw a placeholder wallet was generated from. */
  function DrawOf(w: string): Draw
    requires IsPlaceholderShape(w)
  {
    seq(WALLET_DIGITS, i requires 0 <= i < WALLET_DIGITS => HexValue(w[2 + i]))
  }

  /** A generated wallet has the placeholder shape, and the draw can be read back from it,
      so distinct draws give distinct wallets. */
  lemma PlaceholderRoundTrip(draw: Draw)
    ensures IsPlaceholderShape(PlaceholderWallet(draw))
    ensures DrawOf(PlaceholderWallet(draw)) == draw
  {
    var w := PlaceholderWallet(draw);
    forall i | 0 <= i < WALLET_DIGITS
      ensures IsHexChar(w[2 + i]) && HexValue(w[2 + i]) == draw[i]
    {
      HexCharAt(draw[i]);
    }
  }

  /** `generateRandomWallet`: `0x`, then one character of HEX_CHARS per draw. */
  method GenerateRandomWallet(draw: Draw) returns (wallet: string)
    ensures wallet == PlaceholderWallet(draw)
    ensures IsPlaceholderShape(wallet)
  {
    wallet := "0x";
    for i := 0 to WALLET_DIGITS
      invariant |wallet| == 2 + i && wallet[..2] == "0x"
      invariant forall j :: 0 <= j < i ==> wallet[2 + j] == HEX_CHARS[draw[j]]
    {
      wallet := wallet + [HEX_CHARS[draw[i]]];
    }
    assert wallet == PlaceholderWallet(draw);
    PlaceholderRoundTrip(draw);
  }

  /** The wallet of a transaction: the trade's user when truthy, else a placeholder. */
  function WalletFor(user: Option<string>, draw: Draw): string
  {
    if Truthy(user) then user.value else PlaceholderWallet(draw)
  }

  /** The record built for one trade, or the error thrown while building it. */
  function Transact(t: Trade, env: TradeEnv): (r: Result<Transaction, TradeError>)
    ensures r.Ok? <==> ValidTime(t.time)
    ensures r.Err? ==> r.error == InvalidTime
  {
    if !ValidTime(t.time) then Err(InvalidTime)
    else
      var price, size := ParseFloat(t.px), ParseFloat(t.sz);
      Ok(Transaction(
        MakeId(t.tid, env.now),
        IsoString(EpochMs(t.time)),
        WalletFor(t.user, env.draw),
        t.coin,
        SideOf(t.side),
        Times(price, size),
        price,
        size))
  }

  /** What every field of a converted trade means. */
  lemma TransactFields(t: Trade, env: TradeEnv)
    ensures Transact(t, env).Ok? <==> ValidTime(t.time)
    ensures t.time.Missing? ==> Transact(t, env) == Err(InvalidTime)
    ensures t.time.NullTime? ==> Transact(t, env).Ok? && Transact(t, env).value.timestamp == IsoString(0)
    ensures Transact(t, env).Ok? ==>
      var tx := Transact(t, env).value;
      && (tx.side == Short <==> t.side == "A")
      && SideName(tx.side) == (if t.side == "A" then "SHORT" else "LONG")
      && (Truthy(t.user) ==> tx.wallet == t.user.value)
      && (!Truthy(t.user) ==> IsPlaceholderShape(tx.wallet) && DrawOf(tx.wallet) == env.draw)
      && tx.coin == t.coin
      && tx.id[..|Text.DecimalText(t.tid)| + 1] == Text.DecimalText(t.tid) + "-"
      && ParseId(tx.id) == Some((t.tid, env.now))
      && tx.timestamp == IsoString(EpochMs(t.time))
      && tx.price == ParseFloat(t.px) && tx.size == ParseFloat(t.sz)
      && tx.notionalValue == Times(tx.price, tx.size)
  {
    IdRoundTrip(t.tid, env.now);
    PlaceholderRoundTrip(env.draw);
  }

  /** The trades of a frame that the handler iterates over: only a `trades` channel
      frame whose `data` is an array. */
  function TradesOf(m: Inbound): Option<seq<Trade>>
  {
    if m.Decoded? && m.frame.channel == Some("trades") && m.frame.data.Records?
    then Some(m.frame.data.trades)
    else None
  }

  /** One environment per trade of the frame. */
  predicate SuppliesEnvs(m: Inbound, envs: seq<TradeEnv>)
  {
    TradesOf(m).Some? ==> |envs| == |TradesOf(m).value|
  }

  /** Number of leading trades converted before the first one that throws. */
  function LeadingOk(ts: seq<Trade>, envs: seq<TradeEnv>): (k: nat)
    requires |envs| == |ts|
    ensures k <= |ts|
    ensures forall i :: 0 <= i < k ==> Transact(ts[i], envs[i]).Ok?
    ensures k < |ts| ==> Transact(ts[k], envs[k]).Err?
  {
    if ts == [] || Transact(ts[0], envs[0]).Err? then 0
    else 1 + LeadingOk(ts[1..], envs[1..])
  }

  /** The transactions the handler broadcasts for one message, in broadcast order. An
      exception while converting a trade ends the `forEach`, so what was broadcast is
      the converted prefix. */
  function Normalise(m: Inbound, envs: seq<TradeEnv>): (txs: seq<Transaction>)
    requires SuppliesEnvs(m, envs)
    ensures TradesOf(m).None? ==> txs == []
    ensures TradesOf(m).Some? ==>
      var ts := TradesOf(m).value;
      && |txs| <= |ts|
      && (forall i :: 0 <= i < |txs| ==> Transact(ts[i], envs[i]) == Ok(txs[i]))
      && (|txs| < |ts| ==> Transact(ts[|txs|], envs[|txs|]).Err?)
  {
    match TradesOf(m)
    case None => []
    case Some(ts) =>
      seq(LeadingOk(ts, envs), i requires 0 <= i < LeadingOk(ts, envs) => Transact(ts[i], envs[i]).value)
  }

  /** A frame that is not a trades frame with an array payload is ignored. */
  lemma IgnoredFrames(m: Inbound, envs: seq<TradeEnv>)
    requires SuppliesEnvs(m, envs)
    requires !(m.Decoded? && m.frame.channel == Some("trades") && m.frame.data.Records?)
    ensures Normalise(m, envs) == []
  {
  }

  /** A trades frame whose trades all carry a valid time yields exactly one transaction
      per trade, in array order, each built from its own trade. */
  lemma WholeBatch(f: Frame, envs: seq<TradeEnv>)
    requires f.channel == Some("trades") && f.data.Records?
    requires |envs| == |f.data.trades|
    requires forall i :: 0 <= i < |f.data.trades| ==> ValidTime(f.data.trades[i].time)
    ensures |Normalise(Decoded(f), envs)| == |f.data.trades|
    ensures forall i :: 0 <= i < |f.data.trades| ==>
      Normalise(Decoded(f), envs)[i] == Transact(f.data.trades[i], envs[i]).value
  {
    var txs := Normalise(Decoded(f), envs);
    if |txs| < |f.data.trades| {
      TransactFields(f.data.trades[|txs|], envs[|txs|]);
    }
  }

  /** Every coin of a broadcast transaction is copied from its trade: the normaliser
      does not check it against TRACKED_COINS, so an untracked coin passes through. */
  lemma UntrackedCoinPasses()
    ensures var t := Trade(1, Millis(0), Some("0xabc"), "PEPE", "B", "1", "2");
      var txs := Normalise(Decoded(Frame(Some("trades"), Records([t]))), [TradeEnv(7, seq(40, _ => 0))]);
      |txs| == 1 && txs[0].coin == "PEPE" && "PEPE" !in TRACKED_COINS
  {
    var t := Trade(1, Millis(0), Some("0xabc"), "PEPE", "B", "1", "2");
    WholeBatch(Frame(Some("trades"), Records([t])), [TradeEnv(7, seq(40, _ => 0))]);
  }
}
