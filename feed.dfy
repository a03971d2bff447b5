/** The browser client's transaction feed (src/App.js): a broadcast message becomes a view
    entry, entries are kept newest first without repeated ids and at most 100 of them,
    and the header counts the LONG and SHORT entries. */
module Feed {
  import opened Wrappers

  /** `.slice(0, 100)`: the feed never holds more entries. */
  const FEED_CAPACITY: nat := 100

  /** `.substring(0, 10)` of the wallet. */
  const SHORT_WALLET_LENGTH: nat := 10

  /** A number field after `JSON.parse`: `null` (the relay's NaN serialises to null) or
      a number, kept as its literal. */
  datatype JsonNumber = JsonNull | JsonNum(literal: string)

  /** The fields of a broadcast transaction as the client reads them; `wallet` is None
      when the field is missing. */
  datatype WireTx = WireTx(
    id: string,
    timestamp: string,
    wallet: Option<string>,
    coin: string,
    side: string,
    notionalValue: JsonNumber,
    price: JsonNumber,
    size: JsonNumber)

  /** A socket message: text `JSON.parse` rejects, or the parsed transaction. */
  datatype Incoming = Garbled | Parsed(tx: WireTx)

  /** Display strings, kept uninterpreted: `toLocaleTimeString()` of the timestamp,
      `(notional / 1000000).toFixed(2) + 'M'`, `'$' + price.toFixed(2)` and
      `size.toFixed(4)`. */
  datatype Display =
    | LocalTime(iso: string)
    | Millions(notional: JsonNumber)
    | Dollars(priceLiteral: string)
    | Fixed4(sizeLiteral: string)

  /** `newTx`, one row of the feed. */
  datatype Entry = Entry(
    id: string,
    timestamp: Display,
    wallet: string,
    walletShort: string,
    coin: string,
    side: string,
    amount: Display,
    price: Display,
    size: Display)

  /** The TypeError thrown when a field is missing or null where a method is called on it. */
  datatype ClientError = TypeError

  function Min(a: nat, b: nat): nat
  {
    if a <= b then a else b
  }

  /** `wallet.substring(0, 10)`. */
  function ShortWallet(wallet: string): (short: string)
    ensures |short| == Min(SHORT_WALLET_LENGTH, |wallet|)
    ensures short == wallet[..|short|]
  {
    wallet[..Min(SHORT_WALLET_LENGTH, |wallet|)]
  }

  /** Building `newTx`: `wallet.substring` throws when the wallet is missing, `toFixed`
      throws when price or size is null; a null notional divides to 0 and does not throw. */
  function NewTx(w: WireTx): (r: Result<Entry, ClientError>)
    ensures r.Ok? <==> w.wallet.Some? && w.price.JsonNum? && w.size.JsonNum?
  {
    if w.wallet.None? || w.price.JsonNull? || w.size.JsonNull? then Err(TypeError)
    else Ok(Entry(
      w.id,
      LocalTime(w.timestamp),
      w.wallet.value,
      ShortWallet(w.wallet.value),
      w.coin,
      w.side,
      Millions(w.notionalValue),
      Dollars(w.price.literal),
      Fixed4(w.size.literal)))
  }

  /** When a message becomes an entry, and what the entry holds. */
  lemma NewTxFields(w: WireTx)
    ensures NewTx(w).Ok? <==> w.wallet.Some? && w.price.JsonNum? && w.size.JsonNum?
    ensures NewTx(w).Ok? ==>
      var e := NewTx(w).value;
      && e.id == w.id && e.wallet == w.wallet.value && e.coin == w.coin && e.side == w.side
      && e.walletShort + e.wallet[|e.walletShort|..] == e.wallet
      && |e.walletShort| == Min(SHORT_WALLET_LENGTH, |e.wallet|)
  {
    if NewTx(w).Ok? {
      var e := NewTx(w).value;
      assert e.wallet[..|e.walletShort|] + e.wallet[|e.walletShort|..] == e.wallet;
    }
  }

  /** `prev.some(tx => tx.id === id)`. */
  predicate HasId(feed: seq<Entry>, id: string)
  {
    exists i :: 0 <= i < |feed| && feed[i].id == id
  }

  predicate DistinctIds(feed: seq<Entry>)
  {
    forall i, j :: 0 <= i < j < |feed| ==> feed[i].id != feed[j].id
  }

  /** What the feed keeps at all times: no two entries share an id, at most 100 entries. */
  predicate FeedValid(feed: seq<Entry>)
  {
    |feed| <= FEED_CAPACITY && DistinctIds(feed)
  }

  /** The `setTransactions` updater. A known id leaves the list as it is; otherwise the
      entry goes in front and the list is cut to its first 100 entries. */
  function Update(prev: seq<Entry>, e: Entry): (next: seq<Entry>)
    ensures HasId(prev, e.id) ==> next == prev
    ensures !HasId(prev, e.id) ==>
      && |next| == Min(|prev| + 1, FEED_CAPACITY)
      && next[0] == e
      && next[1..] == prev[..|next| - 1]
  {
    if HasId(prev, e.id) then prev else ([e] + prev)[..Min(|prev| + 1, FEED_CAPACITY)]
  }

  /** After an update the entry's id is in the feed, and every entry is the new one or
      an entry that was there before. */
  lemma UpdateContents(prev: seq<Entry>, e: Entry)
    ensures HasId(Update(prev, e), e.id)
    ensures forall x :: x in Update(prev, e) ==> x == e || x in prev
  {
    var next := Update(prev, e);
    if !HasId(prev, e.id) {
      assert next[0].id == e.id;
      forall x | x in next ensures x == e || x in prev {
        var i :| 0 <= i < |next| && next[i] == x;
        if i > 0 { assert x == next[1..][i - 1] == prev[i - 1]; }
      }
    }
  }

  /** The updater keeps the feed duplicate-free and within its capacity. */
  lemma UpdateKeepsValid(prev: seq<Entry>, e: Entry)
    requires FeedValid(prev)
    ensures FeedValid(Update(prev, e))
  {
    var next := Update(prev, e);
    if !HasId(prev, e.id) {
      forall i, j | 0 <= i < j < |next| ensures next[i].id != next[j].id {
        assert next[j] == prev[j - 1];
        if i > 0 { assert next[i] == prev[i - 1]; }
      }
    }
  }

  /** The `onmessage` handler's effect on the feed: a message that does not parse, or
      whose entry throws while being built, leaves the feed as it is. */
  function Receive(feed: seq<Entry>, m: Incoming): seq<Entry>
  {
    match m
    case Garbled => feed
    case Parsed(w) =>
      match NewTx(w)
      case Err(_) => feed
      case Ok(e) => Update(feed, e)
  }

  /** The feed after the messages `ms`, oldest first, starting from the initial `[]`. */
  function FeedAfter(ms: seq<Incoming>): seq<Entry>
  {
    if ms == [] then [] else Receive(FeedAfter(ms[..|ms| - 1]), ms[|ms| - 1])
  }

  /** Whatever arrives, the feed never holds a repeated id nor more than 100 entries. */
  lemma {:induction false} FeedAlwaysValid(ms: seq<Incoming>)
    ensures FeedValid(FeedAfter(ms))
  {
    if ms != [] {
      FeedAlwaysValid(ms[..|ms| - 1]);
      var m := ms[|ms| - 1];
      if m.Parsed? && NewTx(m.tx).Ok? {
        UpdateKeepsValid(FeedAfter(ms[..|ms| - 1]), NewTx(m.tx).value);
      }
    }
  }

  /** `feed.filter(t => t.side === side).length`. */
  function CountSide(feed: seq<Entry>, side: string): (n: nat)
    ensures n <= |feed|
    ensures n == 0 <==> forall i :: 0 <= i < |feed| ==> feed[i].side != side
  {
    if feed == [] then 0
    else CountSide(feed[..|feed| - 1], side) + (if feed[|feed| - 1].side == side then 1 else 0)
  }

  /** The Total Longs and Total Shorts counters never add up to more than Total Tracked,
      and add up to it exactly when every entry is LONG or SHORT. */
  lemma {:induction false} SideCounts(feed: seq<Entry>)
    ensures CountSide(feed, "LONG") + CountSide(feed, "SHORT") <= |feed|
    ensures CountSide(feed, "LONG") + CountSide(feed, "SHORT") == |feed| <==>
      forall i :: 0 <= i < |feed| ==> feed[i].side == "LONG" || feed[i].side == "SHORT"
  {
    if feed != [] {
      var init := feed[..|feed| - 1];
      SideCounts(init);
      assert forall i :: 0 <= i < |init| ==> init[i] == feed[i];
    }
  }
}
