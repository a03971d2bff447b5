/** The relay server (server.js): its single upstream connection, the subscriptions sent
    when that connection opens, the reconnect timer armed when it closes, the set of
    downstream clients, the broadcast of every transaction, and the `/health` snapshot. */
module Relay {
  import opened Wrappers
  import opened Sockets
  import opened Trades

  /** Delay of the reconnect timer armed on upstream close. */
  const RECONNECT_DELAY_MS: nat := 5000

  /** The `subscription` object of a subscribe request; `kind` is its `type` field. */
  datatype Subscription = Subscription(kind: string, coin: string)

  /** `{method, subscription}` as sent upstream. */
  datatype SubscribeRequest = SubscribeRequest(methodName: string, subscription: Subscription)

  /** A request sent upstream, tagged with the socket it went out on. */
  datatype Sent = Sent(socket: nat, request: SubscribeRequest)

  /** `JSON.stringify(transaction)`, kept abstract. */
  datatype Wire = Json(tx: Transaction)

  /** A downstream connection: its identity and its `readyState`. */
  datatype Client = Client(handle: nat, state: ReadyState)

  /** One `client.send(message)`. */
  datatype Delivery = Delivery(client: nat, message: Wire)

  /** `hyperliquidWs`: null before the first connect, else the latest socket created. */
  datatype Upstream = NoSocket | Socket(id: nat, state: ReadyState)

  /** The body of a `/health` response. `hyperliquidConnected` is None when
      `hyperliquidWs` is null, since `null && ...` evaluates to null. */
  datatype HealthReport = HealthReport(
    status: string,
    hyperliquidConnected: Option<bool>,
    trackedCoins: seq<string>,
    connectedClients: nat)

  function Serialise(tx: Transaction): Wire
  {
    Json(tx)
  }

  function SubscribeTo(coin: string): SubscribeRequest
  {
    SubscribeRequest("subscribe", Subscription("trades", coin))
  }

  /** The requests sent on socket `socket` for `coins`, one per coin, in coin order. */
  function SubscribeBurst(socket: nat, coins: seq<string>): (burst: seq<Sent>)
    ensures |burst| == |coins|
    ensures forall i :: 0 <= i < |coins| ==> burst[i] == Sent(socket, SubscribeTo(coins[i]))
  {
    if coins == [] then []
    else SubscribeBurst(socket, coins[..|coins| - 1]) + [Sent(socket, SubscribeTo(coins[|coins| - 1]))]
  }

  predicate DistinctHandles(cs: seq<Client>)
  {
    forall i, j :: 0 <= i < j < |cs| ==> cs[i].handle != cs[j].handle
  }

  predicate HasHandle(cs: seq<Client>, h: nat)
  {
    exists i :: 0 <= i < |cs| && cs[i].handle == h
  }

  /** `h` is a client of `cs` whose state is OPEN. */
  predicate OpenIn(cs: seq<Client>, h: nat)
  {
    exists i :: 0 <= i < |cs| && cs[i].handle == h && cs[i].state == Open
  }

  /** The sends of one broadcast of `msg`, in the clients' iteration order. */
  function Fanout(cs: seq<Client>, msg: Wire): (ds: seq<Delivery>)
    ensures |ds| <= |cs|
    ensures forall i :: 0 <= i < |ds| ==> ds[i].message == msg
  {
    if cs == [] then []
    else
      var last := cs[|cs| - 1];
      Fanout(cs[..|cs| - 1], msg) + (if last.state == Open then [Delivery(last.handle, msg)] else [])
  }

  /** The sends of broadcasting each of `txs` in turn. */
  function BroadcastAll(cs: seq<Client>, txs: seq<Transaction>): seq<Delivery>
  {
    if txs == [] then []
    else BroadcastAll(cs, txs[..|txs| - 1]) + Fanout(cs, Serialise(txs[|txs| - 1]))
  }

  /** The messages delivered to client `h`, in delivery order. */
  function DeliveredTo(ds: seq<Delivery>, h: nat): seq<Wire>
  {
    if ds == [] then []
    else DeliveredTo(ds[..|ds| - 1], h) + (if ds[|ds| - 1].client == h then [ds[|ds| - 1].message] else [])
  }

  lemma {:induction false} DeliveredToAppend(a: seq<Delivery>, b: seq<Delivery>, h: nat)
    ensures DeliveredTo(a + b, h) == DeliveredTo(a, h) + DeliveredTo(b, h)
  {
    if b != [] {
      assert (a + b)[..|a + b| - 1] == a + b[..|b| - 1];
      assert (a + b)[|a + b| - 1] == b[|b| - 1];
      DeliveredToAppend(a, b[..|b| - 1], h);
    } else {
      assert a + b == a;
    }
  }

  /** A broadcast sends `msg` and nothing else, and only to clients that are OPEN;
      every OPEN client is sent it. */
  lemma {:induction false} FanoutMembers(cs: seq<Client>, msg: Wire, d: Delivery)
    ensures d in Fanout(cs, msg) <==> d.message == msg && OpenIn(cs, d.client)
  {
    if cs != [] {
      var init := cs[..|cs| - 1];
      FanoutMembers(init, msg, d);
      if OpenIn(cs, d.client) && !OpenIn(init, d.client) {
        var i :| 0 <= i < |cs| && cs[i].handle == d.client && cs[i].state == Open;
        assert i == |cs| - 1;
      }
      if OpenIn(init, d.client) {
        var i :| 0 <= i < |init| && init[i].handle == d.client && init[i].state == Open;
        assert cs[i] == init[i];
      }
    }
  }

  /** Splitting off the last client: `h` is open in `cs` iff it is open in the clients
      before the last or it is the last client and that one is OPEN; with distinct
      handles, a client open before the last is not the last. */
  lemma OpenInSnoc(cs: seq<Client>, h: nat)
    requires cs != [] && DistinctHandles(cs)
    ensures OpenIn(cs, h) <==>
      OpenIn(cs[..|cs| - 1], h) || (cs[|cs| - 1].handle == h && cs[|cs| - 1].state == Open)
    ensures OpenIn(cs[..|cs| - 1], h) ==> cs[|cs| - 1].handle != h
  {
    var init := cs[..|cs| - 1];
    if OpenIn(init, h) {
      var i :| 0 <= i < |init| && init[i].handle == h && init[i].state == Open;
      assert cs[i] == init[i];
    }
    if OpenIn(cs, h) && !OpenIn(init, h) {
      var i :| 0 <= i < |cs| && cs[i].handle == h && cs[i].state == Open;
      assert i == |cs| - 1;
    }
  }

  /** With distinct handles, a broadcast sends `msg` exactly once to each OPEN client
      and never to any other client. */
  lemma {:induction false} FanoutTo(cs: seq<Client>, msg: Wire, h: nat)
    requires DistinctHandles(cs)
    ensures DeliveredTo(Fanout(cs, msg), h) == if OpenIn(cs, h) then [msg] else []
  {
    if cs != [] {
      var init, last := cs[..|cs| - 1], cs[|cs| - 1];
      var tail := if last.state == Open then [Delivery(last.handle, msg)] else [];
      assert DistinctHandles(init) by {
        forall i, j | 0 <= i < j < |init| ensures init[i].handle != init[j].handle {
          assert init[i] == cs[i] && init[j] == cs[j];
        }
      }
      FanoutTo(init, msg, h);
      DeliveredToAppend(Fanout(init, msg), tail, h);
      assert DeliveredTo(tail, h) == if last.state == Open && last.handle == h then [msg] else [] by {
        if tail != [] { assert tail[..0] == []; }
      }
      OpenInSnoc(cs, h);
    }
  }

  /** Each OPEN client receives every transaction of a batch, once each and in the
      order produced; every other client receives nothing. */
  lemma {:induction false} BroadcastAllTo(cs: seq<Client>, txs: seq<Transaction>, h: nat)
    requires DistinctHandles(cs)
    ensures DeliveredTo(BroadcastAll(cs, txs), h) ==
      if OpenIn(cs, h) then seq(|txs|, i requires 0 <= i < |txs| => Serialise(txs[i])) else []
  {
    if txs != [] {
      var init := txs[..|txs| - 1];
      BroadcastAllTo(cs, init, h);
      DeliveredToAppend(BroadcastAll(cs, init), Fanout(cs, Serialise(txs[|txs| - 1])), h);
      FanoutTo(cs, Serialise(txs[|txs| - 1]), h);
      SerialisedSnoc(txs);
    }
  }

  /** Proof helper for BroadcastAllTo: the serialised batch is the serialised batch
      without its last transaction, followed by that one's wire text. */
  lemma SerialisedSnoc(txs: seq<Transaction>)
    requires txs != []
    ensures seq(|txs|, i requires 0 <= i < |txs| => Serialise(txs[i])) ==
      seq(|txs| - 1, i requires 0 <= i < |txs| - 1 => Serialise(txs[..|txs| - 1][i]))
        + [Serialise(txs[|txs| - 1])]
  {
  }

  /** Proof helper for BroadcastBatch: regrouping the deliveries made so far. */
  lemma AppendAssoc(a: seq<Delivery>, b: seq<Delivery>, c: seq<Delivery>)
    ensures a + (b + c) == (a + b) + c
  {
  }

  /** Broadcasting one more transaction appends its fan-out. */
  lemma BroadcastAllSnoc(cs: seq<Client>, txs: seq<Transaction>, i: nat)
    requires i < |txs|
    ensures BroadcastAll(cs, txs[..i + 1]) == BroadcastAll(cs, txs[..i]) + Fanout(cs, Serialise(txs[i]))
  {
    assert txs[..i + 1][..i] == txs[..i];
  }

  class Relay {
    /** `hyperliquidWs` and the state of that socket. */
    var upstream: Upstream
    /** Number of upstream sockets created so far; the next one gets this id. */
    var socketsCreated: nat
    /** Every request sent upstream, in order. */
    var sent: seq<Sent>
    /** Delays of the reconnect timers armed and not yet fired, in arming order. */
    var reconnects: seq<nat>
    /** `wss.clients`, in insertion order. */
    var clients: seq<Client>
    /** Every `client.send`, in order. */
    var deliveries: seq<Delivery>

    predicate Valid()
      reads this
    {
      && DistinctHandles(clients)
      && (upstream.Socket? ==> upstream.id < socketsCreated)
    }

    /** The module state before `server.listen` calls back. */
    constructor ()
      ensures Valid()
      ensures upstream == NoSocket && socketsCreated == 0
      ensures sent == [] && reconnects == [] && clients == [] && deliveries == []
    {
      upstream := NoSocket;
      socketsCreated := 0;
      sent := [];
      reconnects := [];
      clients := [];
      deliveries := [];
    }

    /** `connectToHyperliquid`: a new socket, CONNECTING, replaces `hyperliquidWs`. */
    method Connect()
      requires Valid()
      modifies this
      ensures Valid()
      ensures upstream == Socket(old(socketsCreated), Connecting)
      ensures socketsCreated == old(socketsCreated) + 1
      ensures sent == old(sent) && reconnects == old(reconnects)
      ensures clients == old(clients) && deliveries == old(deliveries)
    {
      upstream := Socket(socketsCreated, Connecting);
      socketsCreated := socketsCreated + 1;
    }

    /** The `open` handler: the socket is OPEN and one subscribe request per tracked
        coin goes out on it, in TRACKED_COINS order. */
    method OnOpen()
      requires Valid() && upstream.Socket?
      modifies this
      ensures Valid()
      ensures upstream == Socket(old(upstream).id, Open)
      ensures sent == old(sent) + SubscribeBurst(upstream.id, TRACKED_COINS)
      ensures socketsCreated == old(socketsCreated) && reconnects == old(reconnects)
      ensures clients == old(clients) && deliveries == old(deliveries)
    {
      upstream := Socket(upstream.id, Open);
      for i := 0 to |TRACKED_COINS|
        invariant upstream == Socket(old(upstream).id, Open)
        invariant sent == old(sent) + SubscribeBurst(upstream.id, TRACKED_COINS[..i])
        invariant socketsCreated == old(socketsCreated) && reconnects == old(reconnects)
        invariant clients == old(clients) && deliveries == old(deliveries)
      {
        assert TRACKED_COINS[..i + 1][..i] == TRACKED_COINS[..i];
        sent := sent + [Sent(upstream.id, SubscribeTo(TRACKED_COINS[i]))];
      }
      assert TRACKED_COINS[..|TRACKED_COINS|] == TRACKED_COINS;
    }

    /** `broadcastToClients`: the same message to every OPEN client; the client set,
        non-open members included, is left as it was. */
    method Broadcast(tx: Transaction)
      requires Valid()
      modifies this`deliveries
      ensures Valid()
      ensures deliveries == old(deliveries) + Fanout(clients, Serialise(tx))
    {
      var message := Serialise(tx);
      for i := 0 to |clients|
        invariant deliveries == old(deliveries) + Fanout(clients[..i], message)
      {
        assert clients[..i + 1][..i] == clients[..i];
        if clients[i].state == Open {
          deliveries := deliveries + [Delivery(clients[i].handle, message)];
        }
      }
      assert clients[..|clients|] == clients;
    }

    /** The `forEach` over the trades of one frame: each trade is converted and
        broadcast in turn until one throws. `txs` are the transactions of the trades
        before that one. */
    method BroadcastBatch(trades: seq<Trade>, envs: seq<TradeEnv>, ghost txs: seq<Transaction>)
      requires Valid() && |envs| == |trades| && |txs| <= |trades|
      requires forall i :: 0 <= i < |txs| ==> Transact(trades[i], envs[i]) == Ok(txs[i])
      requires |txs| < |trades| ==> Transact(trades[|txs|], envs[|txs|]).Err?
      modifies this`deliveries
      ensures Valid()
      ensures deliveries == old(deliveries) + BroadcastAll(clients, txs)
    {
      ghost var cs := clients;
      var i := 0;
      while i < |trades|
        invariant 0 <= i <= |txs|
        invariant Valid() && clients == cs
        invariant deliveries == old(deliveries) + BroadcastAll(cs, txs[..i])
      {
        var r := Transact(trades[i], envs[i]);
        if r.Err? {
          break;
        }
        BroadcastAllSnoc(cs, txs, i);
        AppendAssoc(old(deliveries), BroadcastAll(cs, txs[..i]), Fanout(cs, Serialise(txs[i])));
        Broadcast(r.value);
        i := i + 1;
      }
      assert txs[..i] == txs;
    }

    /** The `message` handler: each trade of a trades frame is converted and broadcast
        in turn; the first trade that throws ends the batch. */
    method OnMessage(m: Inbound, envs: seq<TradeEnv>)
      requires Valid() && SuppliesEnvs(m, envs)
      modifies this`deliveries
      ensures Valid()
      ensures deliveries == old(deliveries) + BroadcastAll(clients, Normalise(m, envs))
    {
      match TradesOf(m) {
        case None =>
        case Some(trades) =>
          BroadcastBatch(trades, envs, Normalise(m, envs));
      }
    }

    /** The `error` handler only logs. */
    method OnError()
      ensures unchanged(this)
    {
    }

    /** The `close` handler: one reconnect timer of 5000 ms is armed. */
    method OnClose()
      requires Valid() && upstream.Socket?
      modifies this
      ensures Valid()
      ensures upstream == Socket(old(upstream).id, Closed)
      ensures reconnects == old(reconnects) + [RECONNECT_DELAY_MS]
      ensures socketsCreated == old(socketsCreated) && sent == old(sent)
      ensures clients == old(clients) && deliveries == old(deliveries)
    {
      upstream := Socket(upstream.id, Closed);
      reconnects := reconnects + [RECONNECT_DELAY_MS];
    }

    /** The oldest armed reconnect timer fires and calls `connectToHyperliquid`. */
    method FireReconnect()
      requires Valid() && |reconnects| > 0
      modifies this
      ensures Valid()
      ensures reconnects == old(reconnects)[1..]
      ensures upstream == Socket(old(socketsCreated), Connecting)
      ensures socketsCreated == old(socketsCreated) + 1 && sent == old(sent)
      ensures clients == old(clients) && deliveries == old(deliveries)
    {
      reconnects := reconnects[1..];
      Connect();
    }

    /** A client connects: the server adds it to `wss.clients`, OPEN. */
    method Join(handle: nat)
      requires Valid() && !HasHandle(clients, handle)
      modifies this`clients
      ensures Valid()
      ensures clients == old(clients) + [Client(handle, Open)]
    {
      clients := clients + [Client(handle, Open)];
    }

    /** A client's transport changes state (for instance starts closing) while it is
        still in `wss.clients`. */
    method ClientStateChanged(handle: nat, state: ReadyState)
      requires Valid()
      modifies this`clients
      ensures Valid()
      ensures clients == WithState(old(clients), handle, state)
    {
      clients := WithState(clients, handle, state);
    }

    /** A client's connection closes: the server drops it from `wss.clients`. Dropping
        a client that is not there changes nothing. */
    method Leave(handle: nat)
      requires Valid()
      modifies this`clients
      ensures Valid()
      ensures clients == Without(old(clients), handle)
      ensures !HasHandle(clients, handle)
    {
      clients := Without(clients, handle);
    }

    /** The `/health` response. */
    function Health(): (h: HealthReport)
      reads this
      ensures h.status == "ok"
      ensures h.hyperliquidConnected == None <==> upstream.NoSocket?
      ensures h.hyperliquidConnected == Some(true) <==> upstream.Socket? && upstream.state == Open
      ensures h.trackedCoins == TRACKED_COINS
      ensures h.connectedClients == |clients|
    {
      HealthReport(
        "ok",
        if upstream.NoSocket? then None else Some(upstream.state == Open),
        TRACKED_COINS,
        |clients|)
    }
  }

  /** `cs` with client `h` in state `state`; the others and the order are kept. */
  function WithState(cs: seq<Client>, h: nat, state: ReadyState): (r: seq<Client>)
    ensures |r| == |cs|
    ensures forall i :: 0 <= i < |cs| ==>
      r[i] == if cs[i].handle == h then Client(h, state) else cs[i]
    ensures DistinctHandles(cs) ==> DistinctHandles(r)
  {
    seq(|cs|, i requires 0 <= i < |cs| => if cs[i].handle == h then Client(h, state) else cs[i])
  }

  /** `cs` without the client `h`, the others kept in order. */
  function Without(cs: seq<Client>, h: nat): (r: seq<Client>)
    ensures !HasHandle(r, h)
    ensures forall c :: c in r <==> c in cs && c.handle != h
    ensures DistinctHandles(cs) ==> DistinctHandles(r)
  {
    if cs == [] then []
    else if cs[0].handle == h then Without(cs[1..], h)
    else [cs[0]] + Without(cs[1..], h)
  }

  /** Removing a client twice has the same effect as removing it once. */
  lemma {:induction false} WithoutIdempotent(cs: seq<Client>, h: nat)
    ensures Without(Without(cs, h), h) == Without(cs, h)
  {
    if cs != [] {
      WithoutIdempotent(cs[1..], h);
    }
  }
}
