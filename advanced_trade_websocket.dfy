/**
 * The Advanced Trade WebSocket session of src/advanced_trade_websocket.rs:
 * the classification of stream messages, the session loop with its
 * reconnections, the subscription loop, `run` and `connect`.
 *
 * The socket library and the clock are replaced by an environment: whether
 * each call to `connect_wss` succeeds, what each read returns, how many
 * times the running flag reads true, whether each write is possible and
 * succeeds, and the clock reading at each subscription.
 */
module AdvancedTradeWebsocket {
  import opened Wrappers
  import opened Json
  import Models
  import opened RestClient
  import opened AdvancedTradeRestClient
  import Strings
  import Hex
  import SigGen

  /* ---------------- Message classification ---------------- */

  /** `AdvancedTradeEvents`: untagged, tried in this order. */
  datatype AdvancedTradeEvent =
    | GenericEvent(generic: Models.GenericMessage)
    | ErrorEvent(error: Models.ErrorMessage)
    | Unknown

  /** The untagged decoder: a generic envelope, else an error message, else (for JSON null only) `Unknown`. */
  function DecodeAdvancedTradeEvent(j: Json): (r: Option<AdvancedTradeEvent>)
    ensures (r.Some? && r.value.GenericEvent?) <==> Models.DecodeGenericMessage(j).Some?
    ensures r.Some? && r.value.GenericEvent? ==> Models.DecodeGenericMessage(j) == Some(r.value.generic)
    ensures (r.Some? && r.value.ErrorEvent?) <==>
              Models.DecodeGenericMessage(j).None? && Models.DecodeErrorMessage(j).Some?
    ensures r.Some? && r.value.ErrorEvent? ==> Models.DecodeErrorMessage(j) == Some(r.value.error)
    ensures (r.Some? && r.value.Unknown?) <==> j.JNull?
    ensures r.None? <==> !j.JNull? && Models.DecodeGenericMessage(j).None? && Models.DecodeErrorMessage(j).None?
  {
    match Models.DecodeGenericMessage(j)
    case Some(g) => Some(GenericEvent(g))
    case None =>
      match Models.DecodeErrorMessage(j)
      case Some(e) => Some(ErrorEvent(e))
      case None => if j.JNull? then Some(Unknown) else None
  }

  /** What `handle_msg` returns, and the event it logged. */
  datatype Handled = Handled(result: Result<(), Error>, logged: AdvancedTradeEvent)

  /**
   * `handle_msg` on a text frame (`None` when the text is not JSON): a
   * message that parses as no event is logged as `Unknown`, and the result
   * is always `Ok`.
   */
  function HandleMsg(msg: Option<Json>): (h: Handled)
    ensures h.result == Ok(())
    ensures h.logged.GenericEvent? <==> msg.Some? && Models.DecodeGenericMessage(msg.value).Some?
    ensures h.logged.GenericEvent? ==> Models.DecodeGenericMessage(msg.value) == Some(h.logged.generic)
    ensures h.logged.ErrorEvent? <==>
              msg.Some? && Models.DecodeGenericMessage(msg.value).None? && Models.DecodeErrorMessage(msg.value).Some?
    ensures h.logged.ErrorEvent? ==> Models.DecodeErrorMessage(msg.value) == Some(h.logged.error)
    ensures h.logged.Unknown? <==>
              msg.None? || (Models.DecodeGenericMessage(msg.value).None? && Models.DecodeErrorMessage(msg.value).None?)
  {
    var event := if msg.Some? && DecodeAdvancedTradeEvent(msg.value).Some? then DecodeAdvancedTradeEvent(msg.value).value
                 else Unknown;
    Handled(Ok(()), event)
  }

  /** The error the exchange sends on a failed authentication is logged as an error event. */
  lemma AuthenticationErrorClassified()
    ensures HandleMsg(Some(JObject([("type", JString("error")), ("message", JString("authentication failure"))]))).logged
            == ErrorEvent(Models.ErrorMessage("error", "authentication failure"))
  {
    var ms := [("type", JString("error")), ("message", JString("authentication failure"))];
    Models.GenericMessageObjectForm(ms);
    assert Lookup(ms, "channel") == Absent;
    Models.ErrorMessageObjectForm(ms, "error", "authentication failure");
  }

  /**
   * An envelope whose `events` holds an element of no known shape is not a
   * generic message; unless it also looks like an error message it is
   * logged as `Unknown`, and its recognisable events are lost with it.
   */
  lemma UnrecognisedEventSpoilsEnvelope(ms: seq<(string, Json)>, i: nat)
    requires Lookup(ms, "events").Unique? && Lookup(ms, "events").value.JArray?
    requires i < |Lookup(ms, "events").value.items|
    requires Models.DecodeWebsocketEventByType(Lookup(ms, "events").value.items[i]).None?
    requires !Lookup(ms, "message").Unique?
    ensures HandleMsg(Some(JObject(ms))).logged == Unknown
  {
    Models.GenericMessageObjectForm(ms);
    if Models.DecodeErrorMessage(JObject(ms)).Some? {
      var e := Models.DecodeErrorMessage(JObject(ms)).value;
      Models.ErrorMessageObjectForm(ms, e.msgType, e.message);
    }
  }

  /* ---------------- The session ---------------- */

  /** `SubscribeProducts`: every listed product of the exchange, or the given ones. */
  datatype SubscribeProducts = All | Custom(products: seq<string>)

  const Exchange: string := "coinbase-advanced-trade"
  const WebsocketUrl: string := "wss://advanced-trade-ws.coinbase.com"

  /** A frame as read from the socket; `Text` carries its parsed payload (`None` when it is not JSON). */
  datatype Frame = Text(payload: Option<Json>) | Binary | Ping | Pong | Close | RawFrame

  datatype ReadResult = Received(frame: Frame) | ReadFailed

  /** Why the session loop ended with an error. */
  datatype LoopError =
    | ConnectError     // "Error: Unable to connect."
    | UnhandledFrame   // "Received unhandled message of type: ..."
    | CloseError       // the error of closing the socket

  /**
   * The outside world of one session: `connectWss(k, urls)` is whether the
   * k-th connection attempt (0 is the first) succeeds on those URLs,
   * `read(n)` what the n-th read returns, `stopAt` how many times the
   * running flag reads true, and `closeOk` whether closing succeeds.
   */
  datatype Environment = Environment(
    connectWss: (nat, seq<string>) -> bool,
    read: nat -> ReadResult,
    stopAt: nat,
    closeOk: bool)

  /** Whether the k-th call of `connect` succeeds. */
  predicate ConnectOk(env: Environment, k: nat)
  {
    env.connectWss(k, [WebsocketUrl])
  }

  /** The number of failed reads among the first `n`. */
  function FailuresBefore(read: nat -> ReadResult, n: nat): (f: nat)
    ensures f <= n
  {
    if n == 0 then 0
    else FailuresBefore(read, n - 1) + (if read(n - 1).ReadFailed? then 1 else 0)
  }

  /**
   * The connection each of the first `n` reads uses: the connection opened
   * by the last successful reconnection before it, numbered by attempt.
   */
  function SocketsUsed(read: nat -> ReadResult, n: nat): (sockets: seq<nat>)
    ensures |sockets| == n
    ensures forall i :: 0 <= i < n ==> sockets[i] == FailuresBefore(read, i)
  {
    if n == 0 then [] else SocketsUsed(read, n - 1) + [FailuresBefore(read, n - 1)]
  }

  /**
   * Whether the n-th read ends the session: a failed read whose reconnection
   * fails, or a raw frame.
   */
  predicate Fatal(env: Environment, n: nat)
  {
    match env.read(n)
    case ReadFailed => !ConnectOk(env, 1 + FailuresBefore(env.read, n))
    case Received(frame) => frame.RawFrame?
  }

  /** The events logged for the text frames among the first `n` reads, in order. */
  function Dispatched(read: nat -> ReadResult, n: nat): (events: seq<AdvancedTradeEvent>)
    ensures |events| <= n
  {
    if n == 0 then []
    else
      var earlier := Dispatched(read, n - 1);
      match read(n - 1)
      case Received(Text(payload)) => earlier + [HandleMsg(payload).logged]
      case _ => earlier
  }

  /** Ping, Pong, Binary and Close frames neither end the session nor cause a reconnection nor log an event. */
  lemma {:induction false} ControlFramesAreHarmless(env: Environment, n: nat)
    requires forall i :: 0 <= i < n ==> env.read(i).Received? && env.read(i).frame in {Binary, Ping, Pong, Close}
    ensures FailuresBefore(env.read, n) == 0
    ensures Dispatched(env.read, n) == []
    ensures forall i :: 0 <= i < n ==> !Fatal(env, i)
  {
    if n > 0 {
      ControlFramesAreHarmless(env, n - 1);
    }
  }

  /** Each read adds at most one connection attempt: the reconnections number the failed reads. */
  lemma {:induction false} FailuresCountReconnections(read: nat -> ReadResult, m: nat, n: nat)
    requires m <= n
    ensures FailuresBefore(read, m) <= FailuresBefore(read, n) <= FailuresBefore(read, m) + (n - m)
  {
    if m < n {
      FailuresCountReconnections(read, m, n - 1);
    }
  }

  /** The indices of the failed reads among the first `n`. */
  function FailedReads(read: nat -> ReadResult, n: nat): set<nat>
  {
    set i: nat | i < n && read(i).ReadFailed?
  }

  /** `FailuresBefore` counts exactly the failed reads among the first `n`. */
  lemma {:induction false} FailuresBeforeCounts(read: nat -> ReadResult, n: nat)
    ensures FailuresBefore(read, n) == |FailedReads(read, n)|
  {
    if n == 0 {
      assert FailedReads(read, 0) == {};
    } else {
      FailuresBeforeCounts(read, n - 1);
      if read(n - 1).ReadFailed? {
        assert FailedReads(read, n) == FailedReads(read, n - 1) + {n - 1};
      } else {
        assert FailedReads(read, n) == FailedReads(read, n - 1);
      }
    }
  }

  /** The indices of the text frames among the first `n` reads. */
  function TextReads(read: nat -> ReadResult, n: nat): set<nat>
  {
    set i: nat | i < n && read(i).Received? && read(i).frame.Text?
  }

  /**
   * One event is logged per text frame among the first `n` reads, and each
   * logged event is the classification of one of those frames.
   */
  lemma {:induction false} DispatchedCounts(read: nat -> ReadResult, n: nat)
    ensures |Dispatched(read, n)| == |TextReads(read, n)|
    ensures forall k :: 0 <= k < |Dispatched(read, n)| ==>
              exists i :: i in TextReads(read, n) && Dispatched(read, n)[k] == HandleMsg(read(i).frame.payload).logged
  {
    if n == 0 {
      assert TextReads(read, 0) == {};
    } else {
      DispatchedCounts(read, n - 1);
      var earlier := Dispatched(read, n - 1);
      assert TextReads(read, n - 1) <= TextReads(read, n);
      if read(n - 1).Received? && read(n - 1).frame.Text? {
        assert TextReads(read, n) == TextReads(read, n - 1) + {n - 1};
        assert Dispatched(read, n) == earlier + [HandleMsg(read(n - 1).frame.payload).logged];
        forall k | 0 <= k < |Dispatched(read, n)|
          ensures exists i :: i in TextReads(read, n) && Dispatched(read, n)[k] == HandleMsg(read(i).frame.payload).logged
        {
          if k == |earlier| {
            assert n - 1 in TextReads(read, n);
          } else {
            assert Dispatched(read, n)[k] == earlier[k];
          }
        }
      } else {
        assert TextReads(read, n) == TextReads(read, n - 1);
        assert Dispatched(read, n) == earlier;
      }
    }
  }

  /** Later reads only append: the events logged so far stay, in their order. */
  lemma {:induction false} DispatchedGrows(read: nat -> ReadResult, m: nat, n: nat)
    requires m <= n
    ensures Dispatched(read, m) <= Dispatched(read, n)
  {
    if m < n {
      DispatchedGrows(read, m, n - 1);
    }
  }

  /* ---------------- The subscription loop ---------------- */

  /**
   * The socket and the clock as the k-th (channel, product) pair of the
   * subscription loop finds them: whether `can_write` holds, whether the
   * write succeeds, and the clock reading in whole seconds.
   */
  datatype Writer = Writer(canWrite: nat -> bool, writeOk: nat -> bool, clock: nat -> nat)

  /** What the loop did for one pair: sent a subscription (and whether the write succeeded), or skipped it. */
  datatype Attempt = Sent(message: Models.ChannelSubscriptionMessage, frame: Json, delivered: bool) | Skipped

  /** One channel with each product, in product order. */
  function ChannelPairs(channel: string, products: seq<string>): (pairs: seq<(string, string)>)
    ensures |pairs| == |products|
    ensures forall i :: 0 <= i < |products| ==> pairs[i] == (channel, products[i])
  {
    seq(|products|, i requires 0 <= i < |products| => (channel, products[i]))
  }

  /**
   * The (channel, product) pairs in the order the loop visits them: channels
   * popped from the end of the list, each with every product in list order.
   */
  function Pairs(channels: seq<string>, products: seq<string>): seq<(string, string)>
  {
    if channels == [] then []
    else ChannelPairs(channels[|channels| - 1], products) + Pairs(channels[..|channels| - 1], products)
  }

  /** The loop visits every channel with every product: |channels| * |products| pairs. */
  lemma {:induction false} PairsLength(channels: seq<string>, products: seq<string>)
    ensures |Pairs(channels, products)| == |channels| * |products|
  {
    if channels != [] {
      PairsLength(channels[..|channels| - 1], products);
    }
  }

  /** A pair is visited exactly when its channel is one of the channels and its product one of the products. */
  lemma {:induction false} PairsMembership(channels: seq<string>, products: seq<string>, channel: string, product: string)
    ensures (channel, product) in Pairs(channels, products) <==> channel in channels && product in products
  {
    if channels != [] {
      var init, last := channels[..|channels| - 1], channels[|channels| - 1];
      PairsMembership(init, products, channel, product);
      assert channels == init + [last];
      if (channel, product) in ChannelPairs(last, products) {
        var i :| 0 <= i < |products| && ChannelPairs(last, products)[i] == (channel, product);
      }
      if channel == last && product in products {
        var i :| 0 <= i < |products| && products[i] == product;
        assert ChannelPairs(last, products)[i] == (channel, product);
      }
    }
  }

  /** The channels visited after those of `done` are those of `pending`: popping works from the end. */
  lemma {:induction false} PairsAppend(pending: seq<string>, done: seq<string>, products: seq<string>)
    ensures Pairs(pending + done, products) == Pairs(done, products) + Pairs(pending, products)
  {
    if done == [] {
      assert pending + done == pending;
    } else {
      var all := pending + done;
      assert all[|all| - 1] == done[|done| - 1];
      assert all[..|all| - 1] == pending + done[..|done| - 1];
      PairsAppend(pending, done[..|done| - 1], products);
    }
  }

  /** Popping `channel` off the end visits it first. */
  lemma PairsPop(channels: seq<string>, channel: string, products: seq<string>)
    ensures Pairs(channels + [channel], products) == ChannelPairs(channel, products) + Pairs(channels, products)
  {
    assert (channels + [channel])[..|channels|] == channels;
  }

  lemma ChannelPairsStep(channel: string, products: seq<string>, i: nat)
    requires i < |products|
    ensures ChannelPairs(channel, products)[..i + 1] == ChannelPairs(channel, products)[..i] + [(channel, products[i])]
  {
  }

  lemma ConcatAssoc<T>(a: seq<T>, b: seq<T>, c: seq<T>)
    ensures (a + b) + c == a + (b + c)
  {
  }

  /** The channels still to visit: those left in the clone, then the current one. */
  function Pending(channelsClone: seq<string>, currentChannel: Option<string>): seq<string>
  {
    if currentChannel.Some? then channelsClone + [currentChannel.value] else channelsClone
  }

  /**
   * The attempt for the k-th pair: skipped when the socket cannot be
   * written; otherwise a "subscribe" message for that one channel and
   * product, stamped with the clock and signed, serialised and written.
   */
  function AttemptFor(key: string, secret: seq<Hex.byte>, mac: SigGen.Mac, w: Writer,
                      pair: (string, string), k: nat): Attempt
  {
    if !w.canWrite(k) then Skipped
    else
      var ts := Strings.NatToDecimal(w.clock(k));
      var message := Models.ChannelSubscriptionMessage(
        "subscribe", [pair.1], pair.0, key, ts, SigGen.CreateWsSignature(mac, ts, pair.0, [pair.1], secret));
      Sent(message, Models.EncodeChannelSubscription(message), w.writeOk(k))
  }

  /**
   * An attempt is skipped exactly when the socket cannot be written. A sent
   * message subscribes to one channel and one product with the session's
   * key; its timestamp reads back as the clock; its signature is the tag
   * over its own timestamp, channel and product, so the exchange can check
   * it; and the frame written decodes back to the message.
   */
  lemma AttemptForMeaning(key: string, secret: seq<Hex.byte>, mac: SigGen.Mac, w: Writer,
                          pair: (string, string), k: nat)
    ensures AttemptFor(key, secret, mac, w, pair, k).Skipped? <==> !w.canWrite(k)
    ensures var a := AttemptFor(key, secret, mac, w, pair, k);
            a.Sent? ==>
              && a.delivered == w.writeOk(k)
              && a.message.msgType == "subscribe" && a.message.productIds == [pair.1]
              && a.message.channel == pair.0 && a.message.apiKey == key
              && (forall i :: 0 <= i < |a.message.timestamp| ==> Strings.IsDigit(a.message.timestamp[i]))
              && Strings.DecimalValue(a.message.timestamp) == w.clock(k)
              && Hex.Decode(a.message.signature) == Some(mac(secret, a.message.timestamp + a.message.channel + pair.1))
              && Models.DecodeChannelSubscription(a.frame) == Some(a.message)
  {
    var a := AttemptFor(key, secret, mac, w, pair, k);
    if a.Sent? {
      Strings.DecimalRoundTrip(w.clock(k));
      SigGen.WsPreImageSingleProduct(a.message.timestamp, pair.0, pair.1);
      Models.ChannelSubscriptionRoundTrip(a.message);
    }
  }

  /** The attempts for a sequence of pairs, the k-th pair being the k-th attempt. */
  function Attempts(key: string, secret: seq<Hex.byte>, mac: SigGen.Mac, w: Writer,
                    pairs: seq<(string, string)>): (log: seq<Attempt>)
    ensures |log| == |pairs|
  {
    if pairs == [] then []
    else Attempts(key, secret, mac, w, pairs[..|pairs| - 1]) + [AttemptFor(key, secret, mac, w, pairs[|pairs| - 1], |pairs| - 1)]
  }

  /** There is one attempt per pair, the k-th being the attempt for the k-th pair. */
  lemma {:induction false} AttemptsMeaning(key: string, secret: seq<Hex.byte>, mac: SigGen.Mac, w: Writer,
                                           pairs: seq<(string, string)>)
    ensures |Attempts(key, secret, mac, w, pairs)| == |pairs|
    ensures forall k :: 0 <= k < |pairs| ==>
              Attempts(key, secret, mac, w, pairs)[k] == AttemptFor(key, secret, mac, w, pairs[k], k)
  {
    if pairs != [] {
      var init := pairs[..|pairs| - 1];
      var log := Attempts(key, secret, mac, w, pairs);
      var earlier := Attempts(key, secret, mac, w, init);
      AttemptsMeaning(key, secret, mac, w, init);
      assert log == earlier + [AttemptFor(key, secret, mac, w, pairs[|pairs| - 1], |pairs| - 1)];
      forall k | 0 <= k < |pairs|
        ensures log[k] == AttemptFor(key, secret, mac, w, pairs[k], k)
      {
        if k < |init| {
          assert log[k] == earlier[k] && init[k] == pairs[k];
        }
      }
    }
  }

  lemma AttemptsSnoc(key: string, secret: seq<Hex.byte>, mac: SigGen.Mac, w: Writer,
                     pairs: seq<(string, string)>, pair: (string, string))
    ensures Attempts(key, secret, mac, w, pairs + [pair]) ==
              Attempts(key, secret, mac, w, pairs) + [AttemptFor(key, secret, mac, w, pair, |pairs|)]
  {
    assert (pairs + [pair])[..|pairs|] == pairs;
  }

  /** `AdvancedTradeWebSockets`; the key and secret come from the configuration. */
  datatype AdvancedTradeWebSockets = AdvancedTradeWebSockets(
    exchange: string,
    channels: seq<string>,
    productIds: SubscribeProducts,
    client: AdvancedTradeRestClient,
    key: string,
    secret: seq<Hex.byte>)
  {
    /** What `new` establishes: the exchange name, and a REST client on the API host with the same credentials. */
    predicate Valid()
    {
      && exchange == Exchange
      && client == AdvancedTradeRestClient(Client(ApiHost), key, secret)
    }

    /** `connect`: hands the single WebSocket URL to `connect_wss`; the socket is the attempt's number. */
    method Connect(env: Environment, attempt: nat) returns (r: Result<nat, Error>)
      ensures r.Ok? <==> ConnectOk(env, attempt)
      ensures r.Ok? ==> r.value == attempt
      ensures r.Err? ==> r.error == Message("Unable to connect.")
    {
      var websocketUrls: seq<string> := [];
      websocketUrls := websocketUrls + [WebsocketUrl];
      assert websocketUrls == [WebsocketUrl];
      if env.connectWss(attempt, websocketUrls) {
        return Ok(attempt);
      }
      r := Err(Message("Unable to connect."));
    }

    /**
     * `event_loop`: connects, then reads while the running flag is true (the
     * reads are `ReadLoop`). When the flag turns false the socket is closed.
     * `readCount` counts the reads, `connectCount` the calls of `connect`, `closeCount`
     * the calls of `close`; `readSockets[i]` is the connection the i-th read
     * used and `events` the events `handle_msg` logged.
     */
    method EventLoop(env: Environment)
      returns (r: Result<(), LoopError>, readCount: nat, connectCount: nat, closeCount: nat,
               events: seq<AdvancedTradeEvent>, readSockets: seq<nat>)
      ensures !ConnectOk(env, 0) ==> r == Err(ConnectError) && readCount == 0 && connectCount == 1 && closeCount == 0
      ensures readCount <= env.stopAt
      ensures connectCount == 1 + FailuresBefore(env.read, readCount)
      ensures readSockets == SocketsUsed(env.read, readCount)
      ensures events == Dispatched(env.read, readCount)
      ensures forall i :: 0 <= i < readCount - 1 ==> !Fatal(env, i)
      ensures r == Err(ConnectError) && ConnectOk(env, 0) ==>
                readCount > 0 && env.read(readCount - 1).ReadFailed? && Fatal(env, readCount - 1)
      ensures r == Err(UnhandledFrame) ==> readCount > 0 && env.read(readCount - 1) == Received(RawFrame)
      ensures closeCount == 1 <==> ConnectOk(env, 0) && readCount == env.stopAt && forall i :: 0 <= i < readCount ==> !Fatal(env, i)
      ensures closeCount <= 1
      ensures closeCount == 1 ==> (r.Ok? <==> env.closeOk) && (r.Err? ==> r.error == CloseError)
      ensures r == Err(CloseError) ==> closeCount == 1
      ensures r.Ok? ==> closeCount == 1
    {
      readCount, connectCount, closeCount, events, readSockets := 0, 1, 0, [], [];
      var first := Connect(env, 0);
      if first.Err? {
        return Err(ConnectError), readCount, connectCount, closeCount, events, readSockets;
      }
      var stopped;
      stopped, readCount, connectCount, events, readSockets := ReadLoop(env, first.value);
      if stopped.Some? {
        return Err(stopped.value), readCount, connectCount, closeCount, events, readSockets;
      }
      closeCount := 1;
      if !env.closeOk {
        return Err(CloseError), readCount, connectCount, closeCount, events, readSockets;
      }
      r := Ok(());
    }

    /**
     * The read loop of `event_loop`, on the socket of the first connection:
     * a failed read reconnects (ending the session if that fails), a text
     * frame is handed to `handle_msg`, control frames are ignored and a raw
     * frame ends the session. `socket0` is the connection `event_loop`
     * opened first, numbered 0 as the first attempt. `stopped` is the error
     * that ended the loop, `None` when the running flag turned false.
     */
    method ReadLoop(env: Environment, socket0: nat)
      returns (stopped: Option<LoopError>, readCount: nat, connectCount: nat,
               events: seq<AdvancedTradeEvent>, readSockets: seq<nat>)
      requires socket0 == 0
      ensures readCount <= env.stopAt
      ensures connectCount == 1 + FailuresBefore(env.read, readCount)
      ensures readSockets == SocketsUsed(env.read, readCount)
      ensures events == Dispatched(env.read, readCount)
      ensures forall i :: 0 <= i < readCount - 1 ==> !Fatal(env, i)
      ensures stopped.None? <==> readCount == env.stopAt && forall i :: 0 <= i < readCount ==> !Fatal(env, i)
      ensures stopped == Some(ConnectError) ==> readCount > 0 && env.read(readCount - 1).ReadFailed? && Fatal(env, readCount - 1)
      ensures stopped == Some(UnhandledFrame) ==> readCount > 0 && env.read(readCount - 1) == Received(RawFrame)
      ensures stopped != Some(CloseError)
    {
      readCount, connectCount, events, readSockets := 0, 1, [], [];
      var socket := socket0;
      while readCount < env.stopAt
        invariant readCount <= env.stopAt
        invariant connectCount == 1 + FailuresBefore(env.read, readCount)
        invariant socket == connectCount - 1
        invariant readSockets == SocketsUsed(env.read, readCount)
        invariant events == Dispatched(env.read, readCount)
        invariant forall i :: 0 <= i < readCount ==> !Fatal(env, i)
      {
        var n := readCount;
        readSockets := readSockets + [socket];
        readCount := n + 1;
        var stop;
        stop, connectCount, socket, events := ReadOnce(env, n, connectCount, socket, events);
        if stop.Some? {
          return stop, readCount, connectCount, events, readSockets;
        }
      }
      stopped := None;
    }

    /**
     * One turn of the read loop: the n-th read on `socket`, with its
     * reconnection or its `handle_msg`. `stop` is the error that ends the
     * session, `None` when the loop goes on.
     */
    method ReadOnce(env: Environment, n: nat, connectCount: nat, socket: nat, events: seq<AdvancedTradeEvent>)
      returns (stop: Option<LoopError>, connectCount': nat, socket': nat, events': seq<AdvancedTradeEvent>)
      requires connectCount == 1 + FailuresBefore(env.read, n) && socket == connectCount - 1
      requires events == Dispatched(env.read, n)
      ensures connectCount' == 1 + FailuresBefore(env.read, n + 1)
      ensures events' == Dispatched(env.read, n + 1)
      ensures stop.None? <==> !Fatal(env, n)
      ensures stop.None? ==> socket' == connectCount' - 1
      ensures stop != Some(CloseError)
      ensures stop == Some(ConnectError) ==> env.read(n).ReadFailed?
      ensures stop == Some(UnhandledFrame) ==> env.read(n) == Received(RawFrame)
    {
      stop, connectCount', socket', events' := None, connectCount, socket, events;
      var message := env.read(n);
      match message {
        case ReadFailed =>
          var again := Connect(env, connectCount);
          connectCount' := connectCount + 1;
          if again.Err? {
            return Some(ConnectError), connectCount', socket', events';
          }
          socket' := again.value;
        case Received(frame) =>
          match frame {
            case Text(payload) =>
              var handled := HandleMsg(payload);
              events' := events + [handled.logged];
            case Binary | Ping | Pong | Close =>
            case RawFrame =>
              return Some(UnhandledFrame), connectCount', socket', events';
          }
      }
    }

    /** `run`: runs the session loop and returns `Ok` however the loop ends. */
    method Run(env: Environment) returns (r: Result<(), Error>)
      ensures r == Ok(())
    {
      var loopResult, readCount, connectCount, closeCount, events, readSockets := EventLoop(env);
      r := Ok(());
    }

    /**
     * The products `subscribe_to_channel` subscribes: the configured ones,
     * or the exchange's symbols; the source unwraps the symbol request, so
     * a failed catalog request panics.
     */
    method SubscriptionProducts(mac: SigGen.Mac, catalogClock: nat, transport: Option<Response>)
      returns (panicked: bool, products: seq<string>)
      requires Valid()
      requires productIds.All? ==> ValidHeaderValue(key)
      ensures productIds.Custom? ==> !panicked && products == productIds.products
      ensures productIds.All? ==>
                (panicked <==> !(transport.Some? && transport.value.status == OK && transport.value.body.Some? &&
                                 Models.DecodeProducts(transport.value.body.value).Some?))
      ensures productIds.All? && !panicked ==>
                |products| == |Models.DecodeProducts(transport.value.body.value).value.products| &&
                forall i :: 0 <= i < |products| ==>
                  products[i] == Models.DecodeProducts(transport.value.body.value).value.products[i].productId
    {
      match productIds {
        case All =>
          ProductsRequestOfApiHost();
          var sent, symbols := client.GetAvailableSymbols(mac, catalogClock, transport);
          if symbols.Err? {
            return true, [];
          }
          products := symbols.value;
        case Custom(ps) =>
          products := ps;
      }
      panicked := false;
    }

    /**
     * The inner loop of `subscribe_to_channel`: one attempt per product for
     * `channel`, appended to the attempts made so far for the pairs `visited`.
     */
    method SubscribeChannel(mac: SigGen.Mac, w: Writer, channel: string, products: seq<string>,
                            log: seq<Attempt>, ghost visited: seq<(string, string)>)
      returns (log': seq<Attempt>)
      requires log == Attempts(key, secret, mac, w, visited)
      ensures log' == Attempts(key, secret, mac, w, visited + ChannelPairs(channel, products))
    {
      log' := log;
      assert visited + ChannelPairs(channel, products)[..0] == visited;
      for i := 0 to |products|
        invariant log' == Attempts(key, secret, mac, w, visited + ChannelPairs(channel, products)[..i])
      {
        ghost var done := visited + ChannelPairs(channel, products)[..i];
        var k := |log'|;
        var product := products[i];
        var attempt: Attempt;
        if w.canWrite(k) {
          var currentTs := Strings.NatToDecimal(w.clock(k));
          var msg := Models.ChannelSubscriptionMessage(
            "subscribe", [product], channel, key, currentTs,
            SigGen.CreateWsSignature(mac, currentTs, channel, [product], secret));
          var json := Models.EncodeChannelSubscription(msg);
          attempt := Sent(msg, json, w.writeOk(k));
        } else {
          attempt := Skipped;
        }
        assert attempt == AttemptFor(key, secret, mac, w, (channel, product), k);
        AttemptsSnoc(key, secret, mac, w, done, (channel, product));
        ChannelPairsStep(channel, products, i);
        ConcatAssoc(visited, ChannelPairs(channel, products)[..i], [(channel, product)]);
        log' := log' + [attempt];
      }
      assert ChannelPairs(channel, products)[..|products|] == ChannelPairs(channel, products);
    }

    /**
     * The outer loop of `subscribe_to_channel`: pops channels from a copy of
     * the channel list and subscribes each for every product; the attempts
     * are those for `Pairs(channels, products)`, in that order.
     */
    method SubscribeChannels(mac: SigGen.Mac, w: Writer, products: seq<string>) returns (log: seq<Attempt>)
      ensures log == Attempts(key, secret, mac, w, Pairs(channels, products))
    {
      log := [];
      var channelsClone := channels;
      var currentChannel: Option<string> := None;
      if |channelsClone| > 0 {
        currentChannel := Some(channelsClone[|channelsClone| - 1]);
        channelsClone := channelsClone[..|channelsClone| - 1];
      }
      assert Pending(channelsClone, currentChannel) == channels;
      ghost var visited: seq<(string, string)> := [];
      while currentChannel.Some?
        invariant currentChannel.None? ==> channelsClone == []
        invariant visited + Pairs(Pending(channelsClone, currentChannel), products) == Pairs(channels, products)
        invariant log == Attempts(key, secret, mac, w, visited)
        decreases |Pending(channelsClone, currentChannel)|
      {
        var channel := currentChannel.value;
        log := SubscribeChannel(mac, w, channel, products, log, visited);
        PairsPop(channelsClone, channel, products);
        ConcatAssoc(visited, ChannelPairs(channel, products), Pairs(channelsClone, products));
        visited := visited + ChannelPairs(channel, products);
        if |channelsClone| > 0 {
          assert channelsClone[..|channelsClone| - 1] + [channelsClone[|channelsClone| - 1]] == channelsClone;
          currentChannel := Some(channelsClone[|channelsClone| - 1]);
          channelsClone := channelsClone[..|channelsClone| - 1];
        } else {
          currentChannel := None;
        }
      }
      assert visited == Pairs(channels, products);
    }

    /**
     * `subscribe_to_channel`: chooses the products, then makes one attempt
     * per (channel, product) pair in the order of `Pairs`.
     */
    method SubscribeToChannel(mac: SigGen.Mac, w: Writer, catalogClock: nat, transport: Option<Response>)
      returns (panicked: bool, products: seq<string>, log: seq<Attempt>)
      requires Valid()
      requires productIds.All? ==> ValidHeaderValue(key)
      ensures productIds.Custom? ==> !panicked && products == productIds.products
      ensures productIds.All? ==>
                (panicked <==> !(transport.Some? && transport.value.status == OK && transport.value.body.Some? &&
                                 Models.DecodeProducts(transport.value.body.value).Some?))
      ensures productIds.All? && !panicked ==>
                |products| == |Models.DecodeProducts(transport.value.body.value).value.products| &&
                forall i :: 0 <= i < |products| ==>
                  products[i] == Models.DecodeProducts(transport.value.body.value).value.products[i].productId
      ensures panicked ==> log == []
      ensures !panicked ==> log == Attempts(key, secret, mac, w, Pairs(channels, products))
    {
      log := [];
      panicked, products := SubscriptionProducts(mac, catalogClock, transport);
      if !panicked {
        log := SubscribeChannels(mac, w, products);
      }
    }
  }

  /** `new`: the session for the given channels and products, with the configured credentials. */
  function New(channels: seq<string>, productIds: SubscribeProducts, key: string, secret: seq<Hex.byte>)
    : (s: AdvancedTradeWebSockets)
    ensures s.Valid() && s.channels == channels && s.productIds == productIds
    ensures s.key == key && s.secret == secret
    ensures Strings.Find(s.client.client.host, ".com").Some?
  {
    ProductsRequestOfApiHost();
    AdvancedTradeWebSockets(Exchange, channels, productIds,
                            AdvancedTradeRestClient(Client(ApiHost), key, secret), key, secret)
  }
}
