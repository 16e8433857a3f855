/**
 * The record types of src/models.rs and their derived serde decoders.
 * `WebsocketEvent` is `#[serde(untagged)]`: its variants are tried in
 * declaration order and the first that decodes wins; the unit variant
 * matches JSON `null` only.
 */
module Models {
  import opened Wrappers
  import opened Json

  /* ---------------- REST records ---------------- */

  /** A REST call description: endpoint, HTTP method and optional query string. */
  datatype RestEndpoint = RestEndpoint(endpointUrl: string, httpMethod: string, resource: Option<string>)

  datatype ProductData = ProductData(
    productId: string,
    productType: string,
    baseCurrencyId: string,
    baseIncrement: string,
    baseMaxSize: string,
    baseMinSize: string,
    quoteCurrencyId: string,
    quoteIncrement: string,
    quoteMaxSize: string,
    quoteMinSize: string,
    status: string,
    tradingDisabled: bool)

  /** The product catalog; `numProducts` is an `i64`. */
  datatype Products = Products(numProducts: int, products: seq<ProductData>)

  const ProductDataFields: seq<string> :=
    ["product_id", "product_type", "base_currency_id", "base_increment", "base_max_size",
     "base_min_size", "quote_currency_id", "quote_increment", "quote_max_size",
     "quote_min_size", "status", "trading_disabled"]

  const ProductsFields: seq<string> := ["num_products", "products"]

  function DecodeProductData(j: Json): (r: Option<ProductData>)
    ensures r.Some? <==> StructFields(j, ProductDataFields).Some? &&
                         DecodeAll(StructFields(j, ProductDataFields).value[..11], AsString).Some? &&
                         StructFields(j, ProductDataFields).value[11].JBool?
    ensures r.Some? ==>
              var p := r.value;
              StructFields(j, ProductDataFields).value ==
                [JString(p.productId), JString(p.productType), JString(p.baseCurrencyId), JString(p.baseIncrement),
                 JString(p.baseMaxSize), JString(p.baseMinSize), JString(p.quoteCurrencyId), JString(p.quoteIncrement),
                 JString(p.quoteMaxSize), JString(p.quoteMinSize), JString(p.status), JBool(p.tradingDisabled)]
  {
    match StructFields(j, ProductDataFields)
    case None => None
    case Some(v) =>
      match DecodeAll(v[..11], AsString)
      case None => None
      case Some(s) =>
        if !v[11].JBool? then None
        else Some(ProductData(s[0], s[1], s[2], s[3], s[4], s[5], s[6], s[7], s[8], s[9], s[10], v[11].b))
  }

  function DecodeProducts(j: Json): (r: Option<Products>)
    ensures r.Some? ==> I64_MIN <= r.value.numProducts < I64_LIMIT
    ensures r.Some? <==> StructFields(j, ProductsFields).Some? &&
                         AsI64(StructFields(j, ProductsFields).value[0]).Some? &&
                         AsVec(StructFields(j, ProductsFields).value[1], DecodeProductData).Some?
    ensures r.Some? ==> StructFields(j, ProductsFields).value[0] == JNumber(r.value.numProducts) &&
                        AsVec(StructFields(j, ProductsFields).value[1], DecodeProductData) == Some(r.value.products)
  {
    match StructFields(j, ProductsFields)
    case None => None
    case Some(v) =>
      match (AsI64(v[0]), AsVec(v[1], DecodeProductData))
      case (Some(n), Some(ps)) => Some(Products(n, ps))
      case _ => None
  }

  /* ---------------- WebSocket records ---------------- */

  datatype SnapshotTicker = SnapshotTicker(
    msgType: string,
    productId: string,
    price: string,
    volume24h: string,
    low24h: string,
    high24h: string,
    low52w: string,
    high52w: string,
    pricePercentChg24h: string)

  datatype SnapshotMessage = SnapshotMessage(msgType: string, tickers: seq<SnapshotTicker>)

  /** Declared with exactly the fields of `SnapshotMessage`, tickers included. */
  datatype UpdateMessage = UpdateMessage(msgType: string, tickers: seq<SnapshotTicker>)

  datatype Subscriptions = Subscriptions(ticker: seq<string>)

  datatype SubscriptionMessage = SubscriptionMessage(subscriptions: Subscriptions)

  /** An element of an envelope's `events`; `Unknown` is spelled `Unkown` in the source. */
  datatype WebsocketEvent =
    | SnapshotEvent(snapshot: SnapshotMessage)
    | UpdateEvent(update: UpdateMessage)
    | SubscriptionEvent(subscription: SubscriptionMessage)
    | Unknown

  /** The envelope of every stream message; `sequenceNum` is a `u64`. */
  datatype GenericMessage = GenericMessage(
    channel: string,
    clientId: string,
    timestamp: string,
    sequenceNum: nat,
    events: seq<WebsocketEvent>)

  /** `ErrorMesage` in the source; the JSON key `type` holds `msgType`. */
  datatype ErrorMessage = ErrorMessage(msgType: string, message: string)

  datatype ChannelSubscriptionMessage = ChannelSubscriptionMessage(
    msgType: string,
    productIds: seq<string>,
    channel: string,
    apiKey: string,
    timestamp: string,
    signature: string)

  const SnapshotTickerFields: seq<string> :=
    ["type", "product_id", "price", "volume_24_h", "low_24_h", "high_24_h",
     "low_52_w", "high_52_w", "price_percent_chg_24_h"]

  const TickerMessageFields: seq<string> := ["type", "tickers"]

  const GenericMessageFields: seq<string> :=
    ["channel", "client_id", "timestamp", "sequence_num", "events"]

  const ErrorMessageFields: seq<string> := ["type", "message"]

  const ChannelSubscriptionFields: seq<string> :=
    ["type", "product_ids", "channel", "api_key", "timestamp", "signature"]

  function DecodeSnapshotTicker(j: Json): (r: Option<SnapshotTicker>)
    ensures r.Some? <==> StructFields(j, SnapshotTickerFields).Some? &&
                         DecodeAll(StructFields(j, SnapshotTickerFields).value, AsString).Some?
    ensures r.Some? ==>
              var t := r.value;
              StructFields(j, SnapshotTickerFields).value ==
                [JString(t.msgType), JString(t.productId), JString(t.price), JString(t.volume24h), JString(t.low24h),
                 JString(t.high24h), JString(t.low52w), JString(t.high52w), JString(t.pricePercentChg24h)]
  {
    match StructFields(j, SnapshotTickerFields)
    case None => None
    case Some(v) =>
      match DecodeAll(v, AsString)
      case None => None
      case Some(s) => Some(SnapshotTicker(s[0], s[1], s[2], s[3], s[4], s[5], s[6], s[7], s[8]))
  }

  /** A snapshot: a string `type` and an array of tickers, each decoding as a `SnapshotTicker`. */
  function DecodeSnapshotMessage(j: Json): (r: Option<SnapshotMessage>)
    ensures r.Some? <==> StructFields(j, TickerMessageFields).Some? &&
                         StructFields(j, TickerMessageFields).value[0].JString? &&
                         AsVec(StructFields(j, TickerMessageFields).value[1], DecodeSnapshotTicker).Some?
    ensures r.Some? ==> StructFields(j, TickerMessageFields).value[0] == JString(r.value.msgType) &&
                        AsVec(StructFields(j, TickerMessageFields).value[1], DecodeSnapshotTicker) == Some(r.value.tickers)
  {
    match StructFields(j, TickerMessageFields)
    case None => None
    case Some(v) =>
      match (AsString(v[0]), AsVec(v[1], DecodeSnapshotTicker))
      case (Some(t), Some(ts)) => Some(SnapshotMessage(t, ts))
      case _ => None
  }

  /** An update: declared with the snapshot's fields, so it reads the same members the same way. */
  function DecodeUpdateMessage(j: Json): (r: Option<UpdateMessage>)
    ensures r.Some? <==> StructFields(j, TickerMessageFields).Some? &&
                         StructFields(j, TickerMessageFields).value[0].JString? &&
                         AsVec(StructFields(j, TickerMessageFields).value[1], DecodeSnapshotTicker).Some?
    ensures r.Some? ==> StructFields(j, TickerMessageFields).value[0] == JString(r.value.msgType) &&
                        AsVec(StructFields(j, TickerMessageFields).value[1], DecodeSnapshotTicker) == Some(r.value.tickers)
  {
    match StructFields(j, TickerMessageFields)
    case None => None
    case Some(v) =>
      match (AsString(v[0]), AsVec(v[1], DecodeSnapshotTicker))
      case (Some(t), Some(ts)) => Some(UpdateMessage(t, ts))
      case _ => None
  }

  /** The `subscriptions` record: a `ticker` array of strings. */
  function DecodeSubscriptions(j: Json): (r: Option<Subscriptions>)
    ensures r.Some? <==> StructFields(j, ["ticker"]).Some? && AsVec(StructFields(j, ["ticker"]).value[0], AsString).Some?
    ensures r.Some? ==> AsVec(StructFields(j, ["ticker"]).value[0], AsString) == Some(r.value.ticker)
  {
    match StructFields(j, ["ticker"])
    case None => None
    case Some(v) =>
      match AsVec(v[0], AsString)
      case Some(ts) => Some(Subscriptions(ts))
      case None => None
  }

  /** A subscription acknowledgement: one `subscriptions` member holding a `Subscriptions` record. */
  function DecodeSubscriptionMessage(j: Json): (r: Option<SubscriptionMessage>)
    ensures r.Some? <==> StructFields(j, ["subscriptions"]).Some? &&
                         DecodeSubscriptions(StructFields(j, ["subscriptions"]).value[0]).Some?
    ensures r.Some? ==> DecodeSubscriptions(StructFields(j, ["subscriptions"]).value[0]) == Some(r.value.subscriptions)
  {
    match StructFields(j, ["subscriptions"])
    case None => None
    case Some(v) =>
      match DecodeSubscriptions(v[0])
      case Some(s) => Some(SubscriptionMessage(s))
      case None => None
  }

  /** An object decodes as a given snapshot exactly when `type` is its type and `tickers` decodes as its tickers. */
  lemma SnapshotMessageObjectForm(ms: seq<(string, Json)>, m: SnapshotMessage)
    ensures DecodeSnapshotMessage(JObject(ms)) == Some(m) <==>
              Lookup(ms, "type") == Unique(JString(m.msgType)) && Lookup(ms, "tickers").Unique? &&
              AsVec(Lookup(ms, "tickers").value, DecodeSnapshotTicker) == Some(m.tickers)
  {
    if Lookup(ms, "type") == Unique(JString(m.msgType)) && Lookup(ms, "tickers").Unique? {
      ObjectFieldsFound(ms, TickerMessageFields, [JString(m.msgType), Lookup(ms, "tickers").value]);
    }
    if DecodeSnapshotMessage(JObject(ms)) == Some(m) {
      var v := ObjectFields(ms, TickerMessageFields).value;
      assert Lookup(ms, TickerMessageFields[0]) == Unique(v[0]);
      assert Lookup(ms, TickerMessageFields[1]) == Unique(v[1]);
    }
  }

  /** An object decodes as a given `Subscriptions` record exactly when its one `ticker` member is that list of strings. */
  lemma SubscriptionsObjectForm(ms: seq<(string, Json)>, ts: seq<string>)
    ensures DecodeSubscriptions(JObject(ms)) == Some(Subscriptions(ts)) <==>
              Lookup(ms, "ticker").Unique? && AsVec(Lookup(ms, "ticker").value, AsString) == Some(ts)
  {
    if Lookup(ms, "ticker").Unique? {
      ObjectFieldsFound(ms, ["ticker"], [Lookup(ms, "ticker").value]);
    } else {
      ObjectFieldsMissing(ms, ["ticker"], 0);
    }
  }

  /** An object is a subscription acknowledgement exactly when its one `subscriptions` member decodes as the record. */
  lemma SubscriptionMessageObjectForm(ms: seq<(string, Json)>, sub: Subscriptions)
    ensures DecodeSubscriptionMessage(JObject(ms)) == Some(SubscriptionMessage(sub)) <==>
              Lookup(ms, "subscriptions").Unique? && DecodeSubscriptions(Lookup(ms, "subscriptions").value) == Some(sub)
  {
    if Lookup(ms, "subscriptions").Unique? {
      ObjectFieldsFound(ms, ["subscriptions"], [Lookup(ms, "subscriptions").value]);
    } else {
      ObjectFieldsMissing(ms, ["subscriptions"], 0);
    }
  }

  /**
   * Untagged `WebsocketEvent` as written: Snapshot, Update, Subscription,
   * then the unit variant. Because the Update shape equals the Snapshot
   * shape, the effective classification never yields `UpdateEvent`.
   */
  function DecodeWebsocketEvent(j: Json): (r: Option<WebsocketEvent>)
    ensures (r.Some? && r.value.SnapshotEvent?) <==> DecodeSnapshotMessage(j).Some?
    ensures r.Some? && r.value.SnapshotEvent? ==> r.value.snapshot == DecodeSnapshotMessage(j).value
    ensures !(r.Some? && r.value.UpdateEvent?)
    ensures (r.Some? && r.value.SubscriptionEvent?) <==>
              DecodeSnapshotMessage(j).None? && DecodeSubscriptionMessage(j).Some?
    ensures r.Some? && r.value.SubscriptionEvent? ==> r.value.subscription == DecodeSubscriptionMessage(j).value
    ensures (r.Some? && r.value.Unknown?) <==> j.JNull?
    ensures r.None? <==> !j.JNull? && DecodeSnapshotMessage(j).None? && DecodeSubscriptionMessage(j).None?
  {
    UpdateShapeIsSnapshotShape(j);
    match DecodeSnapshotMessage(j)
    case Some(m) => Some(SnapshotEvent(m))
    case None =>
      match DecodeUpdateMessage(j)
      case Some(m) => Some(UpdateEvent(m))
      case None =>
        match DecodeSubscriptionMessage(j)
        case Some(m) => Some(SubscriptionEvent(m))
        case None => if j.JNull? then Some(Unknown) else None
  }

  /** Any value accepted as an `UpdateMessage` is accepted, with the same fields, as a `SnapshotMessage`. */
  lemma UpdateShapeIsSnapshotShape(j: Json)
    ensures DecodeUpdateMessage(j).Some? <==> DecodeSnapshotMessage(j).Some?
    ensures DecodeUpdateMessage(j).Some? ==>
              DecodeUpdateMessage(j).value.msgType == DecodeSnapshotMessage(j).value.msgType &&
              DecodeUpdateMessage(j).value.tickers == DecodeSnapshotMessage(j).value.tickers
  {
  }

  /** An `UpdateEvent` is never produced, whatever the input. */
  lemma UpdateEventUnreachable(j: Json, m: UpdateMessage)
    ensures DecodeWebsocketEvent(j) != Some(UpdateEvent(m))
  {
  }

  /** The Coinbase update payload `{"type": "update", "tickers": []}` is classified as a snapshot. */
  lemma UpdatePayloadReadAsSnapshot()
    ensures DecodeWebsocketEvent(JObject([("type", JString("update")), ("tickers", JArray([]))]))
            == Some(SnapshotEvent(SnapshotMessage("update", [])))
  {
    var ms := [("type", JString("update")), ("tickers", JArray([]))];
    LookupUnique(ms, "type", 0);
    LookupUnique(ms, "tickers", 1);
    ObjectFieldsFound(ms, TickerMessageFields, [JString("update"), JArray([])]);
  }

  /**
   * The evident intent: a payload of the shared ticker shape whose `type` is
   * "update" is an `UpdateEvent`; everything else is classified as before.
   */
  function DecodeWebsocketEventByType(j: Json): (r: Option<WebsocketEvent>)
    ensures (r.Some? && r.value.SnapshotEvent?) <==>
              DecodeSnapshotMessage(j).Some? && DecodeSnapshotMessage(j).value.msgType != "update"
    ensures r.Some? && r.value.SnapshotEvent? ==> r.value.snapshot == DecodeSnapshotMessage(j).value
    ensures (r.Some? && r.value.UpdateEvent?) <==>
              DecodeUpdateMessage(j).Some? && DecodeUpdateMessage(j).value.msgType == "update"
    ensures r.Some? && r.value.UpdateEvent? ==> r.value.update == DecodeUpdateMessage(j).value
    ensures (r.Some? && r.value.SubscriptionEvent?) <==>
              DecodeSnapshotMessage(j).None? && DecodeSubscriptionMessage(j).Some?
    ensures r.Some? && r.value.SubscriptionEvent? ==> r.value.subscription == DecodeSubscriptionMessage(j).value
    ensures (r.Some? && r.value.Unknown?) <==> j.JNull?
  {
    UpdateShapeIsSnapshotShape(j);
    var snapshot := DecodeSnapshotMessage(j);
    if snapshot.Some? && snapshot.value.msgType != "update" then Some(SnapshotEvent(snapshot.value))
    else
      match DecodeUpdateMessage(j)
      case Some(m) => Some(UpdateEvent(m))
      case None =>
        match DecodeSubscriptionMessage(j)
        case Some(m) => Some(SubscriptionEvent(m))
        case None => if j.JNull? then Some(Unknown) else None
  }

  /**
   * With the tie broken by `type`, every update payload becomes an
   * `UpdateEvent`; the accepted inputs are exactly those of the decoder as
   * written, and every other input is classified as before.
   */
  lemma UpdateEventReachableByType(j: Json)
    ensures DecodeUpdateMessage(j).Some? && DecodeUpdateMessage(j).value.msgType == "update" ==>
              DecodeWebsocketEventByType(j) == Some(UpdateEvent(DecodeUpdateMessage(j).value))
    ensures DecodeWebsocketEventByType(j).Some? <==> DecodeWebsocketEvent(j).Some?
    ensures !(DecodeSnapshotMessage(j).Some? && DecodeSnapshotMessage(j).value.msgType == "update") ==>
              DecodeWebsocketEventByType(j) == DecodeWebsocketEvent(j)
  {
    UpdateShapeIsSnapshotShape(j);
  }

  /**
   * The stream envelope. Its events are classified by the corrected
   * `DecodeWebsocketEventByType`, which accepts exactly the events the
   * decoder as written accepts.
   */
  function DecodeGenericMessage(j: Json): (r: Option<GenericMessage>)
    ensures r.Some? ==> r.value.sequenceNum < U64_LIMIT
    ensures r.Some? ==> StructFields(j, GenericMessageFields).Some?
    ensures r.Some? ==>
              var v := StructFields(j, GenericMessageFields).value;
              && v[0] == JString(r.value.channel) && v[1] == JString(r.value.clientId)
              && v[2] == JString(r.value.timestamp) && v[3] == JNumber(r.value.sequenceNum)
              && v[4].JArray? && |v[4].items| == |r.value.events|
              && forall i :: 0 <= i < |r.value.events| ==> DecodeWebsocketEventByType(v[4].items[i]) == Some(r.value.events[i])
  {
    match StructFields(j, GenericMessageFields)
    case None => None
    case Some(v) =>
      match (AsString(v[0]), AsString(v[1]), AsString(v[2]), AsU64(v[3]), AsVec(v[4], DecodeWebsocketEventByType))
      case (Some(c), Some(id), Some(ts), Some(n), Some(es)) => Some(GenericMessage(c, id, ts, n, es))
      case _ => None
  }

  /**
   * An object decodes as a `GenericMessage` exactly when `channel`,
   * `client_id` and `timestamp` are strings, `sequence_num` is an integer in
   * the `u64` range and `events` is an array whose every element decodes as
   * a `WebsocketEvent` — so one unrecognised event rejects the whole envelope.
   * The decoded envelope carries those members' values, and its i-th event
   * is the classification of the i-th element of `events`.
   */
  lemma GenericMessageObjectForm(ms: seq<(string, Json)>)
    ensures DecodeGenericMessage(JObject(ms)).Some? <==>
              && Lookup(ms, "channel").Unique? && Lookup(ms, "channel").value.JString?
              && Lookup(ms, "client_id").Unique? && Lookup(ms, "client_id").value.JString?
              && Lookup(ms, "timestamp").Unique? && Lookup(ms, "timestamp").value.JString?
              && Lookup(ms, "sequence_num").Unique? && Lookup(ms, "sequence_num").value.JNumber?
              && 0 <= Lookup(ms, "sequence_num").value.n < U64_LIMIT
              && Lookup(ms, "events").Unique? && Lookup(ms, "events").value.JArray?
              && forall i :: 0 <= i < |Lookup(ms, "events").value.items| ==>
                   DecodeWebsocketEventByType(Lookup(ms, "events").value.items[i]).Some?
    ensures DecodeGenericMessage(JObject(ms)).Some? ==>
              var g := DecodeGenericMessage(JObject(ms)).value;
              && Lookup(ms, "channel") == Unique(JString(g.channel))
              && Lookup(ms, "client_id") == Unique(JString(g.clientId))
              && Lookup(ms, "timestamp") == Unique(JString(g.timestamp))
              && Lookup(ms, "sequence_num") == Unique(JNumber(g.sequenceNum))
              && Lookup(ms, "events").Unique? && |Lookup(ms, "events").value.items| == |g.events|
              && forall i :: 0 <= i < |g.events| ==>
                   DecodeWebsocketEventByType(Lookup(ms, "events").value.items[i]) == Some(g.events[i])
  {
    GenericFieldsObjectForm(ms);
  }

  lemma GenericFieldsObjectForm(ms: seq<(string, Json)>)
    ensures StructFields(JObject(ms), GenericMessageFields) ==
              if && Lookup(ms, "channel").Unique? && Lookup(ms, "client_id").Unique?
                 && Lookup(ms, "timestamp").Unique? && Lookup(ms, "sequence_num").Unique?
                 && Lookup(ms, "events").Unique?
              then Some([Lookup(ms, "channel").value, Lookup(ms, "client_id").value, Lookup(ms, "timestamp").value,
                         Lookup(ms, "sequence_num").value, Lookup(ms, "events").value])
              else None
  {
    var names := GenericMessageFields;
    if !Lookup(ms, "channel").Unique? {
      ObjectFieldsMissing(ms, names, 0);
    } else if !Lookup(ms, "client_id").Unique? {
      ObjectFieldsMissing(ms, names, 1);
    } else if !Lookup(ms, "timestamp").Unique? {
      ObjectFieldsMissing(ms, names, 2);
    } else if !Lookup(ms, "sequence_num").Unique? {
      ObjectFieldsMissing(ms, names, 3);
    } else if !Lookup(ms, "events").Unique? {
      ObjectFieldsMissing(ms, names, 4);
    } else {
      ObjectFieldsFound(ms, names, [Lookup(ms, "channel").value, Lookup(ms, "client_id").value,
                                    Lookup(ms, "timestamp").value, Lookup(ms, "sequence_num").value,
                                    Lookup(ms, "events").value]);
    }
  }

  /** An error message: string members `type` and `message`. */
  function DecodeErrorMessage(j: Json): (r: Option<ErrorMessage>)
    ensures r.Some? <==> StructFields(j, ErrorMessageFields).Some? &&
                         StructFields(j, ErrorMessageFields).value[0].JString? &&
                         StructFields(j, ErrorMessageFields).value[1].JString?
    ensures r.Some? ==> StructFields(j, ErrorMessageFields).value == [JString(r.value.msgType), JString(r.value.message)]
  {
    match StructFields(j, ErrorMessageFields)
    case None => None
    case Some(v) =>
      match (AsString(v[0]), AsString(v[1]))
      case (Some(t), Some(m)) => Some(ErrorMessage(t, m))
      case _ => None
  }

  /** An object decodes as an error message exactly when it has string members `type` and `message`. */
  lemma ErrorMessageObjectForm(ms: seq<(string, Json)>, t: string, m: string)
    ensures DecodeErrorMessage(JObject(ms)) == Some(ErrorMessage(t, m)) <==>
              Lookup(ms, "type") == Unique(JString(t)) && Lookup(ms, "message") == Unique(JString(m))
  {
    if Lookup(ms, "type") == Unique(JString(t)) && Lookup(ms, "message") == Unique(JString(m)) {
      ObjectFieldsFound(ms, ErrorMessageFields, [JString(t), JString(m)]);
    }
    if DecodeErrorMessage(JObject(ms)) == Some(ErrorMessage(t, m)) {
      var v := ObjectFields(ms, ErrorMessageFields).value;
      assert Lookup(ms, ErrorMessageFields[0]) == Unique(v[0]);
      assert Lookup(ms, ErrorMessageFields[1]) == Unique(v[1]);
    }
  }

  /** `serde_json::to_value` of a subscription message: members in declaration order. */
  function EncodeChannelSubscription(m: ChannelSubscriptionMessage): (j: Json)
    ensures j.JObject? && Keys(j.members) == ChannelSubscriptionFields
  {
    JObject([
      ("type", JString(m.msgType)),
      ("product_ids", EncodeStrings(m.productIds)),
      ("channel", JString(m.channel)),
      ("api_key", JString(m.apiKey)),
      ("timestamp", JString(m.timestamp)),
      ("signature", JString(m.signature))])
  }

  /** A `Vec<String>` as a JSON array of strings. */
  function EncodeStrings(ss: seq<string>): (j: Json)
    ensures j.JArray? && |j.items| == |ss|
    ensures forall i :: 0 <= i < |ss| ==> j.items[i] == JString(ss[i])
  {
    JArray(seq(|ss|, i requires 0 <= i < |ss| => JString(ss[i])))
  }

  lemma DecodeStringsRoundTrip(ss: seq<string>)
    ensures AsVec(EncodeStrings(ss), AsString) == Some(ss)
  {
    var decoded := DecodeAll(EncodeStrings(ss).items, AsString);
    assert decoded.Some?;
    assert decoded.value == ss;
  }

  /** A subscription request: five string members and a `product_ids` array of strings. */
  function DecodeChannelSubscription(j: Json): (r: Option<ChannelSubscriptionMessage>)
    ensures r.Some? ==> StructFields(j, ChannelSubscriptionFields).Some?
    ensures r.Some? ==>
              var v := StructFields(j, ChannelSubscriptionFields).value;
              && v[0] == JString(r.value.msgType) && AsVec(v[1], AsString) == Some(r.value.productIds)
              && v[2] == JString(r.value.channel) && v[3] == JString(r.value.apiKey)
              && v[4] == JString(r.value.timestamp) && v[5] == JString(r.value.signature)
  {
    match StructFields(j, ChannelSubscriptionFields)
    case None => None
    case Some(v) =>
      match (AsString(v[0]), AsVec(v[1], AsString), AsString(v[2]), AsString(v[3]), AsString(v[4]), AsString(v[5]))
      case (Some(t), Some(ps), Some(c), Some(k), Some(ts), Some(sig)) =>
        Some(ChannelSubscriptionMessage(t, ps, c, k, ts, sig))
      case _ => None
  }

  /** Serialising a subscription message and decoding it back gives the same message. */
  lemma ChannelSubscriptionRoundTrip(m: ChannelSubscriptionMessage)
    ensures DecodeChannelSubscription(EncodeChannelSubscription(m)) == Some(m)
  {
    var ms := EncodeChannelSubscription(m).members;
    var ids := EncodeStrings(m.productIds);
    assert ms == [("type", JString(m.msgType)), ("product_ids", ids), ("channel", JString(m.channel)),
                  ("api_key", JString(m.apiKey)), ("timestamp", JString(m.timestamp)), ("signature", JString(m.signature))];
    LookupUnique(ms, "type", 0);
    LookupUnique(ms, "product_ids", 1);
    LookupUnique(ms, "channel", 2);
    LookupUnique(ms, "api_key", 3);
    LookupUnique(ms, "timestamp", 4);
    LookupUnique(ms, "signature", 5);
    ObjectFieldsFound(ms, ChannelSubscriptionFields,
                      [JString(m.msgType), ids, JString(m.channel), JString(m.apiKey), JString(m.timestamp), JString(m.signature)]);
    DecodeStringsRoundTrip(m.productIds);
  }
}
