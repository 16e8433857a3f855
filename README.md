# Coinbase Advanced Trade client: a Dafny model

This project models the core of `rs-coinbase-pairs-handler`, a Rust client for the
Coinbase Advanced Trade API. The model covers:

- **Signing.** The REST signature is the hex of HMAC-SHA256 over
  `timestamp + method + path + body`. The WebSocket signature is the hex of
  HMAC-SHA256 over `timestamp + channel + products.join(",")`.
- **Message shapes.** The serde record types, and the untagged,
  first-match-wins classification of stream messages and of their events.
- **The generic REST client.** The status-code handler, the request path
  taken from the host, and the URLs of GET and POST.
- **The Advanced Trade REST client.** The three signed `CB-ACCESS-*` headers,
  the product catalog request, and the symbol list derived from it.
- **The WebSocket session.** The classification done by `handle_msg`, the
  read loop of `event_loop` with its reconnections, `run`, `connect`, and the
  nested subscription loop of `subscribe_to_channel`.

Each module is in its own file:

- `wrappers.dfy` (`Wrappers`): `Option` and `Result`.
- `strings.dfy` (`Strings`): the standard-library string operations the client
  uses. These are `join`, `find` and decimal `to_string`. `Split` is not used by
  the client; it is defined only to show that the comma join can be undone.
- `hex.dfy` (`Hex`): the `hex` crate's lower-case Base16 (section 8 of RFC 4648).
- `sig_gen.dfy` (`SigGen`): `src/sig_gen.rs`.
- `json.dfy` (`Json`): an abstract JSON value, plus serde's derived decoding
  of structs, vectors and integers.
- `models.dfy` (`Models`): `src/models.rs`.
- `rest_client.dfy` (`RestClient`): `src/rest_client.rs`.
- `advanced_trade_rest_client.dfy` (`AdvancedTradeRestClient`):
  `src/advanced_trade_rest_client.rs`.
- `advanced_trade_websocket.dfy` (`AdvancedTradeWebsocket`):
  `src/advanced_trade_websocket.rs`.

## How the outside world is modelled

Everything the client cannot compute itself is an input to the model:

- **HMAC-SHA256** (RFC 2104 over SHA-256) is the parameter
  `mac: (seq<byte>, string) -> Digest`. It can be any function from a key and
  a message to a 32-byte tag. The secret is held as its UTF-8 bytes.
- **JSON text** is never parsed. An HTTP body or a text frame carries an
  already parsed `Json` value, or `None` when the text is not JSON. Numbers
  are integers.
- **Clocks** are whole seconds since the epoch, passed as `nat` parameters.
  For `subscribe_to_channel` the clock is the `Writer.clock` function.
- **The HTTP transport** is the response returned for the request built
  (`None` when sending fails). The request itself is returned as `sent`, so
  its verb, URL and headers can be stated.
- **The WebSocket environment** is an `Environment` value with four parts:
  - whether the k-th `connect_wss` call succeeds;
  - what the n-th read returns;
  - how many times the running flag reads true (`stopAt`);
  - whether closing succeeds.
- **Writes in the subscription loop** come from a `Writer`, which says whether
  the k-th pair finds the socket writable and whether its write succeeds.

Values that the source keeps in structs become Dafny datatypes:
`Client`, `AdvancedTradeRestClient` and `AdvancedTradeWebSockets`. None of
them is updated after construction. Their operations are datatype members;
the loops are methods with invariants.

Three behaviours of the code are worth noting; the model keeps each of them:

- No subscription is sent after `connect` or after a reconnection, because
  `subscribe_to_channel` is never called. It is modelled as a method of its
  own.
- A failed reconnection ends the session with an error. It is not retried.
- Within an envelope, an event that fits no shape makes the whole envelope
  fail to decode. It does not become `Unkown`.

## Model

| member | source | states |
|---|---|---|
| SigGen.CreateRestSignature | src/sig_gen.rs:7-20 | The signature is 64 characters of lower-case hex. It decodes to the MAC tag of `RestPreImage`, which is `ts + method + path + body`, under the secret. |
| SigGen.CreateWsSignature | src/sig_gen.rs:24-32 | The signature is 64 characters of lower-case hex. It decodes to the MAC tag of `WsPreImage`, which is `ts + channel + products.join(",")` (`Strings.Join`), under the secret. |
| SigGen.RestPreImageSeparatesFields | src/sig_gen.rs:16 | The REST pre-image has no separators, yet changing any one field while keeping the other three changes the pre-image. |
| SigGen.WsPreImageDependsOnProductOrder | src/sig_gen.rs:27-28 | Take non-empty product lists of comma-free ids, with the same timestamp and channel. Their WebSocket pre-images agree exactly when the lists are equal, in order. So reordering the products changes what is signed. |
| SigGen.RestSignaturesAgreeIffTagsAgree | src/sig_gen.rs:19 | Two REST signatures under one key are equal exactly when their MAC tags are equal. The hex step loses nothing. |
| SigGen.WsPreImageSingleProduct | src/sig_gen.rs:27-28 | A one-product list contributes the product itself, with no comma. |
| Strings.SplitJoin | src/sig_gen.rs:27 | `Join`, the comma join, puts the separator only between items. Splitting the join of separator-free items gives the items back. |
| Strings.JoinInjective | src/sig_gen.rs:27 | Two non-empty lists of separator-free items join to the same text exactly when the lists are equal. |
| Strings.Find | src/rest_client.rs:74 | The result is the first occurrence of the pattern: it occurs there and at no earlier index. `None` means it occurs nowhere. |
| Strings.NatToDecimal | src/advanced_trade_rest_client.rs:43 | `as_secs().to_string()` is at least one decimal digit, with no sign and no leading zero. |
| Strings.DecimalRoundTrip | src/advanced_trade_rest_client.rs:43 | Reading the decimal text of a number gives the number back. |
| Strings.IntToDecimal | src/rest_client.rs:119 | The text of an `i16` code starts with '-' exactly when the code is negative. The rest is digits, with no space. |
| Strings.IntToDecimalInjective | src/rest_client.rs:119 | Two codes print alike exactly when they are equal. |
| Hex.Encode | src/sig_gen.rs:19 | `hex::encode` gives two lower-case hex characters per byte, high nibble first. |
| Hex.DecodeEncode | src/sig_gen.rs:31 | Decoding the hex encoding of any bytes gives the bytes back. |
| Hex.EncodeInjective | src/sig_gen.rs:19 | Distinct byte strings have distinct hex encodings. |
| Json.LookupMeaning | src/models.rs:104-111 | Field lookup in an object: a key is found (`Unique`) when exactly one member carries it, with that member's value. It is `Absent` when no member has it and `Repeated` when two or more do. |
| Json.ObjectFields | src/models.rs:104-111 | A derived struct reads from an object exactly when every declared field occurs once. The values come in declaration order, and other keys are ignored. |
| Json.StructFields | src/models.rs:66-71 | A derived struct decodes only from an object or an array. From an object it reads the fields as `ObjectFields` does. From an array it is accepted exactly when there is one element per field, and the values are the elements in order. |
| Json.AsU64 | src/models.rs:109 | A `u64` is read exactly from a number in [0, 2^64), and its value is that number. |
| Json.AsI64 | src/models.rs:16 | An `i64` is read exactly from a number in [-2^63, 2^63), and its value is that number. |
| Json.AsI16 | src/rest_client.rs:113 | An `i16` is read exactly from a number in [-2^15, 2^15), and its value is that number. |
| Json.DecodeAll | src/models.rs:17 | A `Vec<T>` decodes exactly when every item decodes. The result holds item i's value at position i. |
| Models.DecodeProductData | src/models.rs:20-35 | A product decodes exactly when the eleven string fields are strings and `trading_disabled` is a boolean. Each field of the result is the value of its member. |
| Models.DecodeProducts | src/models.rs:13-18 | The catalog decodes exactly when `num_products` is an `i64` and `products` is an array of products. `num_products` is the member's number, and the products are the decoded elements of `products`, in order. |
| Models.DecodeSnapshotTicker | src/models.rs:52-64 | A ticker decodes exactly when its nine fields are all strings. Each field of the result is the string of its member. |
| Models.DecodeSnapshotMessage | src/models.rs:66-71 | A snapshot decodes exactly when `type` is a string and `tickers` is an array of tickers. The result holds that type and those tickers, in order. |
| Models.DecodeUpdateMessage | src/models.rs:87-92 | An update decodes exactly as a snapshot does, from the same two members, giving the same type and tickers. |
| Models.DecodeSubscriptions | src/models.rs:99-102 | The record decodes exactly when `ticker` is an array of strings. Its list is that array, in order. |
| Models.DecodeSubscriptionMessage | src/models.rs:94-97 | An acknowledgement decodes exactly when `subscriptions` decodes as the record. Its record is that one. |
| Models.SnapshotMessageObjectForm | src/models.rs:66-71 | An object decodes as a given snapshot exactly when it has one `type` member holding the snapshot's type and one `tickers` member decoding to its tickers. |
| Models.SubscriptionsObjectForm | src/models.rs:99-102 | An object decodes as a given record exactly when it has one `ticker` member holding that list of strings. |
| Models.SubscriptionMessageObjectForm | src/models.rs:94-97 | An object decodes as a given acknowledgement exactly when it has one `subscriptions` member decoding to its record. |
| Models.DecodeWebsocketEvent | src/models.rs:43-50 | Untagged decoding in declaration order: a snapshot shape is `SnapshotEvent` with the snapshot's fields. Otherwise a subscription shape is `SubscriptionEvent`, carrying the decoded acknowledgement. Otherwise only JSON null is `Unkown`, and anything else fails. `UpdateEvent` is never produced. |
| Models.UpdateShapeIsSnapshotShape | src/models.rs:87-92 | A value decodes as an `UpdateMessage` exactly when it decodes as a `SnapshotMessage`, with the same fields. |
| Models.UpdateEventUnreachable | src/models.rs:40-41 | No input yields an `UpdateEvent`. |
| Models.UpdatePayloadReadAsSnapshot | src/models.rs:40-41 | The payload `{"type":"update","tickers":[]}` is classified as a snapshot. |
| Models.DecodeWebsocketEventByType | src/models.rs:43-50 | This is the corrected classifier. It gives `SnapshotEvent` exactly for a snapshot shape whose `type` is not "update", and `UpdateEvent` exactly for an update shape whose `type` is "update". Otherwise a subscription shape is `SubscriptionEvent`, and JSON null alone is `Unkown`. Each event carries the decoded payload. |
| Models.UpdateEventReachableByType | src/models.rs:43-50 | Under the corrected classifier, every update payload becomes an `UpdateEvent`. It accepts exactly the inputs the classifier as written accepts, and classifies every other input as before. |
| Models.DecodeGenericMessage | src/models.rs:104-111 | A decoded envelope's `sequence_num` is within the `u64` range. `channel`, `client_id`, `timestamp` and `sequence_num` are the values of those fields. `events` has as many entries as the `events` array, and entry i is the classification of element i. |
| Models.GenericMessageObjectForm | src/models.rs:104-111 | An object is an envelope exactly when it has these members: `channel`, `client_id` and `timestamp` as strings; `sequence_num` as a `u64`; and `events` as an array whose every element is an event. So one unrecognised event rejects the envelope. The decoded envelope carries those members' values, and its i-th event is the classification of the i-th element. |
| Models.DecodeErrorMessage | src/models.rs:113-118 | An error message decodes exactly when `type` and `message` are strings. The result holds those two strings. |
| Models.ErrorMessageObjectForm | src/models.rs:113-118 | An object decodes as an error message exactly when it has string members `type` and `message`. The key `type` holds `msg_type`. |
| Models.EncodeChannelSubscription | src/models.rs:121-130 | The serialised subscription is an object with keys `type`, `product_ids`, `channel`, `api_key`, `timestamp`, `signature`, in that order. |
| Models.EncodeStrings | src/models.rs:125 | `product_ids` is serialised as an array holding each id as a string, in order. |
| Models.DecodeStringsRoundTrip | src/models.rs:125 | Decoding the serialised id list gives the list back. |
| Models.DecodeChannelSubscription | src/models.rs:121-130 | A decoded subscription request holds the strings of `type`, `channel`, `api_key`, `timestamp` and `signature`, and the decoded `product_ids` list. |
| Models.ChannelSubscriptionRoundTrip | src/models.rs:121-130 | Serialising a subscription message and decoding it gives the same message. |
| RestClient.DecodeContentError | src/rest_client.rs:111-115 | A 400 error body decodes exactly when `code` is an `i16` and `msg` is a string. The result holds that code and that message. |
| RestClient.ContentErrorObjectForm | src/rest_client.rs:111-115 | An object is the error body (c, m) exactly when it has one `code` member holding c, in the `i16` range, and one `msg` member holding m. |
| RestClient.Client.BadRequestText | src/rest_client.rs:51-54 | A 400 response with body `{"code": 1, "msg": "bad request"}` fails with the text "code: 1 \nmsg: bad request". |
| RestClient.ContentErrorText | src/rest_client.rs:117-121 | `Display` of the error body reads back: after "code: ", the text up to the first space is the code's decimal text, and after " \nmsg: " comes the message. |
| RestClient.ContentErrorTextInjective | src/rest_client.rs:117-121 | Two error bodies display alike exactly when they are equal. |
| RestClient.Client.Handler | src/rest_client.rs:39-59 | Only 200 succeeds, and then exactly when the body decodes as `T`, giving that value; a 200 with a bad body is a decode error. 500, 503 and 401 fail with their fixed texts. 400 fails with the displayed error body, or with a decode error when the body does not decode. Every other status fails with "Received response: " and the status. |
| RestClient.Client.HandlerIgnoresBody | src/rest_client.rs:42-57 | For every status except 200 and 400, the outcome does not depend on the body. |
| RestClient.Client.UnexpectedStatusTextsDistinct | src/rest_client.rs:55-57 | Distinct unexpected statuses give distinct error texts. |
| RestClient.Client.ExtractRequestPath | src/rest_client.rs:73-76 | The result is the suffix of the host after the first ".com". It requires the host to contain ".com", since the source unwraps the search. |
| RestClient.ExtractRequestPathOfApiHost | src/advanced_trade_websocket.rs:48 | For "https://api.coinbase.com/api/v3", the first ".com" is at index 20 and the request path is "/api/v3". |
| RestClient.Client.RequestUrlQuery | src/rest_client.rs:79-84 | The GET URL (`Client.RequestUrl`) starts with host + endpoint. When neither contains '?', its query is exactly the request when that is present and non-empty, and there is no query otherwise. |
| RestClient.Client.Get | src/rest_client.rs:78-94 | The GET goes to host + endpoint, plus "?" and the request when one is given and non-empty, and carries the headers. A send failure is a transport error; otherwise the result is the handler's. |
| RestClient.Client.Post | src/rest_client.rs:96-107 | The POST goes to host + endpoint with no query string. Its outcome is as for `Get`. |
| AdvancedTradeRestClient.AdvancedTradeRestClient.BuildHeadersWithSignature | src/advanced_trade_rest_client.rs:41-60 | Given a valid key, the call succeeds. The map satisfies `SignedHeaders` (src/advanced_trade_rest_client.rs:53-57): it holds exactly three headers: `CB-ACCESS-KEY` is the key and `CB-ACCESS-TIMESTAMP` is the decimal clock. `CB-ACCESS-SIGN` is the REST signature over that same timestamp and the method, path and body. Every value is a valid header value. |
| AdvancedTradeRestClient.SignedHeadersVerify | src/advanced_trade_rest_client.rs:43-57 | A receiver can read the signing time back from the timestamp header. The decoded signature header is the MAC tag over that header's text and the method, path and body. |
| AdvancedTradeRestClient.SignedHeadersValid | src/advanced_trade_rest_client.rs:55-57 | Given a valid key, all three header values pass `HeaderValue::from_str`, so the unwraps cannot panic. |
| AdvancedTradeRestClient.AdvancedTradeRestClient.GetAvailableProducts | src/advanced_trade_rest_client.rs:63-91 | The request is a GET of host + "/brokerage/products/" with no query. It is signed for "GET", the request path + "/brokerage/products/" and an empty body. It succeeds exactly when a 200 response carries a body that decodes as a catalog, giving that catalog. Any failure is the underlying error wrapped with "Error retrieving products". |
| AdvancedTradeRestClient.AdvancedTradeRestClient.GetAvailableSymbols | src/advanced_trade_rest_client.rs:94-106 | It sends the same signed catalog request and succeeds exactly when that request does. The symbols are the catalog's product ids, in order and of equal number. A failure is the catalog error: a send failure or the handler's error, wrapped with "Error retrieving products". |
| AdvancedTradeRestClient.ProductsRequestOfApiHost | src/advanced_trade_rest_client.rs:64-71 | On the API host, the catalog request signs the path "/api/v3/brokerage/products/". |
| AdvancedTradeWebsocket.DecodeAdvancedTradeEvent | src/advanced_trade_websocket.rs:12-18 | Untagged `AdvancedTradeEvents`: a generic envelope when the value decodes as one; otherwise an error message when it decodes as that; otherwise `Unknown` for JSON null only, and a failure for anything else. |
| AdvancedTradeWebsocket.HandleMsg | src/advanced_trade_websocket.rs:123-149 | The result is always `Ok`. The logged event is the envelope when the text decodes as one. Otherwise it is the error message when it decodes as that. Otherwise, and when the text is not JSON, it is `Unknown`. |
| AdvancedTradeWebsocket.AuthenticationErrorClassified | src/advanced_trade_websocket.rs:12-18 | `{"type":"error","message":"authentication failure"}` is logged as that error event. |
| AdvancedTradeWebsocket.UnrecognisedEventSpoilsEnvelope | src/advanced_trade_websocket.rs:128-134 | An envelope with one unrecognisable event and no `message` member is logged as `Unknown`. |
| AdvancedTradeWebsocket.FailuresBefore | src/advanced_trade_websocket.rs:86-96 | At most n of the first n reads fail. |
| AdvancedTradeWebsocket.SocketsUsed | src/advanced_trade_websocket.rs:89-94 | The i-th read uses the connection opened by attempt number "failed reads before i": each failure replaces the socket. |
| AdvancedTradeWebsocket.Dispatched | src/advanced_trade_websocket.rs:100-106 | At most one event is logged per read. |
| AdvancedTradeWebsocket.FailuresBeforeCounts | src/advanced_trade_websocket.rs:86-96 | `FailuresBefore(read, n)` is the number of indices i < n whose read failed. |
| AdvancedTradeWebsocket.DispatchedCounts | src/advanced_trade_websocket.rs:100-106 | The events logged during the first n reads are as many as the text frames among them, and each event is the classification of one of those frames. |
| AdvancedTradeWebsocket.DispatchedGrows | src/advanced_trade_websocket.rs:100-106 | Later reads only append to the log: the events of the first m reads are a prefix of those of the first n, for m <= n. |
| AdvancedTradeWebsocket.ControlFramesAreHarmless | src/advanced_trade_websocket.rs:107-112 | Ping, Pong, Binary and Close frames cause no reconnection, log nothing and never end the session. |
| AdvancedTradeWebsocket.FailuresCountReconnections | src/advanced_trade_websocket.rs:86-96 | Between two points of the read stream, the reconnections grow by at most the number of reads in between. |
| AdvancedTradeWebsocket.AdvancedTradeWebSockets.Connect | src/advanced_trade_websocket.rs:212-221 | `connect` succeeds exactly when `connect_wss` accepts the single URL "wss://advanced-trade-ws.coinbase.com". Otherwise it fails with "Unable to connect.". |
| AdvancedTradeWebsocket.AdvancedTradeWebSockets.EventLoop | src/advanced_trade_websocket.rs:65-121 | If the first connect fails there is no read, no close and a connect error. Otherwise, after the reads: there was one connect plus one per failed read; each read used the socket of the latest connection; the logged events are those of the text frames, in order; no read before the last was fatal (`Fatal`). A connect error follows a failed read whose reconnection failed. An unhandled-frame error follows a raw frame. `close` is called once, exactly when the flag turned false with no fatal read. The result is `Ok` only then, and only if closing succeeds. A close error occurs only after `close` was called. |
| AdvancedTradeWebsocket.AdvancedTradeWebSockets.ReadLoop | src/advanced_trade_websocket.rs:79-118 | The while loop of `event_loop` carries the same invariants over the reads. It stops without error exactly when the flag turned false and no read was fatal. |
| AdvancedTradeWebsocket.AdvancedTradeWebSockets.ReadOnce | src/advanced_trade_websocket.rs:81-117 | One read advances the connection count and the logged events by the next read's contribution. It ends the loop exactly when that read is fatal. |
| AdvancedTradeWebsocket.AdvancedTradeWebSockets.Run | src/advanced_trade_websocket.rs:54-63 | `run` returns `Ok(())` however the loop ends. |
| AdvancedTradeWebsocket.ChannelPairs | src/advanced_trade_websocket.rs:165 | The inner loop pairs its channel with each product, in product order. |
| AdvancedTradeWebsocket.PairsLength | src/advanced_trade_websocket.rs:161-207 | The loops visit \|channels\| × \|products\| pairs, which bounds the number of writes. |
| AdvancedTradeWebsocket.PairsMembership | src/advanced_trade_websocket.rs:161-207 | In the visiting order `Pairs`, a (channel, product) pair is visited exactly when the channel is configured and the product is subscribed. |
| AdvancedTradeWebsocket.PairsAppend | src/advanced_trade_websocket.rs:162 | Popping from the end visits the later channels first: the pairs of `pending + done` are those of `done`, then those of `pending`. |
| AdvancedTradeWebsocket.AttemptForMeaning | src/advanced_trade_websocket.rs:166-204 | `AttemptFor`, what the loop does for one pair: a pair is skipped exactly when the socket cannot be written; a sent message's write outcome is the writer's. A sent message is "subscribe" for that one channel and one product, with the session key. Its timestamp reads back as the clock. Its signature decodes to the MAC tag of its own timestamp, channel and product. The frame written decodes back to the message. |
| AdvancedTradeWebsocket.Attempts | src/advanced_trade_websocket.rs:164-207 | There is one attempt per visited pair. |
| AdvancedTradeWebsocket.AttemptsMeaning | src/advanced_trade_websocket.rs:164-207 | The k-th attempt is the attempt for the k-th visited pair. |
| AdvancedTradeWebsocket.AdvancedTradeWebSockets.SubscriptionProducts | src/advanced_trade_websocket.rs:152-159 | With `Custom`, the products are the given ones. With `All`, they are the catalog's product ids in catalog order, and the call panics exactly when the catalog request fails. |
| AdvancedTradeWebsocket.AdvancedTradeWebSockets.SubscribeChannel | src/advanced_trade_websocket.rs:165-205 | The inner `for` loop appends the attempts for the channel's pairs to those already made. |
| AdvancedTradeWebsocket.AdvancedTradeWebSockets.SubscribeChannels | src/advanced_trade_websocket.rs:161-207 | Popping channels from a copy of the list makes exactly the attempts for `Pairs(channels, products)`, in that order. The configured channels are not changed. |
| AdvancedTradeWebsocket.AdvancedTradeWebSockets.SubscribeToChannel | src/advanced_trade_websocket.rs:151-208 | It chooses the products as `SubscriptionProducts` does. A panic sends nothing. Otherwise one attempt is made per (channel, product) pair, in visiting order. |
| AdvancedTradeWebsocket.New | src/advanced_trade_websocket.rs:38-52 | The session has the exchange "coinbase-advanced-trade", the given channels and products, the configured credentials, and a REST client on "https://api.coinbase.com/api/v3" with the same credentials. |

## Left out

- HMAC-SHA256 and SHA-256 are a function parameter, not computed. Converting the secret to bytes is folded into that parameter.
- JSON text parsing and serialisation to text are not modelled. Values are abstract `Json` trees, and serialisation stops at the `Json` value. Floating-point numbers are not modelled.
- The serde, reqwest and tungstenite error values and their texts are modelled as `DecodeError` and `TransportError`, without text.
- The `reqwest` transport, `tungstenite` sockets, TLS and `websocket::connect_wss` are not modelled. Their outcomes are inputs (`transport`, `Environment`, `Writer`).
- `SystemTime::now` is not modelled; clock readings are parameters.
- Logging, `std::thread::sleep(100ms)`, the async executor and `Client::new`'s connection-pool settings are not modelled.
- The configuration reader (`src/config_builder.rs`), process wiring (`src/main.rs`) and `src/ticker_processing.rs` are not modelled. Credentials are parameters of the constructors, and `AdvancedTradeRESTClient::new` is the datatype constructor taking them.
- `AdvancedTradeWebsocket.AdvancedTradeWebSockets.EventLoop`: the `AtomicBool` running flag is never cleared in the source, so the loop runs until a fatal read. The model observes a horizon instead: `stopAt`, the number of times the flag reads true.
- `AdvancedTradeWebsocket.AdvancedTradeWebSockets.EventLoop`: the text of the error that ends the loop is not modelled, only its kind (`LoopError`). The `RawFrame` frame stands for any frame kind `event_loop` does not handle.
- `AdvancedTradeRestClient.AdvancedTradeRestClient.GetAvailableProducts`: the error text `"Error retrieving products: {:?}"` holds the Debug text of the cause. The model keeps the cause itself instead (`Context`), and this is weaker than the exact text. The "Ill-defined headers" branch cannot be taken, because building the headers succeeds for a valid key, so it has no counterpart.
- `AdvancedTradeRestClient.AdvancedTradeRestClient.GetAvailableSymbols`: `bail!(e)` on an `anyhow::Error` passes the same error on. It is modelled as returning the catalog error unchanged.
- `AdvancedTradeRestClient.AdvancedTradeRestClient.BuildHeadersWithSignature`: a key that `HeaderValue::from_str` refuses (a control character other than tab, or DEL) makes the source panic at the `unwrap`. The model excludes that key with `requires ValidHeaderValue(key)`, here and in `GetAvailableProducts`, `GetAvailableSymbols`, `SubscriptionProducts` and `SubscribeToChannel`, so the panic is not modelled.
- `AdvancedTradeRestClient.AdvancedTradeRestClient.BuildHeadersWithSignature`: header names are case-insensitive in `HeaderMap`. The model keys the map by the names as written.
- `Strings.Find`: indices are character indices, not byte indices. They agree on the ASCII hosts the client uses.
- `UpdateTicker` (src/models.rs:73-85) is declared but used by no other type, so it has no decoder.
- `Models.DecodeGenericMessage`: events are classified by the corrected `DecodeWebsocketEventByType` (see Findings). It accepts the same envelopes as the classifier as written, but logs update payloads as `UpdateEvent` rather than `SnapshotEvent`. `AdvancedTradeWebsocket.DecodeAdvancedTradeEvent`, `AdvancedTradeWebsocket.HandleMsg`, `AdvancedTradeWebsocket.Dispatched` and `AdvancedTradeWebsocket.AdvancedTradeWebSockets.EventLoop` decode envelopes through it, so they inherit the same difference.

## Findings

| source | as written | input that shows it | evidently intended | confidence | as-written member | corrected member |
|---|---|---|---|---|---|---|
| src/models.rs:43-50 | `WebsocketEvent` is untagged and tries `SnapshotEvent` before `UpdateEvent`. `UpdateMessage` has exactly the fields of `SnapshotMessage`, so every update payload decodes as a snapshot and `UpdateEvent` is never produced. | `{"type": "update", "tickers": []}` | A payload whose `type` is "update" is an `UpdateEvent`. | not executed | Models.UpdateEventUnreachable | Models.UpdateEventReachableByType |
