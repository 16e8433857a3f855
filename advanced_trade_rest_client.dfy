/**
 * The Advanced Trade REST client of src/advanced_trade_rest_client.rs: the
 * signed request headers, the product catalog request and the symbol list
 * derived from it. The clock is the parameter `now` (whole seconds since the
 * Unix epoch), the HMAC is the parameter `mac`, and the transport is the
 * response it returns for the request handed to it (`None` when sending fails).
 */
module AdvancedTradeRestClient {
  import opened Wrappers
  import opened Json
  import opened Models
  import opened RestClient
  import Strings
  import Hex
  import SigGen

  const KeyHeader: string := "CB-ACCESS-KEY"
  const SignHeader: string := "CB-ACCESS-SIGN"
  const TimestampHeader: string := "CB-ACCESS-TIMESTAMP"

  /** The endpoint of the product catalog: a GET without a query string. */
  const ProductsEndpoint: RestEndpoint := RestEndpoint("/brokerage/products/", "GET", None)

  /** The prefix of the error returned when the catalog cannot be retrieved. */
  const ProductsErrorText: string := "Error retrieving products"

  /**
   * What `HeaderValue::from_str` accepts: visible ASCII, space, tab and any
   * non-ASCII character; other control characters and DEL are refused.
   */
  predicate ValidHeaderValue(v: string)
  {
    forall i :: 0 <= i < |v| ==> v[i] == '\t' || (' ' <= v[i] && v[i] != '\U{7f}')
  }

  /**
   * The headers a request signed at time `now` for `rmethod`, `rpath` and
   * `rbody` carries: exactly the key, the signature and the timestamp.
   */
  predicate SignedHeaders(headers: map<string, string>, key: string, secret: seq<Hex.byte>, mac: SigGen.Mac,
                          now: nat, rmethod: string, rpath: string, rbody: string)
  {
    && headers.Keys == {KeyHeader, SignHeader, TimestampHeader}
    && headers[KeyHeader] == key
    && headers[TimestampHeader] == Strings.NatToDecimal(now)
    && headers[SignHeader] == SigGen.CreateRestSignature(mac, headers[TimestampHeader], rmethod, rpath, rbody, secret)
  }

  /**
   * A receiver holding the secret that reads the timestamp header back as a
   * number, recomputes the tag over that timestamp, the method, the path and
   * the body, and compares it with the decoded signature header, accepts the
   * request and recovers the signing time.
   */
  lemma SignedHeadersVerify(headers: map<string, string>, key: string, secret: seq<Hex.byte>, mac: SigGen.Mac,
                            now: nat, rmethod: string, rpath: string, rbody: string)
    requires SignedHeaders(headers, key, secret, mac, now, rmethod, rpath, rbody)
    ensures Strings.DecimalValue(headers[TimestampHeader]) == now
    ensures Hex.Decode(headers[SignHeader]) ==
              Some(mac(secret, SigGen.RestPreImage(headers[TimestampHeader], rmethod, rpath, rbody)))
  {
    Strings.DecimalRoundTrip(now);
  }

  /** The signature and timestamp headers always pass `HeaderValue::from_str`. */
  lemma SignedHeadersValid(headers: map<string, string>, key: string, secret: seq<Hex.byte>, mac: SigGen.Mac,
                           now: nat, rmethod: string, rpath: string, rbody: string)
    requires SignedHeaders(headers, key, secret, mac, now, rmethod, rpath, rbody)
    requires ValidHeaderValue(key)
    ensures forall h :: h in headers ==> ValidHeaderValue(headers[h])
  {
    var ts, sig := headers[TimestampHeader], headers[SignHeader];
    assert forall i :: 0 <= i < |ts| ==> Strings.IsDigit(ts[i]);
    assert forall i :: 0 <= i < |sig| ==> Hex.IsLowerHexDigit(sig[i]);
  }

  /** `AdvancedTradeRESTClient`: the generic client plus the API key and secret read from the configuration. */
  datatype AdvancedTradeRestClient = AdvancedTradeRestClient(client: Client, key: string, secret: seq<Hex.byte>) {

    /**
     * `build_headers_with_signature`: inserts the three headers into a fresh
     * map. It always succeeds; a key that `HeaderValue::from_str` refuses
     * makes the source panic, so the key must be a valid header value.
     */
    method BuildHeadersWithSignature(mac: SigGen.Mac, now: nat, rmethod: string, rpath: string, rbody: string)
      returns (r: Result<map<string, string>, Error>)
      requires ValidHeaderValue(key)
      ensures r.Ok?
      ensures SignedHeaders(r.value, key, secret, mac, now, rmethod, rpath, rbody)
      ensures forall h :: h in r.value ==> ValidHeaderValue(r.value[h])
    {
      var rts := Strings.NatToDecimal(now);
      var sign := SigGen.CreateRestSignature(mac, rts, rmethod, rpath, rbody, secret);
      var customHeaders: map<string, string> := map[];
      customHeaders := customHeaders[KeyHeader := key];
      customHeaders := customHeaders[SignHeader := sign];
      customHeaders := customHeaders[TimestampHeader := rts];
      r := Ok(customHeaders);
      SignedHeadersValid(customHeaders, key, secret, mac, now, rmethod, rpath, rbody);
    }

    /**
     * `get_available_products`: signs a GET of the request path plus the
     * endpoint with an empty body, sends it to host plus endpoint, and
     * wraps any failure. The source unwraps the request path, so the host
     * must contain ".com".
     */
    method GetAvailableProducts(mac: SigGen.Mac, now: nat, transport: Option<Response>)
      returns (sent: HttpRequest, r: Result<Products, Error>)
      requires ValidHeaderValue(key)
      requires Strings.Find(client.host, ".com").Some?
      ensures sent.verb == "GET" && sent.url == client.host + ProductsEndpoint.endpointUrl
      ensures SignedHeaders(sent.headers, key, secret, mac, now, "GET",
                            client.ExtractRequestPath() + ProductsEndpoint.endpointUrl, "")
      ensures r.Ok? <==> transport.Some? && transport.value.status == OK && transport.value.body.Some? &&
                         DecodeProducts(transport.value.body.value).Some?
      ensures r.Ok? ==> DecodeProducts(transport.value.body.value) == Some(r.value)
      ensures transport.None? ==> r == Err(Context(ProductsErrorText, TransportError))
      ensures transport.Some? && r.Err? ==>
                r == Err(Context(ProductsErrorText, client.Handler(transport.value, DecodeProducts).error))
    {
      var apiEndpoints := ProductsEndpoint;
      var h := BuildHeadersWithSignature(mac, now, apiEndpoints.httpMethod,
                                         client.ExtractRequestPath() + apiEndpoints.endpointUrl, "");
      var headerMap := h.value;
      var result;
      sent, result := client.Get(apiEndpoints.endpointUrl, headerMap, apiEndpoints.resource, transport, DecodeProducts);
      match result {
        case Ok(symbols) => r := Ok(symbols);
        case Err(e) => r := Err(Context(ProductsErrorText, e));
      }
    }

    /**
     * `get_available_symbols`: the product ids of the catalog, in catalog
     * order; a failure of the catalog request is passed on.
     */
    method GetAvailableSymbols(mac: SigGen.Mac, now: nat, transport: Option<Response>)
      returns (sent: HttpRequest, r: Result<seq<string>, Error>)
      requires ValidHeaderValue(key)
      requires Strings.Find(client.host, ".com").Some?
      ensures sent.verb == "GET" && sent.url == client.host + ProductsEndpoint.endpointUrl
      ensures r.Ok? <==> transport.Some? && transport.value.status == OK && transport.value.body.Some? &&
                         DecodeProducts(transport.value.body.value).Some?
      ensures r.Ok? ==> |r.value| == |DecodeProducts(transport.value.body.value).value.products|
      ensures r.Ok? ==> forall i :: 0 <= i < |r.value| ==>
                r.value[i] == DecodeProducts(transport.value.body.value).value.products[i].productId
      ensures r.Err? ==> r.error.Context? && r.error.text == ProductsErrorText
      ensures SignedHeaders(sent.headers, key, secret, mac, now, "GET",
                            client.ExtractRequestPath() + ProductsEndpoint.endpointUrl, "")
      ensures transport.None? ==> r == Err(Context(ProductsErrorText, TransportError))
      ensures transport.Some? && r.Err? ==>
                r == Err(Context(ProductsErrorText, client.Handler(transport.value, DecodeProducts).error))
    {
      var products;
      sent, products := GetAvailableProducts(mac, now, transport);
      match products {
        case Err(e) => r := Err(e);
        case Ok(symbols) =>
          var symbolsList := seq(|symbols.products|, i requires 0 <= i < |symbols.products| => symbols.products[i].productId);
          r := Ok(symbolsList);
      }
    }
  }

  /**
   * For the Advanced Trade host, the signature of the catalog request covers
   * the path "/api/v3/brokerage/products/".
   */
  lemma ProductsRequestOfApiHost()
    ensures Strings.Find(ApiHost, ".com").Some?
    ensures Client(ApiHost).ExtractRequestPath() + ProductsEndpoint.endpointUrl == "/api/v3/brokerage/products/"
  {
    ExtractRequestPathOfApiHost();
    assert "/api/v3" + "/brokerage/products/" == "/api/v3/brokerage/products/";
  }
}
