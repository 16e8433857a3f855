/**
 * The generic REST client of src/rest_client.rs: the status-code handler,
 * the request-path extraction from the host, and the URL of GET and POST
 * requests. The HTTP transport is a parameter: the response it returns for
 * the request handed to it, or `None` when sending fails.
 */
module RestClient {
  import opened Wrappers
  import opened Json
  import Strings

  /** The client's failures. The texts of transport and serde errors are not modelled. */
  datatype Error =
    | TransportError                        // `send()` failed
    | DecodeError                           // the body is not JSON of the expected shape
    | Message(text: string)                 // `bail!` with this text
    | Context(text: string, cause: Error)   // an error wrapped with a description

  /** An HTTP status code (the `http` crate admits 100 to 999). */
  type StatusCode = s: int | 100 <= s < 1000 witness 200

  const OK: StatusCode := 200
  const BAD_REQUEST: StatusCode := 400
  const UNAUTHORIZED: StatusCode := 401
  const INTERNAL_SERVER_ERROR: StatusCode := 500
  const SERVICE_UNAVAILABLE: StatusCode := 503

  /** A response: its status and its body, parsed as JSON (`None` if the body is not JSON). */
  datatype Response = Response(status: StatusCode, body: Option<Json>)

  /** A request handed to the transport; header names are matched case-insensitively on the wire. */
  datatype HttpRequest = HttpRequest(verb: string, url: string, headers: map<string, string>)

  /** The error body of a 400 response; `code` is an `i16`. */
  datatype ContentError = ContentError(code: int, msg: string)

  /** The error body: an `i16` member `code` and a string member `msg`. */
  function DecodeContentError(j: Json): (r: Option<ContentError>)
    ensures r.Some? ==> I16_MIN <= r.value.code < I16_LIMIT
    ensures r.Some? <==> StructFields(j, ["code", "msg"]).Some? &&
                         AsI16(StructFields(j, ["code", "msg"]).value[0]).Some? &&
                         StructFields(j, ["code", "msg"]).value[1].JString?
    ensures r.Some? ==> StructFields(j, ["code", "msg"]).value == [JNumber(r.value.code), JString(r.value.msg)]
  {
    match StructFields(j, ["code", "msg"])
    case None => None
    case Some(v) =>
      match (AsI16(v[0]), AsString(v[1]))
      case (Some(c), Some(m)) => Some(ContentError(c, m))
      case _ => None
  }

  /** An object is the error body (c, m) exactly when `code` is the `i16` c and `msg` the string m, each once. */
  lemma ContentErrorObjectForm(ms: seq<(string, Json)>, c: int, m: string)
    ensures DecodeContentError(JObject(ms)) == Some(ContentError(c, m)) <==>
              Lookup(ms, "code") == Unique(JNumber(c)) && I16_MIN <= c < I16_LIMIT &&
              Lookup(ms, "msg") == Unique(JString(m))
  {
    if Lookup(ms, "code") == Unique(JNumber(c)) && Lookup(ms, "msg") == Unique(JString(m)) {
      ObjectFieldsFound(ms, ["code", "msg"], [JNumber(c), JString(m)]);
    }
    if DecodeContentError(JObject(ms)) == Some(ContentError(c, m)) {
      var v := ObjectFields(ms, ["code", "msg"]).value;
      assert Lookup(ms, ["code", "msg"][0]) == Unique(v[0]);
      assert Lookup(ms, ["code", "msg"][1]) == Unique(v[1]);
    }
  }

  /**
   * `Display` for `ContentError`: `"code: {code} \nmsg: {msg}"`. The text
   * reads back as the code's decimal text and the message.
   */
  function ContentErrorText(e: ContentError): (r: string)
    ensures ParseContentErrorText(r) == Some((Strings.IntToDecimal(e.code), e.msg))
  {
    ParseLabelled(Strings.IntToDecimal(e.code), e.msg);
    "code: " + Strings.IntToDecimal(e.code) + " \nmsg: " + e.msg
  }

  /** A space-free code and a message, laid out as `Display` does, read back as themselves. */
  lemma ParseLabelled(code: string, msg: string)
    requires ' ' !in code
    ensures ParseContentErrorText("code: " + code + " \nmsg: " + msg) == Some((code, msg))
  {
    var s := "code: " + code + " \nmsg: " + msg;
    var tail := "\nmsg: " + msg;
    assert s[..6] == "code: ";
    assert s[6..] == code + [' '] + tail;
    FirstSpace(code, tail);
    assert s[6..6 + |code|] == code;
    assert s[6 + |code|..] == " \nmsg: " + msg;
  }

  /**
   * Reads an error text back: after the label "code: " the code runs to the
   * first space, which must begin " \nmsg: "; the rest is the message.
   */
  function ParseContentErrorText(s: string): Option<(string, string)>
  {
    if |s| < 6 || s[..6] != "code: " then None
    else
      match Strings.Find(s[6..], " ")
      case None => None
      case Some(k) =>
        var rest := s[6 + k..];
        if |rest| >= 7 && rest[..7] == " \nmsg: " then Some((s[6..6 + k], rest[7..])) else None
  }

  /** The first space of `a + " " + x` is the one after `a` when `a` has none. */
  lemma FirstSpace(a: string, x: string)
    requires ' ' !in a
    ensures Strings.Find(a + [' '] + x, " ") == Some(|a|)
  {
    var s := a + [' '] + x;
    assert Strings.OccursAt(s, " ", |a|);
    forall j | 0 <= j < |a|
      ensures !Strings.OccursAt(s, " ", j)
    {
      assert s[j..j + 1] == [a[j]];
    }
  }

  /** The body `{"code": 1, "msg": "bad request"}` decodes as that error. */
  lemma BadRequestBody()
    ensures DecodeContentError(JObject([("code", JNumber(1)), ("msg", JString("bad request"))]))
            == Some(ContentError(1, "bad request"))
  {
    var ms := [("code", JNumber(1)), ("msg", JString("bad request"))];
    LookupUnique(ms, "code", 0);
    LookupUnique(ms, "msg", 1);
    ContentErrorObjectForm(ms, 1, "bad request");
  }

  /** That error displays as "code: 1 \nmsg: bad request". */
  lemma BadRequestBodyText()
    ensures ContentErrorText(ContentError(1, "bad request")) == "code: 1 \nmsg: bad request"
  {
    assert Strings.IntToDecimal(1) == [Strings.DigitChar(1)] == "1";
  }

  /** The error text of a 400 response determines the error body it came from. */
  lemma ContentErrorTextInjective(e: ContentError, e': ContentError)
    ensures ContentErrorText(e) == ContentErrorText(e') <==> e == e'
  {
    if ContentErrorText(e) == ContentErrorText(e') {
      Strings.IntToDecimalInjective(e.code, e'.code);
    }
  }

  /** The text after the first '?' of a URL, if it has one. */
  function QueryOf(url: string): Option<string>
  {
    if url == [] then None
    else if url[0] == '?' then Some(url[1..])
    else QueryOf(url[1..])
  }

  lemma {:induction false} QueryOfAppend(base: string, rest: string)
    requires '?' !in base
    ensures QueryOf(base + rest) == QueryOf(rest)
  {
    if base != [] {
      assert (base + rest)[1..] == base[1..] + rest;
      QueryOfAppend(base[1..], rest);
    } else {
      assert base + rest == rest;
    }
  }

  datatype Client = Client(host: string) {

    /**
     * `Client::handler`: only 200 succeeds, with the body decoded as `T`;
     * 500, 503 and 401 fail with fixed texts; 400 fails with the text of the
     * decoded error body; any other status fails naming the status.
     */
    function Handler<T>(response: Response, decode: Json -> Option<T>): (r: Result<T, Error>)
      ensures r.Ok? <==> response.status == OK && response.body.Some? && decode(response.body.value).Some?
      ensures r.Ok? ==> decode(response.body.value) == Some(r.value)
      ensures response.status == OK && r.Err? ==> r.error == DecodeError
      ensures response.status == INTERNAL_SERVER_ERROR ==> r == Err(Message("Internal Server Error"))
      ensures response.status == SERVICE_UNAVAILABLE ==> r == Err(Message("Service Unavailable"))
      ensures response.status == UNAUTHORIZED ==> r == Err(Message("Unauthorized"))
      ensures response.status == BAD_REQUEST ==>
                r.Err? && (r.error == DecodeError <==>
                             response.body.None? || DecodeContentError(response.body.value).None?)
      ensures response.status == BAD_REQUEST && response.body.Some? && DecodeContentError(response.body.value).Some? ==>
                r == Err(Message(ContentErrorText(DecodeContentError(response.body.value).value)))
      ensures response.status !in {OK, BAD_REQUEST, UNAUTHORIZED, INTERNAL_SERVER_ERROR, SERVICE_UNAVAILABLE} ==>
                r == Err(Message("Received response: " + Strings.NatToDecimal(response.status)))
    {
      if response.status == OK then
        if response.body.Some? && decode(response.body.value).Some? then Ok(decode(response.body.value).value)
        else Err(DecodeError)
      else if response.status == INTERNAL_SERVER_ERROR then Err(Message("Internal Server Error"))
      else if response.status == SERVICE_UNAVAILABLE then Err(Message("Service Unavailable"))
      else if response.status == UNAUTHORIZED then Err(Message("Unauthorized"))
      else if response.status == BAD_REQUEST then
        if response.body.Some? && DecodeContentError(response.body.value).Some? then
          Err(Message(ContentErrorText(DecodeContentError(response.body.value).value)))
        else Err(DecodeError)
      else Err(Message("Received response: " + Strings.NatToDecimal(response.status)))
    }

    /** A 400 response with body `{"code": 1, "msg": "bad request"}` fails with the text "code: 1 \nmsg: bad request". */
    lemma BadRequestText<T>(decode: Json -> Option<T>)
      ensures Handler(Response(BAD_REQUEST, Some(JObject([("code", JNumber(1)), ("msg", JString("bad request"))]))), decode)
              == Err(Message("code: 1 \nmsg: bad request"))
    {
      BadRequestBody();
      BadRequestBodyText();
    }

    /** Except for 200 and 400, the outcome does not depend on the body: it is never read. */
    lemma HandlerIgnoresBody<T>(status: StatusCode, body: Option<Json>, body': Option<Json>, decode: Json -> Option<T>)
      requires status != OK && status != BAD_REQUEST
      ensures Handler(Response(status, body), decode) == Handler(Response(status, body'), decode)
    {
    }

    /** Distinct statuses outside the handled ones fail with distinct texts. */
    lemma UnexpectedStatusTextsDistinct(s: StatusCode, s': StatusCode)
      requires s != s'
      ensures "Received response: " + Strings.NatToDecimal(s) != "Received response: " + Strings.NatToDecimal(s')
    {
      if "Received response: " + Strings.NatToDecimal(s) == "Received response: " + Strings.NatToDecimal(s') {
        PrefixCancels("Received response: ", Strings.NatToDecimal(s), Strings.NatToDecimal(s'));
        Strings.DecimalRoundTrip(s);
        Strings.DecimalRoundTrip(s');
      }
    }

    /**
     * `extract_request_path`: what follows the first ".com" in the host.
     * The source unwraps the search, so a host without ".com" panics.
     */
    function ExtractRequestPath(): (path: string)
      requires Strings.Find(host, ".com").Some?
      ensures |path| + 4 <= |host| && host[|host| - |path|..] == path
      ensures Strings.OccursAt(host, ".com", |host| - |path| - 4)
      ensures forall j :: 0 <= j < |host| - |path| - 4 ==> !Strings.OccursAt(host, ".com", j)
    {
      host[Strings.Find(host, ".com").value + 4..]
    }

    /** The URL `get` requests: host and endpoint, then "?" and the query when one is given. */
    function RequestUrl(endpoint: string, request: Option<string>): string
    {
      if request.Some? && request.value != "" then host + endpoint + "?" + request.value
      else host + endpoint
    }

    /**
     * When host and endpoint contain no '?', the query string of the URL is
     * exactly the non-empty request, and there is none otherwise.
     */
    lemma RequestUrlQuery(endpoint: string, request: Option<string>)
      requires '?' !in host + endpoint
      ensures RequestUrl(endpoint, request)[..|host + endpoint|] == host + endpoint
      ensures QueryOf(RequestUrl(endpoint, request)) ==
                if request.Some? && request.value != "" then Some(request.value) else None
    {
      var base := host + endpoint;
      if request.Some? && request.value != "" {
        assert RequestUrl(endpoint, request) == base + ("?" + request.value);
        QueryOfAppend(base, "?" + request.value);
        assert ("?" + request.value)[1..] == request.value;
      } else {
        QueryOfAppend(base, []);
        assert base + [] == base;
      }
    }

    /** `get`: builds the URL in place, sends the request, handles the response. */
    method Get<T>(endpoint: string, headers: map<string, string>, request: Option<string>,
                  transport: Option<Response>, decode: Json -> Option<T>)
      returns (sent: HttpRequest, r: Result<T, Error>)
      ensures sent == HttpRequest("GET", RequestUrl(endpoint, request), headers)
      ensures transport.None? ==> r == Err(TransportError)
      ensures transport.Some? ==> r == Handler(transport.value, decode)
    {
      var url := host + endpoint;
      if request.Some? {
        if request.value != "" {
          url := url + "?" + request.value;
        }
      }
      sent := HttpRequest("GET", url, headers);
      if transport.None? {
        r := Err(TransportError);
      } else {
        r := Handler(transport.value, decode);
      }
    }

    /** `post`: host and endpoint, never a query string. */
    method Post<T>(endpoint: string, headers: map<string, string>,
                   transport: Option<Response>, decode: Json -> Option<T>)
      returns (sent: HttpRequest, r: Result<T, Error>)
      ensures sent.verb == "POST" && sent.headers == headers
      ensures sent.url == RequestUrl(endpoint, None)
      ensures transport.None? ==> r == Err(TransportError)
      ensures transport.Some? ==> r == Handler(transport.value, decode)
    {
      var url := host + endpoint;
      sent := HttpRequest("POST", url, headers);
      if transport.None? {
        r := Err(TransportError);
      } else {
        r := Handler(transport.value, decode);
      }
    }
  }

  lemma PrefixCancels(p: string, x: string, y: string)
    requires p + x == p + y
    ensures x == y
  {
    assert x == (p + x)[|p|..];
  }

  /** The host the Advanced Trade REST client is built with. */
  const ApiHost: string := "https://api" + ".coinbase" + ".com" + "/api/v3"

  /** No ".com" starts at an index of `host` holding a character other than '.'. */
  lemma NoDotComBefore(host: string, from: nat, to: nat)
    requires from <= to <= |host|
    requires forall j :: from <= j < to ==> host[j] != '.'
    ensures forall j :: from <= j < to ==> !Strings.OccursAt(host, ".com", j)
  {
    forall j | from <= j < to ensures !Strings.OccursAt(host, ".com", j) {
      if j + 4 <= |host| {
        assert host[j..j + 4][0] == host[j];
      }
    }
  }

  /** The host of the Advanced Trade REST API yields the request path "/api/v3". */
  lemma ExtractRequestPathOfApiHost()
    ensures Strings.Find(ApiHost, ".com") == Some(20)
    ensures Client(ApiHost).ExtractRequestPath() == "/api/v3"
  {
    var a, b, c, d := "https://api", ".coinbase", ".com", "/api/v3";
    var host := a + b + c + d;
    assert '.' !in a && '.' !in b[1..];
    assert forall j :: 0 <= j < 11 ==> host[j] == a[j];
    assert forall j :: 12 <= j < 20 ==> host[j] == b[1..][j - 12];
    NoDotComBefore(host, 0, 11);
    NoDotComBefore(host, 12, 20);
    assert host[11..15][3] == b[3] == 'i';
    assert !Strings.OccursAt(host, ".com", 11);
    assert host[20..24] == c;
    assert Strings.OccursAt(host, ".com", 20);
    assert forall j :: 0 <= j < 20 ==> !Strings.OccursAt(host, ".com", j);
    assert host[24..] == d;
  }
}
