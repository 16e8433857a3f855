/**
 * Request signing (src/sig_gen.rs). Both signatures are the lower-case hex
 * text of an HMAC-SHA256 tag (RFC 2104 over the SHA-256 of FIPS 180-4) of a
 * pre-image assembled from the request fields. The MAC itself is a parameter:
 * any function from a key and a message to a 32-byte tag.
 */
module SigGen {
  import opened Wrappers
  import opened Hex
  import Strings

  /** A 32-byte HMAC-SHA256 tag. */
  type Digest = s: seq<byte> | |s| == 32
    witness [0, 0, 0, 0, 0, 0, 0, 0, 0, 0, 0, 0, 0, 0, 0, 0,
             0, 0, 0, 0, 0, 0, 0, 0, 0, 0, 0, 0, 0, 0, 0, 0]

  /** HMAC-SHA256 keyed by the secret, over the UTF-8 bytes of the message. */
  type Mac = (seq<byte>, string) -> Digest

  /** The REST pre-image `format!("{}{}{}{}", ts, httpMethod, request_path, body)`. */
  function RestPreImage(ts: string, httpMethod: string, requestPath: string, body: string): string
  {
    ts + httpMethod + requestPath + body
  }

  /** The WebSocket pre-image `format!("{}{}{}", ts, channel, products.join(","))`. */
  function WsPreImage(ts: string, channel: string, products: seq<string>): string
  {
    ts + channel + Strings.Join(products, ",")
  }

  /** `create_rest_signature`: the hex text of the MAC of the REST pre-image. */
  function CreateRestSignature(mac: Mac, ts: string, httpMethod: string, requestPath: string,
                               body: string, secretKey: seq<byte>): (sig: string)
    ensures |sig| == 64 && IsLowerHex(sig)
    ensures Decode(sig) == Some(mac(secretKey, RestPreImage(ts, httpMethod, requestPath, body)))
  {
    var tag := mac(secretKey, RestPreImage(ts, httpMethod, requestPath, body));
    DecodeEncode(tag);
    Encode(tag)
  }

  /** `create_ws_signature`: the hex text of the MAC of the WebSocket pre-image. */
  function CreateWsSignature(mac: Mac, ts: string, channel: string, products: seq<string>,
                             secretKey: seq<byte>): (sig: string)
    ensures |sig| == 64 && IsLowerHex(sig)
    ensures Decode(sig) == Some(mac(secretKey, WsPreImage(ts, channel, products)))
  {
    var tag := mac(secretKey, WsPreImage(ts, channel, products));
    DecodeEncode(tag);
    Encode(tag)
  }

  /** If `a + x + b == a + y + b` then `x == y`. */
  lemma MiddleCancels(a: string, x: string, y: string, b: string)
    requires a + x + b == a + y + b
    ensures x == y
  {
    assert |x| == |y|;
    assert x == (a + x + b)[|a|..|a| + |x|];
    assert y == (a + y + b)[|a|..|a| + |y|];
  }

  /**
   * The REST pre-image has no separators, yet changing exactly one field
   * (the others kept) always changes it: each field sits at a fixed offset.
   */
  lemma RestPreImageSeparatesFields(ts: string, httpMethod: string, path: string, body: string,
                                    ts': string, httpMethod': string, path': string, body': string)
    ensures RestPreImage(ts, httpMethod, path, body) == RestPreImage(ts', httpMethod, path, body) ==> ts == ts'
    ensures RestPreImage(ts, httpMethod, path, body) == RestPreImage(ts, httpMethod', path, body) ==> httpMethod == httpMethod'
    ensures RestPreImage(ts, httpMethod, path, body) == RestPreImage(ts, httpMethod, path', body) ==> path == path'
    ensures RestPreImage(ts, httpMethod, path, body) == RestPreImage(ts, httpMethod, path, body') ==> body == body'
  {
    if RestPreImage(ts, httpMethod, path, body) == RestPreImage(ts', httpMethod, path, body) {
      assert RestPreImage(ts, httpMethod, path, body) == [] + ts + (httpMethod + path + body);
      assert RestPreImage(ts', httpMethod, path, body) == [] + ts' + (httpMethod + path + body);
      MiddleCancels([], ts, ts', httpMethod + path + body);
    }
    if RestPreImage(ts, httpMethod, path, body) == RestPreImage(ts, httpMethod', path, body) {
      assert RestPreImage(ts, httpMethod, path, body) == ts + httpMethod + (path + body);
      assert RestPreImage(ts, httpMethod', path, body) == ts + httpMethod' + (path + body);
      MiddleCancels(ts, httpMethod, httpMethod', path + body);
    }
    if RestPreImage(ts, httpMethod, path, body) == RestPreImage(ts, httpMethod, path', body) {
      MiddleCancels(ts + httpMethod, path, path', body);
    }
    if RestPreImage(ts, httpMethod, path, body) == RestPreImage(ts, httpMethod, path, body') {
      MiddleCancels(ts + httpMethod + path, body, body', []);
    }
  }

  /**
   * With the timestamp and channel fixed, two product lists give the same
   * WebSocket pre-image exactly when their comma joins agree; for non-empty
   * lists of comma-free product ids, that is exactly when the lists (in order)
   * are equal — so reordering the products changes the pre-image.
   */
  lemma WsPreImageDependsOnProductOrder(ts: string, channel: string, ps: seq<string>, qs: seq<string>)
    requires |ps| >= 1 && |qs| >= 1
    requires forall i :: 0 <= i < |ps| ==> ',' !in ps[i]
    requires forall i :: 0 <= i < |qs| ==> ',' !in qs[i]
    ensures WsPreImage(ts, channel, ps) == WsPreImage(ts, channel, qs) <==> ps == qs
  {
    if WsPreImage(ts, channel, ps) == WsPreImage(ts, channel, qs) {
      MiddleCancels(ts + channel, Strings.Join(ps, ","), Strings.Join(qs, ","), []);
    }
    Strings.JoinInjective(ps, qs, ',');
  }

  /** Two REST signatures agree exactly when the underlying MAC tags agree. */
  lemma RestSignaturesAgreeIffTagsAgree(mac: Mac, key: seq<byte>,
                                        ts: string, httpMethod: string, path: string, body: string,
                                        ts': string, httpMethod': string, path': string, body': string)
    ensures CreateRestSignature(mac, ts, httpMethod, path, body, key) == CreateRestSignature(mac, ts', httpMethod', path', body', key)
            <==> mac(key, RestPreImage(ts, httpMethod, path, body)) == mac(key, RestPreImage(ts', httpMethod', path', body'))
  {
    EncodeInjective(mac(key, RestPreImage(ts, httpMethod, path, body)), mac(key, RestPreImage(ts', httpMethod', path', body')));
  }

  /** The single-product WebSocket pre-image is the plain concatenation, with no comma. */
  lemma WsPreImageSingleProduct(ts: string, channel: string, product: string)
    ensures WsPreImage(ts, channel, [product]) == ts + channel + product
  {
  }
}
