/**
 * `_private_post`: it adds a millisecond `timestamp` to the caller's dict
 * when the dict holds neither `timestamp` nor `nonce`. It url-encodes the
 * dict into one body string and signs that string with HMAC-SHA512 under
 * the API secret. It then posts the same string to the private endpoint,
 * with the `Key` and `Sign` headers.
 *
 * The clock reading `int(time() * 1000)` is the parameter `now`. The HTTP
 * exchange itself is not modelled: the result is the request that would be
 * posted.
 */
module PrivateApi {
  import opened PyDict
  import opened Form

  const ApiUrl := "https://indodax.com/tapi"
  const FormContentType := "application/x-www-form-urlencoded"

  /** The process configuration and library calls a private request needs. */
  datatype Env = Env(
    apiKey: string,                          // INDODAX_API_KEY
    apiSecret: string,                       // INDODAX_API_SECRET
    codec: Codec,                            // what urlencode uses
    hmacSha512Hex: (string, string) -> string  // hmac.new(secret, body, sha512).hexdigest()
  )

  datatype Headers = Headers(key: string, sign: string, contentType: string)

  /** A POST to the private endpoint: the URL, the headers and the body. */
  datatype Request = Request(url: string, headers: Headers, body: string)

  /** The payload keys that make the request unique. */
  predicate HasFreshnessKey(p: Items<Value>)
  {
    "timestamp" in Keys(p) || "nonce" in Keys(p)
  }

  /**
   * The timestamp fill: when neither `timestamp` nor `nonce` is a key, the
   * entry `timestamp = now` is added at the end; otherwise the dict is left
   * as it is.
   */
  function WithTimestamp(p: Items<Value>, now: int): (r: Items<Value>)
    ensures r == if HasFreshnessKey(p) then p else p + [("timestamp", Int(now))]
    ensures HasFreshnessKey(r)
  {
    if !HasFreshnessKey(p) then
      AssignAppends(p, "timestamp", Int(now));
      assert Keys(p + [("timestamp", Int(now))])[|p|] == "timestamp";
      Assign(p, "timestamp", Int(now))
    else p
  }

  /** The request `_private_post` sends for the (already filled) payload `p`. */
  function Signed(p: Items<Value>, env: Env): Request
  {
    var body := UrlEncode(p, env.codec);
    Request(ApiUrl, Headers(env.apiKey, env.hmacSha512Hex(env.apiSecret, body), FormContentType), body)
  }

  /** The request a tool's payload turns into, the timestamp fill included. */
  function Send(env: Env, p: Items<Value>, now: int): Request
  {
    Signed(WithTimestamp(p, now), env)
  }

  /**
   * The exchange's check of a request: it is addressed to the private
   * endpoint, names the configured key, and its `Sign` header is the
   * HMAC-SHA512 of the received body under that key's secret.
   */
  predicate ExchangeAccepts(r: Request, env: Env)
  {
    r.url == ApiUrl && r.headers.key == env.apiKey &&
    r.headers.sign == env.hmacSha512Hex(env.apiSecret, r.body)
  }

  /** `_private_post(payload)`, up to the HTTP call. */
  method PrivatePost(env: Env, payload: Dict<Value>, now: int) returns (req: Request)
    requires payload.Valid()
    modifies payload
    ensures payload.Valid()
    ensures payload.items == WithTimestamp(old(payload.items), now)
    ensures req == Signed(payload.items, env)
  {
    if !payload.Contains("timestamp") && !payload.Contains("nonce") {
      payload.Set("timestamp", Int(now));
    }
    var body := UrlEncode(payload.items, env.codec);
    var sign := env.hmacSha512Hex(env.apiSecret, body);
    var headers := Headers(env.apiKey, sign, FormContentType);
    req := Request(ApiUrl, headers, body);
  }

  /**
   * What is signed is what is posted: the exchange recomputes the signature
   * over the received body and finds the `Sign` header, and decoding that
   * body gives back every pair of the payload, in order.
   */
  lemma SignedBodyReadsBack(p: Items<Value>, env: Env, unquote: string -> string)
    requires |p| > 0
    requires Escapes(env.codec.quotePlus) && Inverts(unquote, env.codec.quotePlus)
    ensures ExchangeAccepts(Signed(p, env), env)
    ensures ParseForm(Signed(p, env).body, unquote) == Rendered(p, env.codec)
  {
    ParseUrlEncode(p, env.codec, unquote);
  }

  /**
   * For a payload without `timestamp` and `nonce`, the posted body is the
   * payload's own encoding followed by one `timestamp` field.
   */
  lemma SendAppendsTimestamp(env: Env, p: Items<Value>, now: int)
    requires |p| > 0 && !HasFreshnessKey(p)
    ensures Send(env, p, now).body ==
      UrlEncode(p, env.codec) + "&" + Field(("timestamp", Int(now)), env.codec)
  {
    UrlEncodeAppend(p, ("timestamp", Int(now)), env.codec);
  }
}
