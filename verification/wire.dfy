/**
 * The pure half of the dispatch client: the base URI it hands to the HTTP client,
 * the verb whitelist, the header map, the request bodies and paths of each entry
 * point, and how a transport reply becomes the value `request` returns or throws.
 */
module DispatchWire {
  import opened Wrappers
  import opened PhpValues
  import opened AsciiCase
  import Base64
  import UrlEncoding

  /** `Client::VERSION`, which names the create endpoint. */
  const Version: string := "0.1"
  const CreatePath: string := "v" + Version + "/create"

  /** `Client::METHOD_GET`, `METHOD_POST`, `METHOD_PUT`, `METHOD_DELETE`. */
  const AllowedMethods: seq<string> := ["GET", "POST", "PUT", "DELETE"]

  // ---------------------------------------------------------------- base URI

  /** `substr(s, -1)`: the last character, or the empty string. */
  function LastChar(s: string): (r: string)
    ensures r == "" <==> s == ""
    ensures s != "" ==> |r| == 1 && r[0] == s[|s| - 1]
  {
    if s == [] then "" else [s[|s| - 1]]
  }

  /** The base URI the HTTP client is built with: a `/` is appended unless already last. */
  function NormalizeBaseUri(uri: string): (r: string)
    ensures |r| > 0 && r[|r| - 1] == '/'
    ensures |uri| <= |r| <= |uri| + 1 && r[..|uri|] == uri
    ensures LastChar(uri) == "/" ==> r == uri
  {
    uri + (if LastChar(uri) != "/" then "/" else "")
  }

  /** Normalising twice is normalising once. */
  lemma NormalizeBaseUriIdempotent(uri: string)
    ensures NormalizeBaseUri(NormalizeBaseUri(uri)) == NormalizeBaseUri(uri)
  {
    var r := NormalizeBaseUri(uri);
    assert LastChar(r) == [r[|r| - 1]];
  }

  // ---------------------------------------------------------------- verbs

  /** For each allowed verb, upper-casing matches it exactly when the two are equal ignoring case. */
  lemma UpperMatchesIffEqualsIgnoringCase(m: string)
    ensures forall v :: v in AllowedMethods ==> (ToUpper(m) == v <==> EqualsIgnoringCase(m, v))
  {
    forall v | v in AllowedMethods
      ensures ToUpper(m) == v <==> EqualsIgnoringCase(m, v)
    {
      assert NoLower(v);
      ToUpperMatchesIffEqualsIgnoringCase(m, v);
    }
  }

  /**
   * The `switch (strtoupper($method))` in `request`: a verb gets past it exactly
   * when it spells GET, POST, PUT or DELETE in any letter case.
   */
  predicate IsAllowedMethod(m: string): (ok: bool)
    ensures ok <==> exists v :: v in AllowedMethods && EqualsIgnoringCase(m, v)
  {
    UpperMatchesIffEqualsIgnoringCase(m);
    ToUpper(m) in AllowedMethods
  }

  /** Lower case is accepted. */
  lemma LowerCaseGetAccepted()
    ensures IsAllowedMethod("get")
  {
    assert ToUpper("get") == "GET";
  }

  /** Mixed case is accepted. */
  lemma MixedCaseDeleteAccepted()
    ensures IsAllowedMethod("Delete")
  {
    assert ToUpper("Delete") == "DELETE";
  }

  /** PATCH is not among the verbs. */
  lemma PatchRefused()
    ensures !IsAllowedMethod("PATCH")
  {
    assert ToUpper("PATCH") == "PATCH";
  }

  /** TRACE is refused, and the message names it in upper case. */
  lemma TraceRefused()
    ensures !IsAllowedMethod("trace")
    ensures MethodNotAllowed("trace").message == "Method not allowed [TRACE]"
  {
    assert ToUpper("trace") == "TRACE";
  }

  // ---------------------------------------------------------------- headers

  /** `$userName . ':' . $secretKey`, where a null side contributes nothing. */
  function Credentials(userName: Option<Bytes>, secretKey: Option<Bytes>): (c: Bytes)
    ensures var u, k := OrEmpty(userName), OrEmpty(secretKey);
      |c| == |u| + 1 + |k| && c[..|u|] == u && c[|u|] == ':' as byte && c[|u| + 1..] == k
  {
    OrEmpty(userName) + [':' as byte] + OrEmpty(secretKey)
  }

  const BasicPrefix: string := "Basic "

  /**
   * The header map of every request: JSON content type and HTTP Basic credentials,
   * which decode back to `user:secret`.
   */
  function Headers(userName: Option<Bytes>, secretKey: Option<Bytes>): (h: map<string, string>)
    ensures h.Keys == {"Content-Type", "Authorization"}
    ensures h["Content-Type"] == "application/json"
    ensures |h["Authorization"]| > |BasicPrefix| && h["Authorization"][..|BasicPrefix|] == BasicPrefix
    ensures Base64.Decode(h["Authorization"][|BasicPrefix|..]) == Some(Credentials(userName, secretKey))
  {
    var encoded := Base64.Encode(Credentials(userName, secretKey));
    Base64.DecodeEncode(Credentials(userName, secretKey));
    assert (BasicPrefix + encoded)[|BasicPrefix|..] == encoded;
    map["Content-Type" := "application/json", "Authorization" := BasicPrefix + encoded]
  }

  /** A null credential and an empty one give the same header. */
  lemma NullCredentialIsEmpty(userName: Option<Bytes>, secretKey: Option<Bytes>)
    ensures Headers(None, secretKey) == Headers(Some([]), secretKey)
    ensures Headers(userName, None) == Headers(userName, Some([]))
  {
  }

  // ---------------------------------------------------------------- bodies

  /** The PHP array handed to `json_encode` as the request body. */
  type Body = map<string, Json>

  /** The keys every create body has. */
  const BaseKeys: set<string> := {"parallel", "async", "type", "external_id", "action", "payload"}

  /** The fields of a create body as the dispatch service reads them: an absent key reads as null. */
  datatype CreateFields = CreateFields(
    parallel: bool,
    async: bool,
    targetType: Option<string>,
    externalId: Option<string>,
    action: Option<string>,
    payload: Option<JsonArray>,
    service: Option<string>,
    callbackUrl: Option<string>)

  function ReadFlag(body: Body, key: string): Option<bool> {
    if key in body && body[key].JBool? then Some(body[key].b) else None
  }

  function ReadString(body: Body, key: string): Option<Option<string>> {
    if key !in body || body[key] == JNull then Some(None)
    else if body[key].JString? then Some(Some(body[key].s))
    else None
  }

  function ReadArray(body: Body, key: string): Option<Option<JsonArray>> {
    if key !in body || body[key] == JNull then Some(None)
    else if IsArray(body[key]) then Some(Some(body[key]))
    else None
  }

  /** Reads a create body back into its fields; `None` when a field has the wrong shape. */
  function ReadCreateBody(body: Body): Option<CreateFields> {
    match (ReadFlag(body, "parallel"), ReadFlag(body, "async"), ReadString(body, "type"),
           ReadString(body, "external_id"), ReadString(body, "action"), ReadArray(body, "payload"),
           ReadString(body, "service"), ReadString(body, "callback_url"))
    case (Some(p), Some(a), Some(t), Some(e), Some(ac), Some(pl), Some(s), Some(cb)) =>
      Some(CreateFields(p, a, t, e, ac, pl, s, cb))
    case _ => None
  }

  /** `sendAsync`: forced parallel and async; the caller's fields and callback URL; no service key. */
  function SendAsyncBody(targetType: string, action: string, payload: Option<JsonArray>,
                         externalId: Option<string>, callbackUrl: Option<string>): (body: Body)
    ensures body.Keys == BaseKeys + {"callback_url"}
    ensures ReadCreateBody(body) ==
      Some(CreateFields(true, true, Some(targetType), externalId, Some(action), payload, None, callbackUrl))
  {
    map["parallel" := JBool(true), "async" := JBool(true), "type" := JString(targetType),
        "external_id" := NullableString(externalId), "action" := JString(action),
        "payload" := NullableArray(payload), "callback_url" := NullableString(callbackUrl)]
  }

  /** `sendSync`: async off, the caller's parallel flag; neither callback URL nor service key. */
  function SendSyncBody(targetType: string, action: string, payload: Option<JsonArray>,
                        externalId: Option<string>, parallel: bool): (body: Body)
    ensures body.Keys == BaseKeys
    ensures ReadCreateBody(body) ==
      Some(CreateFields(parallel, false, Some(targetType), externalId, Some(action), payload, None, None))
  {
    map["parallel" := JBool(parallel), "async" := JBool(false), "type" := JString(targetType),
        "external_id" := NullableString(externalId), "action" := JString(action),
        "payload" := NullableArray(payload)]
  }

  /**
   * `sendRequest`: the descriptor's fields and service; `async` is the descriptor's
   * parallel flag (its own async flag is not read) and there is no callback URL key.
   */
  function SendRequestBody(parallel: bool, targetType: Option<string>, externalId: Option<string>,
                           action: Option<string>, payload: Option<JsonArray>,
                           service: Option<string>): (body: Body)
    ensures body.Keys == BaseKeys + {"service"}
    ensures ReadCreateBody(body) ==
      Some(CreateFields(parallel, parallel, targetType, externalId, action, payload, service, None))
  {
    map["parallel" := JBool(parallel), "async" := JBool(parallel), "type" := NullableString(targetType),
        "external_id" := NullableString(externalId), "action" := NullableString(action),
        "payload" := NullableArray(payload), "service" := NullableString(service)]
  }

  /** A non-parallel descriptor is sent as `sendSync` would send it, plus its service. */
  lemma SendRequestExtendsSendSync(targetType: string, action: string, payload: Option<JsonArray>,
                                   externalId: Option<string>, service: Option<string>)
    ensures SendRequestBody(false, Some(targetType), externalId, Some(action), payload, service) ==
            SendSyncBody(targetType, action, payload, externalId, false)["service" := NullableString(service)]
  {
  }

  /** A parallel descriptor is sent as `sendAsync` would send it, with its service in place of a callback URL. */
  lemma SendRequestParallelMatchesSendAsync(targetType: string, action: string, payload: Option<JsonArray>,
                                            externalId: Option<string>, service: Option<string>)
    ensures SendRequestBody(true, Some(targetType), externalId, Some(action), payload, service) ==
            (SendAsyncBody(targetType, action, payload, externalId, None) - {"callback_url"})["service" := NullableString(service)]
  {
  }

  // ---------------------------------------------------------------- paths

  const TransactionsPath: string := "transactions"
  const ByIdPrefix: string := "transaction/"
  const ByExternalIdPrefix: string := "transaction?external_id="

  /**
   * `transaction($transactionId, $externalId)` as written: the external-id branch
   * url-encodes the boolean flag, whose string form is "1", instead of the id.
   */
  function TransactionPath(transactionId: Bytes, byExternalId: bool): (path: string)
    ensures byExternalId ==> path == "transaction?external_id=1"
    ensures !byExternalId ==>
      |path| >= |ByIdPrefix| && path[..|ByIdPrefix|] == ByIdPrefix &&
      UrlEncoding.Decode(path[|ByIdPrefix|..]) == Some(transactionId)
  {
    if byExternalId then
      assert UrlEncoding.Encode(BoolToBytes(byExternalId)) == "1" by {
        assert UrlEncoding.EncodeByte('1' as byte) == "1";
      }
      ByExternalIdPrefix + UrlEncoding.Encode(BoolToBytes(byExternalId))
    else
      UrlEncoding.DecodeEncode(transactionId);
      assert (ByIdPrefix + UrlEncoding.Encode(transactionId))[|ByIdPrefix|..] == UrlEncoding.Encode(transactionId);
      ByIdPrefix + UrlEncoding.Encode(transactionId)
  }

  /** As written, every lookup by external id targets the same path, whatever the id. */
  lemma ExternalIdLookupIgnoresId(a: Bytes, b: Bytes)
    ensures TransactionPath(a, true) == TransactionPath(b, true)
  {
  }

  /** The lookup path the external-id branch evidently means: the id, url-encoded. */
  function IntendedTransactionPath(transactionId: Bytes, byExternalId: bool): string {
    (if byExternalId then ByExternalIdPrefix else ByIdPrefix) + UrlEncoding.Encode(transactionId)
  }

  /** Distinct lookups target distinct paths, and the by-id lookup is the one written. */
  lemma IntendedTransactionPathInjective(a: Bytes, x: bool, b: Bytes, y: bool)
    ensures IntendedTransactionPath(a, false) == TransactionPath(a, false)
    ensures IntendedTransactionPath(a, x) == IntendedTransactionPath(b, y) ==> a == b && x == y
  {
    var pa, pb := IntendedTransactionPath(a, x), IntendedTransactionPath(b, y);
    if pa == pb {
      var prefixA := if x then ByExternalIdPrefix else ByIdPrefix;
      var prefixB := if y then ByExternalIdPrefix else ByIdPrefix;
      // both prefixes begin with "transaction"; the next character, `/` or `?`, tells them apart
      var k := |"transaction"|;
      assert pa[k] == prefixA[k] && pb[k] == prefixB[k];
      assert x == y;
      assert pa[|prefixA|..] == UrlEncoding.Encode(a);
      assert pb[|prefixB|..] == UrlEncoding.Encode(b);
      UrlEncoding.EncodeInjective(a, b);
    }
  }

  // ---------------------------------------------------------------- outcomes

  /** What the transport does with a request: fail, or deliver a body that `json_decode` turns into a value. */
  datatype Reply =
    | TransportError(cause: string)
    | Delivered(decoded: Json)

  /** What `request` throws: a `ServiceDispatchException`, or the `TypeError` of its `?array` return type. */
  datatype Failure =
    | ServiceDispatch(message: string, code: int, previous: Option<string>)
    | ReturnTypeError

  /**
   * A request as the transport receives it; the verb is passed on as the caller
   * wrote it. The body is always `json_encode` of the params: `None` stands for
   * null params, which go out as the JSON text `null`.
   */
  datatype WireRequest = WireRequest(verb: string, url: string, headers: map<string, string>, body: Option<Body>)

  const MethodNotAllowedCode: int := -405
  const TransportFailureCode: int := -1
  const TransportFailureMessage: string := "Error with ServiceDispatch"

  const NotAllowedPrefix: string := "Method not allowed ["

  /**
   * The `ServiceDispatchException` for a refused verb: code -405, no previous
   * exception, and a message that names the verb in upper case between brackets.
   */
  function MethodNotAllowed(m: string): (f: Failure)
    ensures f.ServiceDispatch? && f.code == MethodNotAllowedCode && f.previous.None?
    ensures |f.message| == |NotAllowedPrefix| + |m| + 1
    ensures f.message[..|NotAllowedPrefix|] == NotAllowedPrefix && f.message[|f.message| - 1] == ']'
    ensures var named := f.message[|NotAllowedPrefix|..|f.message| - 1];
      EqualsIgnoringCase(named, m) && NoLower(named)
  {
    var u := ToUpper(m);
    assert forall i :: 0 <= i < |u| ==> SameIgnoringCase(u[i], m[i]);
    assert (NotAllowedPrefix + u + "]")[|NotAllowedPrefix|..|NotAllowedPrefix| + |u|] == u;
    ServiceDispatch(NotAllowedPrefix + u + "]", MethodNotAllowedCode, None)
  }

  /** The decoded body returned through the `?array` return type: null, an array, or a `TypeError`. */
  function ReturnDecoded(decoded: Json): (r: Result<Option<JsonArray>, Failure>)
    ensures r == Ok(None) <==> decoded == JNull
    ensures r.Ok? && r.value.Some? <==> IsArray(decoded)
    ensures r.Ok? && r.value.Some? ==> r.value.value == decoded
    ensures r.Err? ==> r.error == ReturnTypeError
  {
    if decoded == JNull then Ok(None)
    else if IsArray(decoded) then Ok(Some(decoded))
    else Err(ReturnTypeError)
  }

  /** What `request($method, ...)` returns or throws, given the transport's reply. */
  function RequestOutcome(m: string, reply: Reply): (r: Result<Option<JsonArray>, Failure>)
    ensures r.Err? && r.error.ServiceDispatch? && r.error.code == MethodNotAllowedCode <==> !IsAllowedMethod(m)
    ensures !IsAllowedMethod(m) ==> r == Err(MethodNotAllowed(m))
    ensures r.Err? && r.error.ServiceDispatch? && r.error.code == TransportFailureCode <==>
      IsAllowedMethod(m) && reply.TransportError?
    ensures IsAllowedMethod(m) && reply.TransportError? ==>
      r == Err(ServiceDispatch(TransportFailureMessage, TransportFailureCode, Some(reply.cause)))
    ensures IsAllowedMethod(m) && reply.Delivered? ==> r == ReturnDecoded(reply.decoded)
  {
    if !IsAllowedMethod(m) then Err(MethodNotAllowed(m))
    else match reply
      case TransportError(cause) => Err(ServiceDispatch(TransportFailureMessage, TransportFailureCode, Some(cause)))
      case Delivered(decoded) => ReturnDecoded(decoded)
  }

  /**
   * `ping()` as written: `request('GET', '')` returning means true, a caught
   * `\Exception` means false, and the `TypeError` of a scalar body escapes.
   */
  function PingOutcome(reply: Reply): (r: Result<bool, Failure>)
    ensures r == Ok(true) <==> reply.Delivered? && (reply.decoded == JNull || IsArray(reply.decoded))
    ensures r == Ok(false) <==> reply.TransportError?
    ensures r.Err? ==> r.error == ReturnTypeError
  {
    assert ToUpper("GET") == "GET";
    match RequestOutcome("GET", reply)
    case Ok(_) => Ok(true)
    case Err(ServiceDispatch(_, _, _)) => Ok(false)
    case Err(e) => Err(e)
  }

  /** As written, a body that decodes to a scalar makes `ping` throw instead of answering. */
  lemma PingThrowsOnScalarBody()
    ensures PingOutcome(Delivered(JBool(true))) == Err(ReturnTypeError)
    ensures PingOutcome(Delivered(JString("OK"))) == Err(ReturnTypeError)
  {
  }

  /** The liveness answer `ping` evidently means: true exactly when `request` returns, never a throw. */
  function IntendedPing(reply: Reply): (alive: bool)
    ensures alive <==> RequestOutcome("GET", reply).Ok?
    ensures !alive <==> reply.TransportError? || (reply.decoded != JNull && !IsArray(reply.decoded))
  {
    assert ToUpper("GET") == "GET";
    RequestOutcome("GET", reply).Ok?
  }
}
