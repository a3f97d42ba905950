/**
 * The dispatch `Client`. Its configuration is fixed by the constructor; the HTTP
 * transport is not modelled, so every operation takes the `Reply` the transport
 * would give, and the ghost log `sent` records each request handed to it. An
 * operation whose verb is refused leaves `sent` as it was: nothing reached the
 * transport.
 */
module DispatchClient {
  import opened Wrappers
  import opened PhpValues
  import opened AsciiCase
  import opened DispatchWire
  import opened DispatchRequest

  class Client {
    /** The `base_uri` the HTTP client is built with; request paths are relative to it. */
    const baseUri: string
    const userName: Option<Bytes>
    const secretKey: Option<Bytes>
    const debug: bool
    /** Every request handed to the transport, oldest first. */
    ghost var sent: seq<WireRequest>

    /** The logger argument is not modelled: logging has no effect on results. */
    constructor (baseUri: string, userName: Option<Bytes>, secretKey: Option<Bytes>, debug: bool)
      ensures this.baseUri == NormalizeBaseUri(baseUri)
      ensures this.userName == userName && this.secretKey == secretKey && this.debug == debug
      ensures sent == []
    {
      this.userName := userName;
      this.secretKey := secretKey;
      this.debug := debug;
      this.baseUri := baseUri + (if LastChar(baseUri) != "/" then "/" else "");
      sent := [];
    }

    /** What one call to `request(m, url, params)` hands to the transport: nothing for a refused verb. */
    ghost function Sends(m: string, url: string, params: Option<Body>): seq<WireRequest> {
      if IsAllowedMethod(m) then [WireRequest(m, url, Headers(userName, secretKey), params)] else []
    }

    /** `request`: the verb check, the headers, the transport call and the mapping of its reply. */
    method Request(m: string, url: string, params: Option<Body>, reply: Reply)
      returns (r: Result<Option<JsonArray>, Failure>)
      modifies this`sent
      ensures r == RequestOutcome(m, reply)
      ensures sent == old(sent) + Sends(m, url, params)
    {
      var upper := ToUpper(m);
      if upper !in AllowedMethods {
        return Err(ServiceDispatch("Method not allowed [" + upper + "]", MethodNotAllowedCode, None));
      }
      var headers := map["Content-Type" := "application/json",
                          "Authorization" := BasicPrefix + Base64.Encode(OrEmpty(userName) + [':' as byte] + OrEmpty(secretKey))];
      assert headers == Headers(userName, secretKey);
      sent := sent + [WireRequest(m, url, headers, params)];
      match reply {
        case TransportError(cause) =>
          r := Err(ServiceDispatch(TransportFailureMessage, TransportFailureCode, Some(cause)));
        case Delivered(decoded) =>
          if decoded == JNull {
            r := Ok(None);
          } else if IsArray(decoded) {
            r := Ok(Some(decoded));
          } else {
            r := Err(ReturnTypeError);
          }
      }
    }

    method SendAsync(m: string, targetType: string, action: string, payload: Option<JsonArray>,
                     externalId: Option<string>, callbackUrl: Option<string>, reply: Reply)
      returns (r: Result<Option<JsonArray>, Failure>)
      modifies this`sent
      ensures r == RequestOutcome(m, reply)
      ensures sent == old(sent) + Sends(m, CreatePath, Some(SendAsyncBody(targetType, action, payload, externalId, callbackUrl)))
    {
      var body := SendAsyncBody(targetType, action, payload, externalId, callbackUrl);
      r := Request(m, "v" + Version + "/create", Some(body), reply);
    }

    method SendSync(m: string, targetType: string, action: string, payload: Option<JsonArray>,
                    externalId: Option<string>, parallel: bool, reply: Reply)
      returns (r: Result<Option<JsonArray>, Failure>)
      modifies this`sent
      ensures r == RequestOutcome(m, reply)
      ensures sent == old(sent) + Sends(m, CreatePath, Some(SendSyncBody(targetType, action, payload, externalId, parallel)))
    {
      var body := SendSyncBody(targetType, action, payload, externalId, parallel);
      r := Request(m, "v" + Version + "/create", Some(body), reply);
    }

    /** Reads the descriptor through its getters; its async flag and callback URL are never read. */
    method SendRequest(request: DispatchRequest.Request, reply: Reply)
      returns (r: Result<Option<JsonArray>, Failure>)
      modifies this`sent
      ensures r == RequestOutcome(request.httpMethod, reply)
      ensures sent == old(sent) + Sends(request.httpMethod, CreatePath,
        Some(SendRequestBody(request.parallel, request.targetType, request.externalId,
                             request.action, request.payload, request.service)))
    {
      var m := request.GetMethod();
      var parallel := request.IsParallel();
      var targetType := request.GetType();
      var externalId := request.GetExternalId();
      var action := request.GetAction();
      var payload := request.GetPayload();
      var service := request.GetService();
      var body := SendRequestBody(parallel, targetType, externalId, action, payload, service);
      r := Request(m, "v" + Version + "/create", Some(body), reply);
    }

    /** `ping`: a GET of the service root with null params, so the body is the JSON text `null`; a `ServiceDispatchException` becomes false. */
    method Ping(reply: Reply) returns (r: Result<bool, Failure>)
      modifies this`sent
      ensures r == PingOutcome(reply)
      ensures sent == old(sent) + [WireRequest("GET", "", Headers(userName, secretKey), None)]
    {
      assert ToUpper("GET") == "GET";
      var res := Request("GET", "", None, reply);
      match res {
        case Ok(_) => r := Ok(true);
        case Err(ServiceDispatch(_, _, _)) => r := Ok(false);
        case Err(e) => r := Err(e);
      }
    }

    method Transactions(reply: Reply) returns (r: Result<Option<JsonArray>, Failure>)
      modifies this`sent
      ensures r == RequestOutcome("GET", reply)
      ensures sent == old(sent) + [WireRequest("GET", TransactionsPath, Headers(userName, secretKey), None)]
    {
      assert ToUpper("GET") == "GET";
      r := Request("GET", "transactions", None, reply);
    }

    method Transaction(transactionId: Bytes, byExternalId: bool, reply: Reply)
      returns (r: Result<Option<JsonArray>, Failure>)
      modifies this`sent
      ensures r == RequestOutcome("GET", reply)
      ensures sent == old(sent) + [WireRequest("GET", TransactionPath(transactionId, byExternalId), Headers(userName, secretKey), None)]
    {
      assert ToUpper("GET") == "GET";
      var url: string;
      if byExternalId == true {
        url := "transaction?external_id=" + UrlEncoding.Encode(BoolToBytes(byExternalId));
      } else {
        url := "transaction/" + UrlEncoding.Encode(transactionId);
      }
      r := Request("GET", url, None, reply);
    }
  }

  /**
   * A refused verb throws -405 and reaches no transport, whichever reply the
   * transport would have given.
   */
  method RefusedVerbNeverSent(c: Client, reply: Reply) returns (r: Result<Option<JsonArray>, Failure>)
    modifies c`sent
    ensures r == Err(MethodNotAllowed("trace"))
    ensures r.error.message == "Method not allowed [TRACE]" && r.error.code == -405
    ensures c.sent == old(c.sent)
  {
    r := c.Request("trace", "transactions", None, reply);
    TraceRefused();
  }
}
