# Dispatch client: a Dafny model of its request building

This project models the PHP client of a remote "dispatch" service. The service fans an action out to one or more downstream services. The client builds requests for it in several ways:

- `sendAsync`, `sendSync` and `sendRequest` create a transaction at `v0.1/create`.
- `transactions` and `transaction` query it.
- `ping` probes the service root.

All of them go through one private `request` method. That method checks the HTTP verb against a whitelist and attaches a JSON content type and HTTP Basic credentials. It hands the call to an HTTP client, then either returns the decoded JSON or wraps a transport failure in a `ServiceDispatchException`. The descriptor `Request` and the records `Response` and `ResponseItem` are plain mutable records with getters and setters.

Modules, one per concern:

- `Wrappers` (`wrappers.dfy`): `Option` for PHP's nullable values and `Result` for "returns or throws".
- `PhpValues` (`php_values.dfy`): bytes, the JSON values exchanged with `json_encode` and `json_decode`, and the `array` subset of them.
- `AsciiCase` (`ascii_case.dfy`): `strtoupper` and case-insensitive equality.
- `Base64` (`base64.dfy`): `base64_encode`, the encoding of section 4 of RFC 4648. It has a canonical decoder, and the round trip is proved in both directions.
- `UrlEncoding` (`url_encoding.dfy`): `urlencode`, with a decoder and proofs of round trip and injectivity.
- `DispatchWire` (`wire.dfy`): the pure parts of `src/Client.php`. These are:
  - base-URI normalisation, the verb whitelist and the header map;
  - the body and path of every entry point;
  - how a transport reply becomes `request`'s result or exception.
- `DispatchClient` (`client.dfy`): the `Client` class. Each method follows the source step by step and is proved against the functions of `DispatchWire`. A ghost log `sent` records every request handed to the transport.
- `DispatchRequest`, `DispatchResponse`, `DispatchResponseItem`: the three records as classes. Each setter's `modifies this`field` frame allows it to change only its own field.

How the outside world is represented:

- **Transport.** Each operation takes a `Reply` parameter: either a transport error (any Guzzle exception, non-2xx statuses included) or a delivered body already passed through `json_decode`. JSON null stands for an empty or invalid body, since `json_decode` gives null for those.
- **The log.** A refused verb leaves `sent` unchanged, so "rejected before any transport call" is part of the contracts.
- **Byte strings.** PHP strings are byte strings. User name, secret key and transaction id are modelled as bytes, because `base64_encode` and `urlencode` work on their bytes. The other strings pass through unchanged and are modelled as `string`.

Behaviour of the code that the model keeps as it is:

- Authentication is HTTP Basic over `user:secret`, not a Bearer token, and no version header is sent.
- PATCH is not an allowed verb.
- `sendRequest` sends the descriptor's `parallel` flag as `async` too, and sends no `callback_url`.
- `ping` checks for no marker key.
- Nothing decodes into `Response` or `ResponseItem`: `request` returns the decoded array.
- A body that decodes to a scalar escapes `ping` as a PHP `TypeError` (see Findings).

## Model

| member | source | states |
|---|---|---|
| `DispatchWire.LastChar` | src/Client.php:56 | `substr($baseUri, -1)` is empty exactly for the empty URI, and otherwise is the last character. |
| `DispatchWire.NormalizeBaseUri` | src/Client.php:56 | The base URI ends in `/`, starts with the given URI and adds at most one character; a URI already ending in `/` is kept as it is. |
| `DispatchWire.NormalizeBaseUriIdempotent` | src/Client.php:56 | Normalising an already normalised base URI changes nothing. |
| `AsciiCase.ToUpper` | src/Client.php:174 | `strtoupper` keeps the length, upper-cases each ASCII letter position by position, leaves other characters alone, and leaves no lower-case letter. |
| `AsciiCase.ToUpperIdempotent` | src/Client.php:174 | Upper-casing an upper-cased verb changes nothing. |
| `AsciiCase.ToUpperOfNoLower` | src/Client.php:14-17 | A string without lower-case letters, such as each allowed verb, is its own upper-case form. |
| `AsciiCase.ToUpperMatchesIffEqualsIgnoringCase` | src/Client.php:174-179 | For an upper-case target, upper-casing a string gives the target exactly when the two are equal ignoring ASCII case. |
| `DispatchWire.UpperMatchesIffEqualsIgnoringCase` | src/Client.php:14-17 | For each of GET, POST, PUT and DELETE, the upper-cased verb equals it exactly when the verb equals it ignoring case. |
| `DispatchWire.IsAllowedMethod` | src/Client.php:174-182 | The `switch` lets a verb through exactly when it is GET, POST, PUT or DELETE in some letter case. |
| `DispatchWire.LowerCaseGetAccepted` | src/Client.php:174-175 | "get" is accepted. |
| `DispatchWire.MixedCaseDeleteAccepted` | src/Client.php:174-178 | "Delete" is accepted. |
| `DispatchWire.PatchRefused` | src/Client.php:174-181 | "PATCH" is refused: it is not among the allowed verbs. |
| `DispatchWire.TraceRefused` | src/Client.php:174-181 | "trace" is refused, with the message `Method not allowed [TRACE]`. |
| `DispatchWire.MethodNotAllowed` | src/Client.php:181 | The refusal is a `ServiceDispatchException` with code -405 and no previous exception. Its message is `Method not allowed [` then the verb, equal to the given one ignoring case and with no lower-case letter, then `]`. |
| `PhpValues.OrEmpty` | src/Client.php:186 | A null user name or secret adds nothing to the concatenated credentials. |
| `DispatchWire.Credentials` | src/Client.php:186 | The credentials are the user name, one `:` byte and the secret key, in that order, with null taken as empty. |
| `Base64.Encode` | src/Client.php:186 | `base64_encode` output has 4 characters for every started group of 3 bytes. |
| `Base64.EncodeAlphabet` | src/Client.php:186 | Every output character is in the RFC 4648 alphabet or is the `=` pad. |
| `Base64.Rfc4648VectorF` | src/Client.php:186 | The RFC 4648 section 10 vectors: "" encodes to "", "f" to "Zg==". |
| `Base64.Rfc4648VectorFo` | src/Client.php:186 | RFC 4648 section 10: "fo" encodes to "Zm8=". |
| `Base64.Rfc4648VectorFoo` | src/Client.php:186 | RFC 4648 section 10: "foo" encodes to "Zm9v". |
| `Base64.Rfc4648VectorsFoob` | src/Client.php:186 | RFC 4648 section 10: "foob", "fooba" and "foobar" encode to "Zm9vYg==", "Zm9vYmE=" and "Zm9vYmFy". |
| `Base64.DecodeEncode` | src/Client.php:186 | Decoding the Base64 encoding of any bytes gives back those bytes. |
| `Base64.EncodeDecode` | src/Client.php:186 | Any string the decoder accepts is exactly the encoding of the bytes it decodes to, so the encoding is canonical. |
| `DispatchWire.Headers` | src/Client.php:184-187 | The header map has exactly `Content-Type: application/json` and `Authorization`. The `Authorization` value is `Basic ` followed by text that Base64-decodes to `user:secret`. |
| `DispatchWire.NullCredentialIsEmpty` | src/Client.php:186 | A null user name or secret gives the same headers as an empty one. |
| `DispatchWire.SendAsyncBody` | src/Client.php:73-84 | The `sendAsync` body reads back as parallel=true and async=true, with the caller's type, external_id, action, payload and callback_url unchanged. It has a `callback_url` key and no `service` key. |
| `DispatchWire.SendSyncBody` | src/Client.php:96-106 | The `sendSync` body reads back as async=false with the caller's parallel flag, type, external_id, action and payload. It has neither `callback_url` nor `service` keys. |
| `DispatchWire.SendRequestBody` | src/Client.php:113-124 | The `sendRequest` body reads back as the descriptor's parallel flag, type, external_id, action, payload and service. Its async equals its parallel flag, and it has no `callback_url` key. |
| `DispatchWire.SendRequestExtendsSendSync` | src/Client.php:96-124 | For a non-parallel descriptor, the `sendRequest` body is the `sendSync` body plus a `service` key. |
| `DispatchWire.SendRequestParallelMatchesSendAsync` | src/Client.php:73-124 | For a parallel descriptor, the `sendRequest` body is the `sendAsync` body with `service` in place of `callback_url`. |
| `UrlEncoding.Encode` | src/Client.php:160 | `urlencode` output is at least as long as its input and at most three times as long. It only uses unreserved characters, `+` and `%`. |
| `UrlEncoding.DecodeEncode` | src/Client.php:160 | Decoding the `urlencode` of any bytes gives back those bytes. |
| `UrlEncoding.EncodeDecode` | src/Client.php:160 | Any string the decoder accepts is exactly the `urlencode` of the bytes it decodes to. |
| `UrlEncoding.EncodeExamples` | src/Client.php:160 | `urlencode` writes a space as `+`, and `/` and `?` as `%2F` and `%3F`. |
| `UrlEncoding.EncodeInjective` | src/Client.php:160 | Distinct byte strings have distinct `urlencode` encodings. |
| `PhpValues.BoolToBytes` | src/Client.php:158 | PHP's string form of a boolean is `"1"` for true and empty for false. |
| `DispatchWire.TransactionPath` | src/Client.php:155-162 | A lookup by id targets `transaction/` followed by text that url-decodes to the id. A lookup by external id always targets `transaction?external_id=1`. |
| `DispatchWire.ExternalIdLookupIgnoresId` | src/Client.php:157-158 | As written, lookups by external id of any two ids target the same path. |
| `DispatchWire.IntendedTransactionPathInjective` | src/Client.php:155-162 | With the id url-encoded in both branches, distinct (id, flag) pairs target distinct paths, and the by-id path is the one the code builds. |
| `DispatchWire.ReturnDecoded` | src/Client.php:201-202 | The decoded body is returned as null for JSON null or undecodable text, and unchanged for an array. Any other value is a `TypeError` of the `?array` return type. |
| `DispatchWire.RequestOutcome` | src/Client.php:171-209 | `request` throws code -405 exactly when the verb is refused, with the message `Method not allowed [<UPPER>]`. It throws code -1, with the message `Error with ServiceDispatch` and the transport error as previous exception, exactly when an allowed verb meets a transport failure. Otherwise it returns the decoded body. |
| `DispatchWire.PingOutcome` | src/Client.php:130-138 | `ping` is true exactly when the transport delivers null or an array, and false exactly on a transport failure. The only thing it throws is the `TypeError` of a scalar body. |
| `DispatchWire.PingThrowsOnScalarBody` | src/Client.php:130-138 | As written, a body that decodes to `true` or to a string makes `ping` throw. |
| `DispatchWire.IntendedPing` | src/Client.php:130-138 | A `ping` that catches every throwable answers true exactly when `request` returns, and false on a transport failure or a scalar body. |
| `DispatchClient.Client.constructor` | src/Client.php:49-61 | Stores the normalised base URI, the credentials and the debug flag. Nothing has been sent yet. |
| `DispatchClient.Client.Request` | src/Client.php:171-209 | Returns or throws `RequestOutcome`. A refused verb sends nothing. An allowed verb sends one request with the verb as written, the path, the headers and the body. |
| `DispatchClient.Client.SendAsync` | src/Client.php:73-84 | Sends `SendAsyncBody` to `v0.1/create` (nothing for a refused verb) and returns `RequestOutcome`. |
| `DispatchClient.Client.SendSync` | src/Client.php:96-106 | Sends `SendSyncBody` to `v0.1/create` (nothing for a refused verb) and returns `RequestOutcome`. |
| `DispatchClient.Client.SendRequest` | src/Client.php:113-124 | Sends `SendRequestBody` of the descriptor's verb, parallel flag, type, external id, action, payload and service to `v0.1/create`, and returns `RequestOutcome` of the descriptor's verb. |
| `DispatchClient.Client.Ping` | src/Client.php:130-138 | Sends one GET to the empty path with null params, so the body is the JSON text `null`, and answers `PingOutcome`. |
| `DispatchClient.Client.Transactions` | src/Client.php:144-147 | Sends one GET to `transactions` with null params, so the body is the JSON text `null`, and returns the GET outcome. |
| `DispatchClient.Client.Transaction` | src/Client.php:155-162 | Sends one GET to `TransactionPath(id, flag)` with null params, so the body is the JSON text `null`, and returns the GET outcome. |
| `DispatchClient.RefusedVerbNeverSent` | src/Client.php:174-181 | A `trace` request throws code -405 with `Method not allowed [TRACE]` and leaves the transport log unchanged, whatever the transport would have replied. |
| `DispatchRequest.Request.constructor` | src/Request.php:10-50 | A fresh descriptor has method `GET`, async and parallel false, and type, action, payload, external id, service and callback URL null. |
| `DispatchRequest.Request.GetMethod` | src/Request.php:55-58 | Returns `httpMethod` and changes nothing. |
| `DispatchRequest.Request.SetMethod` | src/Request.php:63-66 | Afterwards `httpMethod` is the given value. Its frame lets it change no other field. The verb is stored verbatim, with no upper-casing and no whitelist check. |
| `DispatchRequest.Request.GetType` | src/Request.php:71-74 | Returns `targetType` and changes nothing. |
| `DispatchRequest.Request.SetType` | src/Request.php:79-82 | Afterwards `targetType` is the given value. Its frame lets it change no other field. |
| `DispatchRequest.Request.GetAction` | src/Request.php:87-90 | Returns `action` and changes nothing. |
| `DispatchRequest.Request.SetAction` | src/Request.php:95-98 | Afterwards `action` is the given value. Its frame lets it change no other field. |
| `DispatchRequest.Request.GetPayload` | src/Request.php:103-106 | Returns `payload` and changes nothing. |
| `DispatchRequest.Request.SetPayload` | src/Request.php:111-114 | Afterwards `payload` is the given value. Its frame lets it change no other field. |
| `DispatchRequest.Request.GetExternalId` | src/Request.php:119-122 | Returns `externalId` and changes nothing. |
| `DispatchRequest.Request.SetExternalId` | src/Request.php:127-130 | Afterwards `externalId` is the given value. Its frame lets it change no other field. |
| `DispatchRequest.Request.GetService` | src/Request.php:135-138 | Returns `service` and changes nothing. |
| `DispatchRequest.Request.SetService` | src/Request.php:143-146 | Afterwards `service` is the given value. Its frame lets it change no other field. |
| `DispatchRequest.Request.IsAsync` | src/Request.php:151-154 | Returns `async` and changes nothing. |
| `DispatchRequest.Request.SetAsync` | src/Request.php:159-162 | Afterwards `async` is the given value. Its frame lets it change no other field. `parallel` is left as it was. |
| `DispatchRequest.Request.IsParallel` | src/Request.php:167-170 | Returns `parallel` and changes nothing. |
| `DispatchRequest.Request.SetParallel` | src/Request.php:175-178 | Afterwards `parallel` is the given value. Its frame lets it change no other field. `async` is left as it was. |
| `DispatchRequest.Request.GetCallbackUrl` | src/Request.php:183-186 | Returns `callbackUrl` and changes nothing. |
| `DispatchRequest.Request.SetCallbackUrl` | src/Request.php:191-194 | Afterwards `callbackUrl` is the given value. Its frame lets it change no other field. |
| `DispatchRequest.SetThenGet` | src/Request.php:55-178 | Setting async, parallel and method and reading them back gives the values set. Setting async leaves parallel as it was, and the six fields not set keep their values. |
| `DispatchResponse.Response.constructor` | src/Response.php:10-35 | A fresh record has all six fields null, `success` included. |
| `DispatchResponse.Response.GetTransactionId` | src/Response.php:40-43 | Returns `transactionId` exactly and changes nothing. |
| `DispatchResponse.Response.SetTransactionId` | src/Response.php:48-51 | Afterwards `transactionId` is the given value. Its frame lets it change none of the other five fields. |
| `DispatchResponse.Response.GetTransactionItemId` | src/Response.php:56-59 | Returns `transactionItemId` exactly and changes nothing. |
| `DispatchResponse.Response.SetTransactionItemId` | src/Response.php:64-67 | Afterwards `transactionItemId` is the given value. Its frame lets it change none of the other five fields. |
| `DispatchResponse.Response.GetSuccess` | src/Response.php:72-75 | Returns `success` exactly and changes nothing. A null is returned as null, not false. |
| `DispatchResponse.Response.SetSuccess` | src/Response.php:80-83 | Afterwards `success` is the given value. Its frame lets it change none of the other five fields. It keeps all three states: true, false or null. |
| `DispatchResponse.Response.GetStatusCode` | src/Response.php:88-91 | Returns `statusCode` exactly and changes nothing. |
| `DispatchResponse.Response.SetStatusCode` | src/Response.php:96-99 | Afterwards `statusCode` is the given value. Its frame lets it change none of the other five fields. |
| `DispatchResponse.Response.GetContentType` | src/Response.php:104-107 | Returns `contentType` exactly and changes nothing. |
| `DispatchResponse.Response.SetContentType` | src/Response.php:112-115 | Afterwards `contentType` is the given value. Its frame lets it change none of the other five fields. |
| `DispatchResponse.Response.GetResponse` | src/Response.php:120-123 | Returns `response` exactly and changes nothing. |
| `DispatchResponse.Response.SetResponse` | src/Response.php:128-131 | Afterwards `response` is the given value. Its frame lets it change none of the other five fields. |
| `DispatchResponse.SuccessKeepsThreeStates` | src/Response.php:72-83 | A `success` that is set, null included, reads back unchanged, and other fields keep their values. |
| `DispatchResponseItem.ResponseItem.constructor` | src/ResponseItem.php:10-35 | A fresh record has all six fields null, `success` included. |
| `DispatchResponseItem.ResponseItem.GetTransactionItemId` | src/ResponseItem.php:40-43 | Returns `transactionItemId` exactly and changes nothing. |
| `DispatchResponseItem.ResponseItem.SetTransactionItemId` | src/ResponseItem.php:48-51 | Afterwards `transactionItemId` is the given value. Its frame lets it change none of the other five fields. |
| `DispatchResponseItem.ResponseItem.IsSuccess` | src/ResponseItem.php:56-59 | Returns `success` exactly and changes nothing. A null is returned as null, not false. |
| `DispatchResponseItem.ResponseItem.SetSuccess` | src/ResponseItem.php:64-67 | Afterwards `success` is the given value. Its frame lets it change none of the other five fields. It keeps all three states: true, false or null. |
| `DispatchResponseItem.ResponseItem.GetStatusCode` | src/ResponseItem.php:72-75 | Returns `statusCode` exactly and changes nothing. |
| `DispatchResponseItem.ResponseItem.SetStatusCode` | src/ResponseItem.php:80-83 | Afterwards `statusCode` is the given value. Its frame lets it change none of the other five fields. |
| `DispatchResponseItem.ResponseItem.GetContentType` | src/ResponseItem.php:88-91 | Returns `contentType` exactly and changes nothing. |
| `DispatchResponseItem.ResponseItem.SetContentType` | src/ResponseItem.php:96-99 | Afterwards `contentType` is the given value. Its frame lets it change none of the other five fields. |
| `DispatchResponseItem.ResponseItem.GetService` | src/ResponseItem.php:104-107 | Returns `service` exactly and changes nothing. |
| `DispatchResponseItem.ResponseItem.SetService` | src/ResponseItem.php:112-115 | Afterwards `service` is the given value. Its frame lets it change none of the other five fields. |
| `DispatchResponseItem.ResponseItem.GetResponse` | src/ResponseItem.php:120-123 | Returns `response` exactly and changes nothing. |
| `DispatchResponseItem.ResponseItem.SetResponse` | src/ResponseItem.php:128-131 | Afterwards `response` is the given value. Its frame lets it change none of the other five fields. |
| `DispatchResponseItem.SuccessKeepsThreeStates` | src/ResponseItem.php:56-67 | A `success` that is set, null included, reads back unchanged, and other fields keep their values. |
## Left out

- The Guzzle HTTP client and the network call: replaced by the `Reply` parameter and the ghost `sent` log. Guzzle's resolution of the path against the base URI is not modelled; the log records the relative path.
- `json_encode` of the body and `json_decode` of the reply: the body is a map from keys to JSON values, and the reply arrives already decoded. Key order in the encoded body, encoding failures and non-integer numbers are not modelled.
- Reading the body stream (`getBody()->getContents()`): not modelled. Its own exceptions, which are not Guzzle exceptions, are not modelled either.
- The logger and the debug logging: they only write to a sink and never change a result. The constructor's logger argument is therefore not a parameter, though the debug flag is kept.
- `strtoupper` is modelled as ASCII-only upper-casing, its behaviour since PHP 8.2. Locale-dependent upper-casing in older PHP is not modelled.
- tests/bootstrap.php and tests/ClientTest.php: autoloading and a live-server check, with no behaviour to model.

## Findings

| source | as written | input that shows it | evidently intended | confidence | as-written member | corrected member |
|---|---|---|---|---|---|---|
| src/Client.php:157-158 | The external-id branch url-encodes the boolean flag, whose string form is "1", instead of the id | `transaction("abc", true)` and `transaction("xyz", true)` both target `transaction?external_id=1` | `transaction?external_id=` followed by the url-encoded id | high (not executed) | `DispatchWire.ExternalIdLookupIgnoresId` | `DispatchWire.IntendedTransactionPathInjective` |
| src/Client.php:130-138 | `ping` catches only `\Exception`, but the `?array` return type of `request` throws a `TypeError` (an `\Error`) for a body that decodes to a scalar | a reply body of `true` or `"OK"` | `ping` answers false instead of throwing | medium (not executed) | `DispatchWire.PingThrowsOnScalarBody` | `DispatchWire.IntendedPing` |

`Client.Transaction` and `Client.Ping` keep the behaviour as written. The corrected definitions are stated beside them with their properties proved.
