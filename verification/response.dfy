/**
 * The `Response` record: six nullable private fields, all null on a fresh object,
 * each with a getter that only reads it and a setter whose `modifies this`field`
 * frame leaves the other five untouched. `success` keeps three states
 * (true, false, null); null is never turned into false.
 */
module DispatchResponse {
  import opened Wrappers

  class Response {
    var transactionId: Option<string>
    var transactionItemId: Option<string>
    var success: Option<bool>
    var statusCode: Option<int>
    var contentType: Option<string>
    var response: Option<string>

    constructor ()
      ensures transactionId.None? && transactionItemId.None? && success.None?
      ensures statusCode.None? && contentType.None? && response.None?
    {
      transactionId := None;
      transactionItemId := None;
      success := None;
      statusCode := None;
      contentType := None;
      response := None;
    }

    method GetTransactionId() returns (t: Option<string>)
      ensures t == transactionId
    {
      t := transactionId;
    }

    method SetTransactionId(t: Option<string>)
      modifies this`transactionId
      ensures transactionId == t
    {
      transactionId := t;
    }

    method GetTransactionItemId() returns (t: Option<string>)
      ensures t == transactionItemId
    {
      t := transactionItemId;
    }

    method SetTransactionItemId(t: Option<string>)
      modifies this`transactionItemId
      ensures transactionItemId == t
    {
      transactionItemId := t;
    }

    method GetSuccess() returns (s: Option<bool>)
      ensures s == success
    {
      s := success;
    }

    method SetSuccess(s: Option<bool>)
      modifies this`success
      ensures success == s
    {
      success := s;
    }

    method GetStatusCode() returns (c: Option<int>)
      ensures c == statusCode
    {
      c := statusCode;
    }

    method SetStatusCode(c: Option<int>)
      modifies this`statusCode
      ensures statusCode == c
    {
      statusCode := c;
    }

    method GetContentType() returns (c: Option<string>)
      ensures c == contentType
    {
      c := contentType;
    }

    method SetContentType(c: Option<string>)
      modifies this`contentType
      ensures contentType == c
    {
      contentType := c;
    }

    method GetResponse() returns (r: Option<string>)
      ensures r == response
    {
      r := response;
    }

    method SetResponse(r: Option<string>)
      modifies this`response
      ensures response == r
    {
      response := r;
    }
  }

  /** `success` set to null reads back as null, not false; the other fields are untouched. */
  method SuccessKeepsThreeStates(r: Response, s: Option<bool>)
    modifies r`success
    ensures r.success == s
    ensures r.transactionId == old(r.transactionId) && r.transactionItemId == old(r.transactionItemId)
    ensures r.statusCode == old(r.statusCode) && r.contentType == old(r.contentType) && r.response == old(r.response)
  {
    r.SetSuccess(s);
    var read := r.GetSuccess();
    assert read == s && (s.None? ==> read != Some(false));
  }
}
