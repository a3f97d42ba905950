/**
 * The action descriptor `Request`: nine private fields with defaults, each with a
 * getter that only reads it and a setter that overwrites it and nothing else
 * (the `modifies this`field` frame of every setter says so).
 * `method` and `type` are Dafny keywords, so those fields are `httpMethod` and `targetType`.
 */
module DispatchRequest {
  import opened Wrappers
  import opened PhpValues

  class Request {
    var httpMethod: string
    var targetType: Option<string>
    var action: Option<string>
    var payload: Option<JsonArray>
    var externalId: Option<string>
    var service: Option<string>
    var async: bool
    var parallel: bool
    var callbackUrl: Option<string>

    /** A fresh descriptor: method `GET`, both flags off, every optional field null. */
    constructor ()
      ensures httpMethod == "GET" && !async && !parallel
      ensures targetType.None? && action.None? && payload.None?
      ensures externalId.None? && service.None? && callbackUrl.None?
    {
      httpMethod := "GET";
      targetType := None;
      action := None;
      payload := None;
      externalId := None;
      service := None;
      async := false;
      parallel := false;
      callbackUrl := None;
    }

    method GetMethod() returns (m: string)
      ensures m == httpMethod
    {
      m := httpMethod;
    }

    /** Stores the verb verbatim: no upper-casing, no check against the allowed verbs. */
    method SetMethod(m: string)
      modifies this`httpMethod
      ensures httpMethod == m
    {
      httpMethod := m;
    }

    method GetType() returns (t: Option<string>)
      ensures t == targetType
    {
      t := targetType;
    }

    method SetType(t: Option<string>)
      modifies this`targetType
      ensures targetType == t
    {
      targetType := t;
    }

    method GetAction() returns (a: Option<string>)
      ensures a == action
    {
      a := action;
    }

    method SetAction(a: Option<string>)
      modifies this`action
      ensures action == a
    {
      action := a;
    }

    method GetPayload() returns (p: Option<JsonArray>)
      ensures p == payload
    {
      p := payload;
    }

    method SetPayload(p: Option<JsonArray>)
      modifies this`payload
      ensures payload == p
    {
      payload := p;
    }

    method GetExternalId() returns (e: Option<string>)
      ensures e == externalId
    {
      e := externalId;
    }

    method SetExternalId(e: Option<string>)
      modifies this`externalId
      ensures externalId == e
    {
      externalId := e;
    }

    method GetService() returns (s: Option<string>)
      ensures s == service
    {
      s := service;
    }

    method SetService(s: Option<string>)
      modifies this`service
      ensures service == s
    {
      service := s;
    }

    method IsAsync() returns (b: bool)
      ensures b == async
    {
      b := async;
    }

    /** Changes `async` only; `parallel` keeps its value. */
    method SetAsync(b: bool)
      modifies this`async
      ensures async == b
    {
      async := b;
    }

    method IsParallel() returns (b: bool)
      ensures b == parallel
    {
      b := parallel;
    }

    /** Changes `parallel` only; `async` keeps its value. */
    method SetParallel(b: bool)
      modifies this`parallel
      ensures parallel == b
    {
      parallel := b;
    }

    method GetCallbackUrl() returns (u: Option<string>)
      ensures u == callbackUrl
    {
      u := callbackUrl;
    }

    method SetCallbackUrl(u: Option<string>)
      modifies this`callbackUrl
      ensures callbackUrl == u
    {
      callbackUrl := u;
    }
  }

  /**
   * A caller's view of the accessors: each setter is read back by its getter, and
   * setting `async` leaves `parallel` (and everything else) as it was, and vice versa.
   */
  method SetThenGet(r: Request, m: string, a: bool, p: bool)
    modifies r`async, r`parallel, r`httpMethod
    ensures r.httpMethod == m && r.async == a && r.parallel == p
    ensures r.targetType == old(r.targetType) && r.action == old(r.action) && r.payload == old(r.payload)
    ensures r.externalId == old(r.externalId) && r.service == old(r.service) && r.callbackUrl == old(r.callbackUrl)
  {
    var before := r.parallel;
    r.SetAsync(a);
    var stillParallel := r.IsParallel();
    assert stillParallel == before;
    r.SetParallel(p);
    var readAsync := r.IsAsync();
    assert readAsync == a;
    r.SetMethod(m);
    var readMethod := r.GetMethod();
    assert readMethod == m;
  }
}
