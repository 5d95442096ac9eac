/** The CORS middleware: the Origin-dependent allow headers, the fixed method and header
    lists, and the preflight short-circuit (the CORS protocol of the Fetch Standard,
    section 3.2). */
module Cors {
  import opened JsValues

  const AllowOrigin: string := "Access-Control-Allow-Origin"
  const AllowCredentials: string := "Access-Control-Allow-Credentials"
  const AllowMethods: string := "Access-Control-Allow-Methods"
  const AllowHeaders: string := "Access-Control-Allow-Headers"

  const MethodList: string := "GET, POST, PUT, DELETE, OPTIONS"
  const HeaderList: string := "Content-Type, Authorization, X-Requested-With, Accept, Origin"

  /** The headers the middleware sets for a request whose Origin header is `origin`. */
  function CorsHeaders(origin: Option<string>): (h: map<string, string>)
    ensures h.Keys == {AllowOrigin, AllowMethods, AllowHeaders} + (if Missing(origin) then {} else {AllowCredentials})
    ensures h[AllowMethods] == MethodList && h[AllowHeaders] == HeaderList
    ensures !Missing(origin) ==> h[AllowOrigin] == origin.value && h[AllowCredentials] == "true"
    ensures Missing(origin) ==> h[AllowOrigin] == "*"
  {
    var originHeaders :=
      if Missing(origin) then map[AllowOrigin := "*"]
      else map[AllowOrigin := origin.value, AllowCredentials := "true"];
    originHeaders[AllowMethods := MethodList][AllowHeaders := HeaderList]
  }

  /** Credentials are allowed only together with the very origin that asked, so the
      wildcard comes with credentials only when a client sends the literal Origin `*`. */
  lemma CredentialsOnlyForTheOrigin(origin: Option<string>)
    ensures var h := CorsHeaders(origin);
      && (AllowCredentials in h <==> !Missing(origin))
      && (AllowCredentials in h ==> h[AllowOrigin] == origin.value)
      && (h[AllowOrigin] == "*" && AllowCredentials in h ==> origin == Some("*"))
  {
  }

  /** Setting the headers one by one on top of `before` gives `before` overridden by
      the middleware's headers. */
  lemma SetInOrder(before: map<string, string>, origin: Option<string>)
    ensures !Missing(origin) ==>
      before[AllowOrigin := origin.value][AllowCredentials := "true"][AllowMethods := MethodList][AllowHeaders := HeaderList]
        == before + CorsHeaders(origin)
    ensures Missing(origin) ==>
      before[AllowOrigin := "*"][AllowMethods := MethodList][AllowHeaders := HeaderList]
        == before + CorsHeaders(origin)
  {
  }

  /** The response as the middleware sees it: the headers set so far, the status once
      chosen, whether it was ended. Header names are compared exactly, where Node's
      `setHeader` ignores case; no earlier middleware sets these headers. */
  class Response {
    var headers: map<string, string>
    var status: Option<int>
    var ended: bool

    constructor()
      ensures headers == map[] && status.None? && !ended
    {
      headers := map[];
      status := None;
      ended := false;
    }

    /** `res.setHeader(name, value)`: one header set or replaced. */
    method SetHeader(name: string, value: string)
      modifies this
      ensures headers == old(headers)[name := value]
      ensures status == old(status) && ended == old(ended)
    {
      headers := headers[name := value];
    }

    /** `res.status(code).end()`. */
    method EndWith(code: int)
      modifies this
      ensures headers == old(headers) && status == Some(code) && ended
    {
      status := Some(code);
      ended := true;
    }
  }

  /** The middleware: the allow headers are set on every request; a preflight (OPTIONS)
      is answered with 200 and ended without reaching `next`, every other request calls
      `next` once and leaves status and ending to the handlers. */
  method Handle(origin: Option<string>, httpMethod: string, res: Response) returns (nextCalls: nat)
    modifies res
    ensures res.headers == old(res.headers) + CorsHeaders(origin)
    ensures httpMethod == "OPTIONS" ==> res.status == Some(200) && res.ended && nextCalls == 0
    ensures httpMethod != "OPTIONS" ==> res.status == old(res.status) && res.ended == old(res.ended) && nextCalls == 1
  {
    if !Missing(origin) {
      res.SetHeader(AllowOrigin, origin.value);
      res.SetHeader(AllowCredentials, "true");
    } else {
      res.SetHeader(AllowOrigin, "*");
    }
    res.SetHeader(AllowMethods, MethodList);
    res.SetHeader(AllowHeaders, HeaderList);
    SetInOrder(old(res.headers), origin);
    if httpMethod == "OPTIONS" {
      res.EndWith(200);
      return 0;
    }
    nextCalls := 1;
  }

  /** On a fresh response the wildcard never travels with a credentials header unless
      the request's Origin was the literal `*`. */
  method HandleFresh(origin: Option<string>, httpMethod: string) returns (headers: map<string, string>, nextCalls: nat)
    ensures headers == CorsHeaders(origin)
    ensures AllowCredentials in headers ==> headers[AllowOrigin] == origin.value
    ensures nextCalls == (if httpMethod == "OPTIONS" then 0 else 1)
  {
    var res := new Response();
    nextCalls := Handle(origin, httpMethod, res);
    assert map[] + CorsHeaders(origin) == CorsHeaders(origin);
    headers := res.headers;
    CredentialsOnlyForTheOrigin(origin);
  }
}
