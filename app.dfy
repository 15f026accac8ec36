/** The two request-level rules of the server set-up: the CORS handler every request
    passes, and the terminal catch-all route that answers what no endpoint matched. */
module App {
  import opened JsValues
  import opened Api

  /** `req.session` as the session middleware leaves it and authentication fills it. */
  datatype Session = Session(user: Value, system: Value)

  const PermissionDenied: string := "Permission denied!"

  /** The error the catch-all route throws for a request no endpoint handled. */
  function CatchAll(httpMethod: string, url: string, session: Session): (e: Error)
    ensures e.AppLogicError? && e.details == Undefined
    ensures e.status == 403 <==> Truthy(session.user) || Truthy(session.system)
    ensures e.status == 403 ==> e.message == PermissionDenied
    ensures e.status != 403 ==> e.status == 404 && e.message == "Cannot " + httpMethod + " " + url + "! API not found"
  {
    if Truthy(session.user) || Truthy(session.system) then AppLogicError(PermissionDenied, 403, Undefined)
    else AppLogicError("Cannot " + httpMethod + " " + url + "! API not found", 404, Undefined)
  }

  /** A request without a session principal to an unknown route is a 404 naming method and path. */
  lemma UnknownRouteIsNotFound()
    ensures CatchAll("POST", "/unknown", Session(Undefined, Undefined)) ==
            AppLogicError("Cannot POST /unknown! API not found", 404, Undefined)
  {
    assert "Cannot " + "POST" + " " + "/unknown" + "! API not found" == "Cannot POST /unknown! API not found";
  }

  /** The five headers the CORS handler sets on every response. */
  const AllowOrigin: string := "Access-Control-Allow-Origin"
  const AllowMethods: string := "Access-Control-Allow-Methods"
  const AllowCredentials: string := "Access-Control-Allow-Credentials"
  const MaxAge: string := "Access-Control-Max-Age"
  const AllowHeaders: string := "Access-Control-Allow-Headers"
  const AllowedHeaders: string :=
    "X-Requested-With, X-HTTP-Method-Override, Content-Type, Accept, Authentication, Authorization, X-Consumer-Username, sess, apikey"

  function WithCorsHeaders(h: map<string, string>): map<string, string> {
    h[AllowOrigin := "*"]
     [AllowMethods := "OPTIONS, POST, GET, PUT, DELETE"]
     [AllowCredentials := "true"]
     [MaxAge := "86400"]
     [AllowHeaders := AllowedHeaders]
  }

  /** After the CORS handler every response carries the five headers with their values; every
      other header keeps the value it had. */
  lemma CorsHeadersSet(h: map<string, string>)
    ensures var r := WithCorsHeaders(h);
      r.Keys == h.Keys + {AllowOrigin, AllowMethods, AllowCredentials, MaxAge, AllowHeaders} &&
      r[AllowOrigin] == "*" && r[AllowMethods] == "OPTIONS, POST, GET, PUT, DELETE" &&
      r[AllowCredentials] == "true" && r[MaxAge] == "86400" && r[AllowHeaders] == AllowedHeaders &&
      forall k :: k in h && k !in {AllowOrigin, AllowMethods, AllowCredentials, MaxAge, AllowHeaders} ==> r[k] == h[k]
  {
    assert |AllowOrigin| == 27 && |AllowMethods| == 28 && |AllowCredentials| == 32;
    assert |MaxAge| == 22 && |AllowHeaders| == 28;
    assert AllowMethods[21] != AllowHeaders[21];
  }

  /** `req.method.toUpperCase() == 'OPTIONS'`. */
  predicate IsPreflight(httpMethod: string) {
    ToUpperCase(httpMethod) == "OPTIONS"
  }

  /** The preflight test ignores letter case: a method is a preflight exactly when it spells
      OPTIONS with each letter in either case. */
  lemma PreflightIgnoresCase(httpMethod: string)
    ensures IsPreflight(httpMethod) <==>
            |httpMethod| == 7 && forall i :: 0 <= i < 7 ==> httpMethod[i] == "OPTIONS"[i] || httpMethod[i] == "options"[i]
  {
    if |httpMethod| == 7 {
      var up := ToUpperCase(httpMethod);
      if IsPreflight(httpMethod) {
        forall i | 0 <= i < 7 ensures httpMethod[i] == "OPTIONS"[i] || httpMethod[i] == "options"[i] {
          assert UpperChar(httpMethod[i]) == "OPTIONS"[i];
        }
      }
      if forall i :: 0 <= i < 7 ==> httpMethod[i] == "OPTIONS"[i] || httpMethod[i] == "options"[i] {
        assert forall i :: 0 <= i < 7 ==> up[i] == "OPTIONS"[i];
      }
    }
  }

  /** The response of one request, as far as the CORS handler touches it. */
  class HttpResponse {
    var headers: map<string, string>
    var statusCode: int
    var sent: bool
    var body: string

    constructor()
      ensures headers == map[] && statusCode == 200 && !sent && body == ""
    {
      headers := map[];
      statusCode := 200;
      sent := false;
      body := "";
    }

    /** `res.header(name, value)`. */
    method Header(name: string, value: string)
      modifies this
      ensures headers == old(headers)[name := value]
      ensures statusCode == old(statusCode) && sent == old(sent) && body == old(body)
    {
      headers := headers[name := value];
    }
  }

  /** The CORS handler: sets the five headers, answers a preflight with an empty 204 and
      stops there, and passes every other request on by calling `next` once. */
  method Cors(httpMethod: string, res: HttpResponse) returns (nextCalls: nat)
    modifies res
    ensures res.headers == WithCorsHeaders(old(res.headers))
    ensures IsPreflight(httpMethod) ==> res.statusCode == 204 && res.sent && res.body == "" && nextCalls == 0
    ensures !IsPreflight(httpMethod) ==>
              nextCalls == 1 && res.statusCode == old(res.statusCode) && res.sent == old(res.sent) && res.body == old(res.body)
  {
    res.Header(AllowOrigin, "*");
    res.Header(AllowMethods, "OPTIONS, POST, GET, PUT, DELETE");
    res.Header(AllowCredentials, "true");
    res.Header(MaxAge, "86400");
    res.Header(AllowHeaders, AllowedHeaders);
    if ToUpperCase(httpMethod) == "OPTIONS" {
      res.statusCode := 204;
      res.sent := true;
      res.body := "";
      return 0;
    }
    nextCalls := 1;
  }
}
