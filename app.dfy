/** The application's own middleware: the fixed CORS headers with the guest
    cookie test, and the identity middleware that resolves `req.user` from the
    `email` cookie and turns away guests' writes with 401. */
module App {
  import opened Wrappers

  datatype User = User(email: string)

  /** A cookie set on the response with `res.cookie(name, value, options)`. */
  datatype Cookie = Cookie(name: string, value: string, maxAge: nat, httpOnly: bool)

  /** A reply sent with `res.status(status).send(body)`. */
  datatype Reply = Reply(status: nat, body: string)

  /** The request as the middleware sees it: the parsed cookies are a map from
      names to values, and `user` is undefined until the identity middleware
      assigns it. */
  class Request {
    var httpMethod: string
    var url: string
    var cookies: map<string, string>
    var user: Option<User>

    constructor (httpMethod: string, url: string, cookies: map<string, string>)
      ensures this.httpMethod == httpMethod && this.url == url && this.cookies == cookies
      ensures user == None
    {
      this.httpMethod := httpMethod;
      this.url := url;
      this.cookies := cookies;
      user := None;
    }
  }

  /** The response as the middleware changes it: its header fields, the cookies
      it sets, and the reply once one is sent. */
  class Response {
    var headers: map<string, string>
    var cookies: seq<Cookie>
    var sent: Option<Reply>

    constructor ()
      ensures headers == map[] && cookies == [] && sent == None
    {
      headers := map[];
      cookies := [];
      sent := None;
    }
  }

  const AllowOrigin: string := "*"
  const AllowMethods: string := "GET, POST, PUT, DELETE, OPTIONS"
  const AllowHeaders: string := "Origin, X-Requested-With, Content-Type, Accept, Authorization"

  const GuestCookie: Cookie := Cookie("email", "guest", 900000, true)

  /** JavaScript truthiness of a string: only the empty string is falsy. */
  predicate Truthy(s: string) {
    s != ""
  }

  /** The property name `in` looks up for a boolean left operand. */
  function PropertyKey(b: bool): (key: string)
    ensures b ==> key == "true"
    ensures !b ==> key == "false"
  {
    if b then "true" else "false"
  }

  /** The guest-cookie test `!'email' in req.cookies`, which parses as
      `(!'email') in req.cookies`, that is `false in req.cookies`. */
  predicate SetsGuestCookie(cookies: map<string, string>) {
    PropertyKey(!Truthy("email")) in cookies
  }

  /** The guest cookie is set exactly when the cookies hold a key "false". */
  lemma GuestCookieNeedsFalseKey(cookies: map<string, string>)
    ensures SetsGuestCookie(cookies) <==> "false" in cookies
  {
  }

  /** In particular a request without any cookie, which the test was evidently
      meant to catch, does not get the guest cookie. */
  lemma NoCookieNoGuestCookie()
    ensures !SetsGuestCookie(map[])
    ensures !SetsGuestCookie(map["email" := "guest"])
  {
  }

  /** The header middleware: sets the three Access-Control headers (other
      headers stay as they were), sets the guest cookie when the test above
      holds, sends nothing and calls `next`. */
  method SetHeaders(req: Request, res: Response) returns (callsNext: bool)
    modifies res
    ensures res.headers == old(res.headers)["Access-Control-Allow-Origin" := AllowOrigin]
                                           ["Access-Control-Allow-Methods" := AllowMethods]
                                           ["Access-Control-Allow-Headers" := AllowHeaders]
    ensures res.cookies == old(res.cookies) + (if SetsGuestCookie(req.cookies) then [GuestCookie] else [])
    ensures res.sent == old(res.sent)
    ensures callsNext
  {
    res.headers := res.headers["Access-Control-Allow-Origin" := AllowOrigin];
    res.headers := res.headers["Access-Control-Allow-Methods" := AllowMethods];
    res.headers := res.headers["Access-Control-Allow-Headers" := AllowHeaders];
    if PropertyKey(!Truthy("email")) in req.cookies {
      res.cookies := res.cookies + [GuestCookie];
    }
    callsNext := true;
  }

  /** The user the identity middleware leaves on a request: the `email`
      cookie's user when that cookie is truthy, otherwise a user already
      present, otherwise the guest. */
  function ResolvedUser(cookies: map<string, string>, prior: Option<User>): (u: User)
    ensures "email" in cookies && Truthy(cookies["email"]) ==> u.email == cookies["email"]
    ensures !("email" in cookies && Truthy(cookies["email"])) && prior.None? ==> u.email == "guest"
    ensures !("email" in cookies && Truthy(cookies["email"])) && prior.Some? ==> u == prior.value
  {
    if "email" in cookies && Truthy(cookies["email"]) then User(cookies["email"])
    else if prior.Some? then prior.value
    else User("guest")
  }

  /** The URLs a guest may write to; matched by exact equality with `req.url`. */
  const AuthUrls: seq<string> := ["/v1/auth/login", "/v1/auth/register", "/v1/auth/logout", "/v1/auth/refresh"]

  /** The gate: a non-GET request of the guest to any URL but the four
      authentication URLs is turned away. */
  predicate Rejects(httpMethod: string, email: string, url: string) {
    httpMethod != "GET" && email == "guest" && url !in AuthUrls
  }

  /** The identity middleware, step by step as the source assigns `req.user`,
      then the gate. `req.user` is always defined afterwards; a rejected request
      gets 401 "Unauthorized" and does not call `next`, any other request calls
      `next` and is sent nothing. */
  method ResolveUserAndGate(req: Request, res: Response) returns (callsNext: bool)
    modifies req, res
    ensures req.user == Some(ResolvedUser(req.cookies, old(req.user)))
    ensures req.httpMethod == old(req.httpMethod) && req.url == old(req.url) && req.cookies == old(req.cookies)
    ensures callsNext <==> !Rejects(req.httpMethod, req.user.value.email, req.url)
    ensures res.sent == if callsNext then old(res.sent) else Some(Reply(401, "Unauthorized"))
    ensures res.headers == old(res.headers) && res.cookies == old(res.cookies)
  {
    if "email" in req.cookies && req.cookies["email"] == "guest" {
      req.user := Some(User("guest"));
    }
    if "email" in req.cookies && Truthy(req.cookies["email"]) {
      req.user := Some(User(req.cookies["email"]));
    }
    if req.user.None? {
      req.user := Some(User("guest"));
    }
    if req.httpMethod != "GET" && req.user.value.email == "guest" && req.url != "/v1/auth/login"
       && req.url != "/v1/auth/register" && req.url != "/v1/auth/logout" && req.url != "/v1/auth/refresh"
    {
      res.sent := Some(Reply(401, "Unauthorized"));
      return false;
    }
    return true;
  }

  /** The two middlewares in order, on a request nothing has answered yet:
      the headers are always set, and the request reaches the routes exactly
      when the gate lets it through. */
  method HandleRequest(req: Request, res: Response) returns (reachesRoutes: bool)
    requires res.sent == None
    modifies req, res
    ensures "Access-Control-Allow-Origin" in res.headers && res.headers["Access-Control-Allow-Origin"] == AllowOrigin
    ensures "Access-Control-Allow-Methods" in res.headers && res.headers["Access-Control-Allow-Methods"] == AllowMethods
    ensures "Access-Control-Allow-Headers" in res.headers && res.headers["Access-Control-Allow-Headers"] == AllowHeaders
    ensures res.headers == old(res.headers)["Access-Control-Allow-Origin" := AllowOrigin]
                                           ["Access-Control-Allow-Methods" := AllowMethods]
                                           ["Access-Control-Allow-Headers" := AllowHeaders]
    ensures res.cookies == old(res.cookies) + (if SetsGuestCookie(old(req.cookies)) then [GuestCookie] else [])
    ensures req.httpMethod == old(req.httpMethod) && req.url == old(req.url) && req.cookies == old(req.cookies)
    ensures req.user == Some(ResolvedUser(old(req.cookies), old(req.user)))
    ensures reachesRoutes <==> !Rejects(old(req.httpMethod), req.user.value.email, old(req.url))
    ensures res.sent == if reachesRoutes then None else Some(Reply(401, "Unauthorized"))
  {
    var next := SetHeaders(req, res);
    if next {
      reachesRoutes := ResolveUserAndGate(req, res);
    }
  }

  /** Whatever the user, a GET request passes the gate. */
  lemma GetIsNeverRejected(email: string, url: string)
    ensures !Rejects("GET", email, url)
  {
  }

  /** A request whose user is not the guest passes the gate, whatever its method. */
  lemma SignedInIsNeverRejected(httpMethod: string, email: string, url: string)
    requires email != "guest"
    ensures !Rejects(httpMethod, email, url)
  {
  }

  /** The four authentication URLs pass, even for the guest's writes; any other
      URL is turned away for the guest's writes, among them the login URL with
      a query string. */
  lemma GuestWritesReachOnlyAuthUrls(httpMethod: string, url: string)
    requires httpMethod != "GET"
    ensures Rejects(httpMethod, "guest", url) <==>
      url != "/v1/auth/login" && url != "/v1/auth/register" && url != "/v1/auth/logout" && url != "/v1/auth/refresh"
    ensures Rejects(httpMethod, "guest", "/v1/auth/login?next=/")
  {
  }

  /** On a request without a user yet, the resolved email is the `email`
      cookie when it is truthy and "guest" otherwise: the separate test for a
      "guest" cookie changes nothing. */
  lemma ResolvedEmail(cookies: map<string, string>)
    ensures ResolvedUser(cookies, None).email ==
      if "email" in cookies && cookies["email"] != "" then cookies["email"] else "guest"
    ensures "email" in cookies && cookies["email"] == "guest" ==> ResolvedUser(cookies, None) == User("guest")
  {
  }

  /** A guest without a usable `email` cookie is turned away from every write
      outside the authentication URLs. */
  lemma CookielessWriteIsRejected(cookies: map<string, string>, httpMethod: string, url: string)
    requires "email" !in cookies || cookies["email"] == ""
    requires httpMethod != "GET" && url !in AuthUrls
    ensures Rejects(httpMethod, ResolvedUser(cookies, None).email, url)
  {
  }
}
