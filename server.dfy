/**
 * The request pipeline in registration order: `/login` is registered before
 * the two middlewares and answers without a token; every book route passes
 * the token middleware and then the logging-and-role middleware before its
 * handler runs.
 */
module Server {
  import opened Wrappers
  import opened Records
  import opened Jwt
  import opened Http
  import opened Books
  import opened Store
  import opened Auth

  /** What the `Authorization` header holds. */
  datatype Bearer =
    | NoBearer              // absent, or not of the form "Bearer <token>"
    | Garbled               // a string that is not a token at all
    | Presented(token: Token)

  /** A request after routing on method and path, with its decoded inputs. */
  datatype Route =
    | LoginRoute(credential: Parsed<Credential>)  // POST /login
    | ListRoute                                   // GET /books
    | GetRoute(id: string)                        // GET /books/:id
    | CreateRoute(book: Parsed<Book>)             // POST /books
    | UpdateRoute(id: string, book: Parsed<Book>) // PUT /books/:id
    | DeleteRoute(id: string)                     // DELETE /books/:id

  datatype Request = Request(verb: string, url: string, auth: Bearer, route: Route)

  /** One line of the access log. */
  datatype AccessEntry = AccessEntry(url: string, verb: string, time: int)

  /** The token middleware at Unix time `now`: the verified claims, or the response it rejects with. */
  function TokenGate(auth: Bearer, now: int): (r: Result<Claims, Response>)
    ensures r.Ok? <==> auth.Presented? && Verify(auth.token, VerifierKey).Some? && Unexpired(auth.token.claims, now)
    ensures r.Ok? ==> r.value == auth.token.claims
    ensures r.Err? ==> (r.error.status == StatusBadRequest <==> auth.NoBearer?)
    ensures r.Err? ==> r.error.status in {StatusBadRequest, StatusUnauthorized}
  {
    match auth
    case NoBearer => Err(Response(StatusBadRequest, Message("Missing or malformed JWT")))
    case Garbled => Err(Response(StatusUnauthorized, Message("Invalid or expired JWT")))
    case Presented(t) =>
      match Verify(t, VerifierKey)
      case None => Err(Response(StatusUnauthorized, Message("Invalid or expired JWT")))
      case Some(c) =>
        if Unexpired(c, now) then Ok(c)
        else Err(Response(StatusUnauthorized, Message("Invalid or expired JWT")))
  }

  /** The handler each route is registered with; only create, update and delete can change the list. */
  function Dispatch(s: seq<Book>, route: Route, now: int): (o: Outcome)
    ensures route.LoginRoute? ==> o == Outcome(s, Login(route.credential, now))
    ensures o.books != s ==> route.CreateRoute? || route.UpdateRoute? || route.DeleteRoute?
  {
    match route
    case LoginRoute(cred) => Outcome(s, Login(cred, now))
    case ListRoute => ListResult(s)
    case GetRoute(id) => GetResult(s, id)
    case CreateRoute(b) => CreateResult(s, b)
    case UpdateRoute(id, b) => UpdateResult(s, id, b)
    case DeleteRoute(id) => DeleteResult(s, id)
  }

  /** A request's handler runs: it is the login, or it passed both middlewares. */
  function Admitted(req: Request, now: int): (admit: bool)
    ensures admit && !req.route.LoginRoute? ==>
              req.auth.Presented? && Verify(req.auth.token, VerifierKey) == Some(req.auth.token.claims) &&
              Unexpired(req.auth.token.claims, now) && RoleAdmits(req.auth.token.claims)
  {
    req.route.LoginRoute? ||
    (TokenGate(req.auth, now).Ok? && RoleAdmits(TokenGate(req.auth, now).value))
  }

  /** What the access log gains: one entry for each request whose token verified. */
  function Logged(req: Request, now: int): (e: seq<AccessEntry>)
    ensures |e| <= 1
    ensures e != [] <==> !req.route.LoginRoute? && TokenGate(req.auth, now).Ok?
  {
    if !req.route.LoginRoute? && TokenGate(req.auth, now).Ok? then [AccessEntry(req.url, req.verb, now)] else []
  }

  /** The whole pipeline on one request. */
  function Pipeline(s: seq<Book>, req: Request, now: int): (o: Outcome)
    ensures req.route.LoginRoute? ==> o == Outcome(s, Login(req.route.credential, now))
    ensures !Admitted(req, now) ==> o.books == s && o.resp.status in {StatusBadRequest, StatusUnauthorized}
    ensures Admitted(req, now) ==> o == Dispatch(s, req.route, now)
  {
    if req.route.LoginRoute? then Dispatch(s, req.route, now)
    else
      match TokenGate(req.auth, now)
      case Err(rejection) => Outcome(s, rejection)
      case Ok(claims) =>
        if !RoleAdmits(claims) then Outcome(s, Response(StatusUnauthorized, Empty))
        else Dispatch(s, req.route, now)
  }

  /** The role check answers 401 with nothing changed, after the request was logged. */
  lemma RoleRejectionLogged(s: seq<Book>, req: Request, now: int)
    requires !req.route.LoginRoute? && TokenGate(req.auth, now).Ok? && !RoleAdmits(TokenGate(req.auth, now).value)
    ensures Pipeline(s, req, now) == Outcome(s, Response(StatusUnauthorized, Empty))
    ensures Logged(req, now) == [AccessEntry(req.url, req.verb, now)]
  {
  }

  /** Only a handler that runs can change the books: nothing else writes to them. */
  lemma OnlyAdmittedWrites(s: seq<Book>, req: Request, now: int)
    requires Pipeline(s, req, now).books != s
    ensures Admitted(req, now) && !req.route.LoginRoute?
    ensures req.route.CreateRoute? || req.route.UpdateRoute? || req.route.DeleteRoute?
  {
  }

  /** A token that login issued opens every book route during its 72 hours, and the request is logged. */
  lemma IssuedTokenAdmitted(s: seq<Book>, issuedAt: int, req: Request, now: int)
    requires Login(Parsed(MemberUser), issuedAt).status == StatusOK
    requires req.auth == Presented(Login(Parsed(MemberUser), issuedAt).body.token)
    requires now < issuedAt + TokenLifetime
    ensures Admitted(req, now)
    ensures Pipeline(s, req, now) == Dispatch(s, req.route, now)
    ensures !req.route.LoginRoute? ==> Logged(req, now) == [AccessEntry(req.url, req.verb, now)]
  {
    IssuedClaimsLifetime(MemberUser.email, issuedAt, now);
  }

  /** Once its 72 hours are over, the same token gets 401 on every book route, changes nothing and is not logged. */
  lemma IssuedTokenExpires(s: seq<Book>, issuedAt: int, req: Request, now: int)
    requires Login(Parsed(MemberUser), issuedAt).status == StatusOK
    requires req.auth == Presented(Login(Parsed(MemberUser), issuedAt).body.token)
    requires !req.route.LoginRoute? && issuedAt + TokenLifetime <= now
    ensures Pipeline(s, req, now) == Outcome(s, Response(StatusUnauthorized, Message("Invalid or expired JWT")))
    ensures Logged(req, now) == []
  {
    IssuedClaimsLifetime(MemberUser.email, issuedAt, now);
  }

  /** A token carrying any role other than "admin" is refused on every book route, even when correctly signed and unexpired. */
  lemma NonAdminRefused(s: seq<Book>, claims: Claims, req: Request, now: int)
    requires "role" !in claims || claims["role"] != Str("admin")
    requires Unexpired(claims, now)
    requires req.auth == Presented(Sign(claims, VerifierKey)) && !req.route.LoginRoute?
    ensures Pipeline(s, req, now) == Outcome(s, Response(StatusUnauthorized, Empty))
  {
  }

  /** The service: its book list and its access log. */
  class App {
    const store: BookStore
    var accessLog: seq<AccessEntry>

    constructor ()
      ensures fresh(store)
      ensures store.books == Seed()
      ensures accessLog == []
    {
      store := new BookStore();
      accessLog := [];
    }

    /** Serves one request at Unix time `now`. */
    method Handle(req: Request, now: int) returns (resp: Response)
      modifies this, store
      ensures store.books == Pipeline(old(store.books), req, now).books
      ensures resp == Pipeline(old(store.books), req, now).resp
      ensures accessLog == old(accessLog) + Logged(req, now)
    {
      if req.route.LoginRoute? {
        return Login(req.route.credential, now);
      }
      var verified := TokenGate(req.auth, now);
      if verified.Err? {
        return verified.error;
      }
      accessLog := accessLog + [AccessEntry(req.url, req.verb, now)];
      if !RoleAdmits(verified.value) {
        return Response(StatusUnauthorized, Empty);
      }
      match req.route {
        case ListRoute => resp := store.GetBooks();
        case GetRoute(id) => resp := store.GetBook(id);
        case CreateRoute(b) => resp := store.CreateBook(b);
        case UpdateRoute(id, b) => resp := store.UpdateBook(id, b);
        case DeleteRoute(id) => resp := store.DeleteBook(id);
      }
    }
  }

  /** The books route steps of the scenario below, on the pipeline alone. */
  lemma ScenarioSteps(t: Token, now: int)
    requires Verify(t, VerifierKey).Some? && Unexpired(t.claims, now) && RoleAdmits(t.claims)
    ensures Pipeline(Seed(), Request("GET", "/books/99", Presented(t), GetRoute("99")), now) ==
              Outcome(Seed(), Response(StatusNotFound, Empty))
    ensures Pipeline(Seed(), Request("DELETE", "/books/1", Presented(t), DeleteRoute("1")), now) ==
              Outcome([Seed()[1]], Response(StatusNoContent, Empty))
    ensures Pipeline([Seed()[1]], Request("GET", "/books/1", Presented(t), GetRoute("1")), now) ==
              Outcome([Seed()[1]], Response(StatusNotFound, Empty))
  {
    Strconv.AtoiDecimal(99);
    Strconv.AtoiDecimal(1);
    assert !HasId(Seed(), 99);
    assert IsFirstMatch(Seed(), 0, 1);
    assert Deleted(Seed(), 0) == [Seed()[1]];
    assert !HasId([Seed()[1]], 1);
  }

  /**
   * An end-to-end scenario. Log in, list, look up a missing id, delete book 1, look it up again:
   * 200, 200 with the two seeded books, 404, 204, 404.
   */
  method LoginListDeleteScenario() returns (statuses: seq<int>, listed: seq<Book>)
    ensures statuses == [200, 200, 404, 204, 404]
    ensures listed == Seed()
  {
    var app := new App();
    var login := app.Handle(Request("POST", "/login", NoBearer, LoginRoute(Parsed(MemberUser))), 1700000000);
    assert login.status == StatusOK;
    var t := login.body.token;
    var auth := Presented(t);
    ScenarioSteps(t, 1700000002);
    ScenarioSteps(t, 1700000003);
    ScenarioSteps(t, 1700000004);
    var list := app.Handle(Request("GET", "/books", auth, ListRoute), 1700000001);
    assert app.store.books == Seed();
    listed := list.body.books;
    var missing := app.Handle(Request("GET", "/books/99", auth, GetRoute("99")), 1700000002);
    assert app.store.books == Seed();
    var deleted := app.Handle(Request("DELETE", "/books/1", auth, DeleteRoute("1")), 1700000003);
    assert app.store.books == [Seed()[1]];
    var again := app.Handle(Request("GET", "/books/1", auth, GetRoute("1")), 1700000004);
    statuses := [login.status, list.status, missing.status, deleted.status, again.status];
  }
}
