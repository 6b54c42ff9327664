/**
 * The admin router (`routes/adminRoutes.ts`), mounted at `/admin`: four
 * routes on the path `'/'`, each behind `verifyJWT`, with the GET route
 * choosing among the admin controller's lookups by the query's keys.
 */
module AdminRoutes {
  import opened Js
  import opened Collaborators
  import opened Http
  import opened Authentication
  import opened Routing
  import UserController

  /** The controller handlers the router reaches. */
  datatype Handler = Create | GetByCpf | GetById | GetByName | GetByUserId | GetAll | Update | Delete

  /** The `handlers` table of the GET route, in its order. */
  const Handlers := [Entry("cpf", GetByCpf), Entry("id", GetById), Entry("name", GetByName), Entry("userId", GetByUserId)]

  /** The handler the GET route runs: the first table item with a key in the query, `getAll` otherwise. */
  function Selected(query: map<string, string>): Handler
  {
    match Find(Handlers, query)
    case Some(h) => h
    case None => GetAll
  }

  /** The route a request takes: `None` when no route matches the method and the path. */
  function Route(verb: Verb, path: string, query: map<string, string>): Option<Handler>
  {
    if path != "/" then None
    else
      match verb
      case POST => Some(Create)
      case GET => Some(Selected(query))
      case PUT => Some(Update)
      case DELETE => Some(Delete)
      case Other(_) => None
  }

  /** What the controller handler `h` does with the request. */
  function Run(h: Handler, req: Request, svc: Services): Outcome
  {
    match h
    case Create => UserController.CreateOutcome(req, svc)
    case GetByCpf => UserController.GetByCpfOutcome(req, svc)
    case GetById => UserController.GetByIdOutcome(req, svc)
    case GetByName => UserController.GetByNameOutcome(req, svc)
    case GetByUserId => UserController.GetByUserIdOutcome(req, svc)
    case GetAll => UserController.GetAllOutcome(req, svc)
    case Update => UserController.UpdateOutcome(req, svc)
    case Delete => UserController.DeleteOutcome(req, svc)
  }

  /** The router: the route's handler behind `verifyJWT`, or `None` when no route matches. */
  function Serve(verb: Verb, path: string, req: Request, svc: Services): Option<Outcome>
  {
    match Route(verb, path, req.query)
    case None => None
    case Some(h) => Some(Guarded(req, svc, Run(h, req, svc)))
  }

  // ---------------------------------------------------------------------------
  // Properties
  // ---------------------------------------------------------------------------

  /**
   * The GET choice, key by key: `cpf` wins over everything, then `id`, then
   * `name`, then `userId`, and `getAll` runs exactly when none of the four
   * keys is in the query.
   */
  lemma SelectedByPriority(query: map<string, string>)
    ensures Selected(query) == GetByCpf <==> "cpf" in query
    ensures Selected(query) == GetById <==> "cpf" !in query && "id" in query
    ensures Selected(query) == GetByName <==> "cpf" !in query && "id" !in query && "name" in query
    ensures Selected(query) == GetByUserId <==>
      "cpf" !in query && "id" !in query && "name" !in query && "userId" in query
    ensures Selected(query) == GetAll <==>
      "cpf" !in query && "id" !in query && "name" !in query && "userId" !in query
  {
    var i := FirstMatch(Handlers, query);
    assert Handlers[0].key == "cpf" && Handlers[1].key == "id";
    assert Handlers[2].key == "name" && Handlers[3].key == "userId";
    if i == 4 {
      assert Find(Handlers, query) == None;
    }
  }

  /** Only the set of query keys decides the GET handler; their order and values do not. */
  lemma SelectedByKeysOnly(q1: map<string, string>, q2: map<string, string>)
    requires q1.Keys == q2.Keys
    ensures Selected(q1) == Selected(q2)
  {
    FindDependsOnlyOnKeys(Handlers, q1, q2);
  }

  /**
   * Exactly `POST`, `GET`, `PUT` and `DELETE` on `'/'` are routed, to
   * `create`, one of the lookups, `update` and `delete`.
   */
  lemma RouteTable(verb: Verb, path: string, query: map<string, string>)
    ensures Route(verb, path, query).Some? <==> path == "/" && !verb.Other?
    ensures Route(POST, "/", query) == Some(Create)
    ensures Route(PUT, "/", query) == Some(Update)
    ensures Route(DELETE, "/", query) == Some(Delete)
    ensures Route(GET, "/", query).value !in {Create, Update, Delete}
  {
  }

  /**
   * Every route runs `verifyJWT` first: a verified token reaches the route's
   * handler after the one verification call, and a failing token stops at
   * that call.
   */
  lemma ServeOpening(verb: Verb, path: string, req: Request, svc: Services)
    requires Route(verb, path, req.query).Some?
    requires Present(req.accessToken) || req.HasCookie()
    ensures svc.verify(SelectedToken(req)).Returns? ==>
      Serve(verb, path, req, svc) ==
        Some(After(JwtVerify(SelectedToken(req)), Run(Route(verb, path, req.query).value, req, svc)))
    ensures svc.verify(SelectedToken(req)).Throws? ==>
      Serve(verb, path, req, svc).value.calls == [JwtVerify(SelectedToken(req))]
  {
    GuardedOpening(req, svc, Run(Route(verb, path, req.query).value, req, svc));
  }

  /** The GET route never writes, whichever handler it picks. */
  lemma GetOnlyReads(req: Request, svc: Services)
    ensures NoWrites(Serve(GET, "/", req, svc).value.calls)
  {
    var h := Selected(req.query);
    LookupsOnlyRead(h, req, svc);
    GuardedNoWrites(req, svc, Run(h, req, svc));
  }

  /** The handlers the GET route can pick write nothing. */
  lemma LookupsOnlyRead(h: Handler, req: Request, svc: Services)
    requires h !in {Create, Update, Delete}
    ensures NoWrites(Run(h, req, svc).calls)
  {
    match h
    case GetAll => UserController.GetAllOnlyReads(req, svc);
    case GetByName => UserController.GetByNameOnlyReads(req, svc);
    case GetById =>
      UserController.ByKeyNoWrites(req, svc, "id", "Id is required", AdminGetById(QueryText(req, "id")), "Admin not found");
    case GetByUserId =>
      UserController.ByKeyNoWrites(req, svc, "userId", "User ID is required",
        AdminGetByUserId(QueryText(req, "userId")), "Admin not found for this user");
    case GetByCpf =>
      UserController.ByKeyNoWrites(req, svc, "cpf", "CPF is required", AdminGetByCpf(Str(QueryText(req, "cpf"))), "Admin not found");
  }

  /** Every admin handler requires the header: without it, each answers 400 and calls nothing. */
  lemma RunWithoutHeader(h: Handler, req: Request, svc: Services)
    requires !Present(req.accessToken)
    ensures Run(h, req, svc) == Reply(400, ErrorJson(IncompleteRequest))
  {
  }

  /**
   * A client authenticated only by the signed cookie passes `verifyJWT` but
   * gets a 400 from every admin handler, which all require the header.
   */
  lemma CookieOnlyClientIsRefused(verb: Verb, path: string, req: Request, svc: Services)
    requires Route(verb, path, req.query).Some?
    requires !Present(req.accessToken) && req.HasCookie()
    requires svc.verify(req.signedCookie.value.text).Returns?
    ensures Serve(verb, path, req, svc) ==
      Some(Outcome([JwtVerify(req.signedCookie.value.text)], [], Respond(400, ErrorJson(IncompleteRequest))))
  {
    var h := Route(verb, path, req.query).value;
    var handler := Run(h, req, svc);
    var token := req.signedCookie.value.text;
    RunWithoutHeader(h, req, svc);
    GuardedOpening(req, svc, handler);
    assert SelectedToken(req) == token;
    assert Serve(verb, path, req, svc) == Some(Guarded(req, svc, handler));
    assert [JwtVerify(token)] + [] == [JwtVerify(token)];
  }

  /**
   * A recognised key with an empty value still picks its handler, which
   * answers 400 without a call of its own, instead of falling back to
   * `getAll`: `?id=` lists nothing.
   */
  lemma EmptyKeyIsNotIgnored(req: Request, svc: Services)
    requires "cpf" !in req.query && "id" in req.query && req.query["id"] == ""
    requires Present(req.accessToken) && svc.verify(req.accessToken.value).Returns?
    ensures Selected(req.query) == GetById
    ensures Serve(GET, "/", req, svc) ==
      Some(Outcome([JwtVerify(req.accessToken.value)], [], Respond(400, ErrorJson(IncompleteRequest))))
  {
    SelectedByPriority(req.query);
    assert Route(GET, "/", req.query) == Some(GetById);
    assert !req.HasQuery("id");
    var handler := Run(GetById, req, svc);
    assert handler == Reply(400, ErrorJson(IncompleteRequest));
    GuardedOpening(req, svc, handler);
    assert SelectedToken(req) == req.accessToken.value;
    assert Serve(GET, "/", req, svc) == Some(Guarded(req, svc, handler));
    assert [JwtVerify(req.accessToken.value)] + [] == [JwtVerify(req.accessToken.value)];
  }
}
