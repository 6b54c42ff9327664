/**
 * The library router (`routes/libraryRoutes.ts`): a GET route on `'/'` that
 * chooses between `getById` and `getAll` by the query's keys, and a POST
 * route on `'/'` to `create`, both behind `verifyJWT`. There is no update or
 * delete route.
 */
module LibraryRoutes {
  import opened Js
  import opened Collaborators
  import opened Http
  import opened Authentication
  import opened Routing
  import LibraryController

  /** The controller handlers the router reaches. */
  datatype Handler = Create | GetById | GetAll

  /** The `handlers` table of the GET route. */
  const Handlers := [Entry("id", GetById)]

  /** The handler the GET route runs: `getById` when the query has an `id` key, `getAll` otherwise. */
  function Selected(query: map<string, string>): Handler
  {
    match Find(Handlers, query)
    case Some(h) => h
    case None => GetAll
  }

  /** The route a request takes: `None` when no route matches the method and the path. */
  function Route(verb: Verb, path: string, query: map<string, string>): Option<Handler>
  {
    if path != "/" then None
    else
      match verb
      case GET => Some(Selected(query))
      case POST => Some(Create)
      case _ => None
  }

  /** What the controller handler `h` does with the request. */
  function Run(h: Handler, req: Request, svc: Services): Outcome
  {
    match h
    case Create => LibraryController.CreateOutcome(req, svc)
    case GetById => LibraryController.GetByIdOutcome(req, svc)
    case GetAll => LibraryController.GetAllOutcome(req, svc)
  }

  /** The router: the route's handler behind `verifyJWT`, or `None` when no route matches. */
  function Serve(verb: Verb, path: string, req: Request, svc: Services): Option<Outcome>
  {
    match Route(verb, path, req.query)
    case None => None
    case Some(h) => Some(Guarded(req, svc, Run(h, req, svc)))
  }

  // ---------------------------------------------------------------------------
  // Properties
  // ---------------------------------------------------------------------------

  /** GET picks `getById` exactly when the query has an `id` key, even an empty one. */
  lemma SelectedById(query: map<string, string>)
    ensures Selected(query) == GetById <==> "id" in query
    ensures Selected(query) == GetAll <==> "id" !in query
  {
    assert Handlers[0].key == "id";
  }

  /** Only GET and POST on `'/'` are routed; POST goes to `create`, GET never does. */
  lemma RouteTable(verb: Verb, path: string, query: map<string, string>)
    ensures Route(verb, path, query).Some? <==> path == "/" && (verb == GET || verb == POST)
    ensures Route(POST, "/", query) == Some(Create)
    ensures Route(GET, "/", query) != Some(Create)
  {
  }

  /**
   * Every route runs `verifyJWT` first: a verified token reaches the route's
   * handler after the one verification call, and a failing token stops at
   * that call.
   */
  lemma ServeOpening(verb: Verb, path: string, req: Request, svc: Services)
    requires Route(verb, path, req.query).Some?
    requires Present(req.accessToken) || req.HasCookie()
    ensures svc.verify(SelectedToken(req)).Returns? ==>
      Serve(verb, path, req, svc) ==
        Some(After(JwtVerify(SelectedToken(req)), Run(Route(verb, path, req.query).value, req, svc)))
    ensures svc.verify(SelectedToken(req)).Throws? ==>
      Serve(verb, path, req, svc).value.calls == [JwtVerify(SelectedToken(req))]
  {
    GuardedOpening(req, svc, Run(Route(verb, path, req.query).value, req, svc));
  }

  /** The GET route never writes. */
  lemma GetOnlyReads(req: Request, svc: Services)
    ensures NoWrites(Serve(GET, "/", req, svc).value.calls)
  {
    LibraryController.GetByIdOnlyReads(req, svc);
    LibraryController.GetAllOnlyReads(req, svc);
    GuardedNoWrites(req, svc, Run(Selected(req.query), req, svc));
  }
}
