/**
 * The book router (`routes/bookRoutes.ts`), as registered: a GET route on
 * `'/'` that chooses between `getById` and `getAll` by the query's keys, and
 * PUT and DELETE routes on `'/:id(\d+)'`, all behind `verifyJWT`. No route
 * leads to the controller's `create`. Paths are relative to the router.
 */
module BookRoutes {
  import opened Js
  import opened Collaborators
  import opened Http
  import opened Authentication
  import opened Routing
  import BookController

  /** The controller handlers the router reaches. */
  datatype Handler = GetById | GetAll | Update | Delete

  /** The `handlers` table of the GET route. */
  const Handlers := [Entry("id", GetById)]

  /** The handler the GET route runs: `getById` when the query has an `id` key, `getAll` otherwise. */
  function Selected(query: map<string, string>): Handler
  {
    match Find(Handlers, query)
    case Some(h) => h
    case None => GetAll
  }

  /** The route a request takes: `None` when no route matches the method and the path. */
  function Route(verb: Verb, path: string, query: map<string, string>): Option<Handler>
  {
    match verb
    case GET => if path == "/" then Some(Selected(query)) else None
    case PUT => if DigitParam(path).Some? then Some(Update) else None
    case DELETE => if DigitParam(path).Some? then Some(Delete) else None
    case _ => None
  }

  /** What the controller handler `h` does with the request. */
  function Run(h: Handler, req: Request, svc: Services): Outcome
  {
    match h
    case GetById => BookController.GetByIdOutcome(req, svc)
    case GetAll => BookController.GetAllOutcome(req, svc)
    case Update => BookController.UpdateOutcome(req, svc)
    case Delete => BookController.DeleteOutcome(req, svc)
  }

  /**
   * The router as registered: the route's handler behind `verifyJWT`. The
   * path's `id` parameter is matched but never handed to the handler, which
   * reads `req.query.id`.
   */
  function Serve(verb: Verb, path: string, req: Request, svc: Services): Option<Outcome>
  {
    match Route(verb, path, req.query)
    case None => None
    case Some(h) => Some(Guarded(req, svc, Run(h, req, svc)))
  }

  /** The request with the path's `id` parameter as its `id` query value. */
  function WithPathId(path: string, req: Request): (r: Request)
    ensures DigitParam(path).Some? ==> r.HasQuery("id") && QueryText(r, "id") == DigitParam(path).value
    ensures DigitParam(path).None? ==> r == req
    ensures r.body == req.body && r.accessToken == req.accessToken && r.signedCookie == req.signedCookie
    ensures forall k :: k != "id" ==> (k in r.query <==> k in req.query)
    ensures forall k :: k != "id" && k in req.query ==> r.query[k] == req.query[k]
  {
    match DigitParam(path)
    case None => req
    case Some(id) => req.(query := req.query["id" := id])
  }

  /** The router with the path id handed to `update` and `delete`, as the route path means it. */
  function ServeWithPathId(verb: Verb, path: string, req: Request, svc: Services): Option<Outcome>
  {
    Serve(verb, path, WithPathId(path, req), svc)
  }

  // ---------------------------------------------------------------------------
  // Properties
  // ---------------------------------------------------------------------------

  /** GET picks `getById` exactly when the query has an `id` key, even an empty one. */
  lemma SelectedById(query: map<string, string>)
    ensures Selected(query) == GetById <==> "id" in query
    ensures Selected(query) == GetAll <==> "id" !in query
  {
    assert Handlers[0].key == "id";
  }

  /**
   * GET is routed on `'/'` only, PUT and DELETE on digit-only ids only, and
   * nothing else: in particular no POST, so the controller's `create` is
   * unreachable.
   */
  lemma RouteTable(verb: Verb, path: string, query: map<string, string>)
    ensures Route(verb, path, query).Some? <==>
      (verb == GET && path == "/") || ((verb == PUT || verb == DELETE) && DigitParam(path).Some?)
    ensures Route(POST, path, query) == None
    ensures forall d :: d != [] && AllDigits(d) ==>
      Route(PUT, "/" + d, query) == Some(Update) && Route(DELETE, "/" + d, query) == Some(Delete)
    ensures Route(PUT, "/", query) == None && Route(DELETE, "/", query) == None
  {
    forall d | d != [] && AllDigits(d)
      ensures Route(PUT, "/" + d, query) == Some(Update) && Route(DELETE, "/" + d, query) == Some(Delete)
    {
      DigitParamOfDigits(d);
    }
    DigitParamOfRoot();
  }

  /**
   * Every route runs `verifyJWT` first: a verified token reaches the route's
   * handler after the one verification call, and a failing token stops at
   * that call.
   */
  lemma ServeOpening(verb: Verb, path: string, req: Request, svc: Services)
    requires Route(verb, path, req.query).Some?
    requires Present(req.accessToken) || req.HasCookie()
    ensures svc.verify(SelectedToken(req)).Returns? ==>
      Serve(verb, path, req, svc) ==
        Some(After(JwtVerify(SelectedToken(req)), Run(Route(verb, path, req.query).value, req, svc)))
    ensures svc.verify(SelectedToken(req)).Throws? ==>
      Serve(verb, path, req, svc).value.calls == [JwtVerify(SelectedToken(req))]
  {
    GuardedOpening(req, svc, Run(Route(verb, path, req.query).value, req, svc));
  }

  /** The GET route never writes. */
  lemma GetOnlyReads(req: Request, svc: Services)
    ensures NoWrites(Serve(GET, "/", req, svc).value.calls)
  {
    BookController.GetAllOnlyReads(req, svc);
    BookController.GetByIdOnlyReads(req, svc);
    GuardedNoWrites(req, svc, Run(Selected(req.query), req, svc));
  }

  /**
   * As registered, the path id makes no difference: two PUT (or DELETE)
   * requests that differ only in the digits of their path have the same
   * outcome, and without an `id` query key a verified request is refused with
   * 400, so `PUT /5` on this router never updates book 5.
   */
  lemma PathIdIsIgnored(verb: Verb, path1: string, path2: string, req: Request, svc: Services)
    requires verb == PUT || verb == DELETE
    requires DigitParam(path1).Some? && DigitParam(path2).Some?
    ensures Serve(verb, path1, req, svc) == Serve(verb, path2, req, svc)
    ensures !req.HasQuery("id") && Present(req.accessToken) && svc.verify(req.accessToken.value).Returns? ==>
      Serve(verb, path1, req, svc) == Some(Outcome([JwtVerify(req.accessToken.value)], [], Respond(400, Text("Bad Request"))))
  {
    var h := Route(verb, path1, req.query).value;
    GuardedOpening(req, svc, Run(h, req, svc));
    if !req.HasQuery("id") && Present(req.accessToken) && svc.verify(req.accessToken.value).Returns? {
      var token := req.accessToken.value;
      assert Run(h, req, svc) == Reply(400, Text("Bad Request"));
      assert SelectedToken(req) == token;
      assert [JwtVerify(token)] + [] == [JwtVerify(token)];
    }
  }

  /**
   * With the path id handed on, an admin's `PUT /<digits>` updates the book
   * whose key is the value of those digits, whatever the query says.
   */
  lemma PathIdSelectsTheBookToUpdate(d: string, req: Request, svc: Services)
    requires d != [] && AllDigits(d)
    requires AdminToken(req, svc) && Truthy(req.body)
    ensures var token := req.accessToken.value;
      ServeWithPathId(PUT, "/" + d, req, svc) == Some(After(JwtVerify(token), After(JwtVerify(token),
        BookController.UpdateAfter(svc, DecimalString(DigitsValue(d)), BookController.Spread(req.body.value)))))
  {
    var put := PathIdRequest(d, req);
    var token := req.accessToken.value;
    var o := Run(Update, put, svc);
    assert ServeWithPathId(PUT, "/" + d, req, svc) == Some(Guarded(put, svc, o)) by {
      RunsTheRoute(PUT, "/" + d, put, svc, Update);
    }
    assert o == After(JwtVerify(token),
      BookController.UpdateAfter(svc, DecimalString(DigitsValue(d)), BookController.Spread(req.body.value))) by {
      BookController.UpdateForAdmin(put, svc);
    }
    assert Guarded(put, svc, o) == After(JwtVerify(token), o) by {
      assert SelectedToken(put) == token;
      GuardedOpening(put, svc, o);
    }
  }

  /**
   * With the path id handed on, an admin's `DELETE /<digits>` reaches the
   * deletion with those digits as the id text, whose key is their value.
   */
  lemma PathIdSelectsTheBookToDelete(d: string, req: Request, svc: Services)
    requires d != [] && AllDigits(d)
    requires AdminToken(req, svc)
    ensures var token := req.accessToken.value;
      ServeWithPathId(DELETE, "/" + d, req, svc) ==
        Some(After(JwtVerify(token), After(JwtVerify(token), BookController.DeleteAfter(svc, d))))
    ensures IdKey(d) == Some(DecimalString(DigitsValue(d)))
  {
    var del := PathIdRequest(d, req);
    var token := req.accessToken.value;
    var o := Run(Delete, del, svc);
    assert ServeWithPathId(DELETE, "/" + d, req, svc) == Some(Guarded(del, svc, o)) by {
      RunsTheRoute(DELETE, "/" + d, del, svc, Delete);
    }
    assert o == After(JwtVerify(token), BookController.DeleteAfter(svc, d)) by {
      BookController.DeleteForAdmin(del, svc);
    }
    assert Guarded(del, svc, o) == After(JwtVerify(token), o) by {
      assert SelectedToken(del) == token;
      GuardedOpening(del, svc, o);
    }
  }

  /** A request on a route is its handler behind `verifyJWT`. */
  lemma RunsTheRoute(verb: Verb, path: string, req: Request, svc: Services, h: Handler)
    requires Route(verb, path, req.query) == Some(h)
    ensures Serve(verb, path, req, svc) == Some(Guarded(req, svc, Run(h, req, svc)))
  {
  }

  /** The request the corrected router hands on for the path `"/" + d`: its `id` query is `d`, whose key is the value of `d`. */
  lemma PathIdRequest(d: string, req: Request) returns (r: Request)
    requires d != [] && AllDigits(d)
    ensures r == WithPathId("/" + d, req)
    ensures DigitParam("/" + d) == Some(d)
    ensures r.HasQuery("id") && QueryText(r, "id") == d
    ensures IdKey(d) == Some(DecimalString(DigitsValue(d)))
  {
    DigitParamOfDigits(d);
    IdKeyDigitPrefix(d, []);
    assert d + [] == d;
    r := WithPathId("/" + d, req);
  }
}
