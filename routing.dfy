/**
 * What the three routers share: Express's matching of a request to a route,
 * the `verifyJWT` middleware every route runs before its handler, and the
 * query-key dispatch of the GET routes (`Object.keys(req.query).sort()`
 * followed by `handlers.find(item => queryKeys.includes(item.key))`).
 *
 * A router answers `None` when none of its routes matches the request; Express
 * then passes the request on to whatever comes after the router.
 */
module Routing {
  import opened Js
  import opened Collaborators
  import opened Http
  import opened Authentication

  /** The HTTP method of a request. */
  datatype Verb = GET | POST | PUT | DELETE | Other(name: string)

  // ---------------------------------------------------------------------------
  // Route paths
  // ---------------------------------------------------------------------------

  /**
   * The `id` parameter of the route path `'/:id(\d+)'` for the path seen by
   * the router: a non-empty run of ASCII digits after the slash, optionally
   * followed by one trailing slash (Express's non-strict routing).
   */
  function DigitParam(path: string): (id: Option<string>)
    ensures id.Some? ==>
      && id.value != [] && AllDigits(id.value)
      && (path == "/" + id.value || path == "/" + id.value + "/")
  {
    if |path| < 2 || path[0] != '/' then None
    else
      var rest := path[1..];
      var d := if rest[|rest| - 1] == '/' then rest[..|rest| - 1] else rest;
      if d != [] && AllDigits(d) then Some(d) else None
  }

  /** Every digit run is a matching path id, with or without the trailing slash. */
  lemma DigitParamOfDigits(d: string)
    requires d != [] && AllDigits(d)
    ensures DigitParam("/" + d) == Some(d)
    ensures DigitParam("/" + d + "/") == Some(d)
  {
    assert ("/" + d)[1..] == d;
    assert ("/" + d + "/")[1..] == d + "/";
    assert (d + "/")[..|d + "/"| - 1] == d;
  }

  /** The root path `'/'` matches no id route. */
  lemma DigitParamOfRoot()
    ensures DigitParam("/") == None
  {
  }

  // ---------------------------------------------------------------------------
  // verifyJWT before a handler
  // ---------------------------------------------------------------------------

  /**
   * `router.<verb>(path, authentication.verifyJWT, handler)`: the middleware
   * runs first, and the handler's outcome `handler` follows only when the
   * middleware calls `next`.
   */
  function Guarded(req: Request, svc: Services, handler: Outcome): Outcome
  {
    var check := VerifyJwtOutcome(req, svc);
    if check.end.Next? then Outcome(check.calls + handler.calls, check.cookies + handler.cookies, handler.end)
    else check
  }

  /**
   * A guarded route: without a header or signed cookie it is a 400 with no
   * call; a token that fails verification is answered by the middleware and
   * the handler makes no call; a verified token leads to the handler, after
   * the one verification call.
   */
  lemma GuardedOpening(req: Request, svc: Services, handler: Outcome)
    ensures !Present(req.accessToken) && !req.HasCookie() ==>
      Guarded(req, svc, handler) == Reply(400, ErrorJson(IncompleteRequest))
    ensures (Present(req.accessToken) || req.HasCookie()) && svc.verify(SelectedToken(req)).Throws? ==>
      && Guarded(req, svc, handler).calls == [JwtVerify(SelectedToken(req))]
      && Guarded(req, svc, handler).end == Respond(StatusOr(svc.verify(SelectedToken(req)).error, 401),
           FailureJson(MessageOrDefault(svc.verify(SelectedToken(req)).error), "Failed to validate JWT"))
    ensures (Present(req.accessToken) || req.HasCookie()) && svc.verify(SelectedToken(req)).Returns? ==>
      Guarded(req, svc, handler) == After(JwtVerify(SelectedToken(req)), handler)
  {
    VerifyJwtPassesIff(req, svc);
  }

  /** The middleware writes nothing: a guarded route writes only what its handler writes. */
  lemma GuardedNoWrites(req: Request, svc: Services, handler: Outcome)
    requires NoWrites(handler.calls)
    ensures NoWrites(Guarded(req, svc, handler).calls)
  {
    GuardedOpening(req, svc, handler);
  }

  // ---------------------------------------------------------------------------
  // Query-key dispatch
  // ---------------------------------------------------------------------------

  /** One item of a router's `handlers` table. */
  datatype Entry<H> = Entry(key: string, handler: H)

  /**
   * The position of the first item whose key is one of the query's keys, or
   * the length of the table when there is none. `queryKeys.includes(key)`
   * holds exactly when `key` is a key of `req.query`, in whatever order the
   * keys were sorted.
   */
  function FirstMatch<H>(table: seq<Entry<H>>, query: map<string, string>): (i: nat)
    ensures i <= |table|
    ensures i < |table| ==> table[i].key in query
    ensures forall j :: 0 <= j < i ==> table[j].key !in query
  {
    if table == [] then 0
    else if table[0].key in query then 0
    else 1 + FirstMatch(table[1..], query)
  }

  /** `handlers.find(item => queryKeys.includes(item.key))`. */
  function Find<H>(table: seq<Entry<H>>, query: map<string, string>): (r: Option<H>)
    ensures r.None? <==> forall i :: 0 <= i < |table| ==> table[i].key !in query
  {
    var i := FirstMatch(table, query);
    if i < |table| then Some(table[i].handler) else None
  }

  /**
   * The dispatch depends only on which keys the query has: not on their
   * order, and not on their values (an empty value selects its handler too).
   */
  lemma {:induction false} FindDependsOnlyOnKeys<H>(table: seq<Entry<H>>, q1: map<string, string>, q2: map<string, string>)
    requires q1.Keys == q2.Keys
    ensures FirstMatch(table, q1) == FirstMatch(table, q2)
    ensures Find(table, q1) == Find(table, q2)
  {
    if table != [] && table[0].key !in q1 {
      FindDependsOnlyOnKeys(table[1..], q1, q2);
    }
  }
}
