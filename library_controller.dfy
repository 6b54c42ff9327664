/**
 * The library controller (`database/controllers/libraryController.ts`): the
 * required-field validator and the `create`, `getById` and `getAll` handlers,
 * which follow the book controller's ladders with their own messages.
 */
module LibraryController {
  import opened Js
  import opened Collaborators
  import opened Http
  import opened Authentication

  const LibraryRequiredFields := ["address", "name"]

  /** `checkLibraryRequiredFields(library)`. */
  function CheckLibraryRequiredFields(library: JsValue): (ok: bool)
    ensures ok <==> Defined(Prop(library, "address")) && Defined(Prop(library, "name"))
  {
    var ok := EveryDefined(LibraryRequiredFields, library);
    assert LibraryRequiredFields[1] == "name";
    ok
  }

  // ---------------------------------------------------------------------------
  // create
  // ---------------------------------------------------------------------------

  function CreateOutcome(req: Request, svc: Services): Outcome
  {
    if !Truthy(req.body) || !Present(req.accessToken) then Reply(400, ErrorJson(IncompleteRequest))
    else AdminGate(svc, req.accessToken.value, CreateAfter(svc, OrEmptyObject(req.body)))
  }

  /** `create` after the admin check: validate `library`, insert it, 201. */
  function CreateAfter(svc: Services, source: JsValue): Outcome
  {
    var libraryData := Prop(source, "library");
    if !Truthy(libraryData) || !CheckLibraryRequiredFields(libraryData.value) then
      Reply(400, ErrorJson("User data is incorrect or unfulfilled"))
    else
      After(LibraryCreate(libraryData.value),
        match svc.answer(LibraryCreate(libraryData.value))
        case Throws(e) => Caught(e, "Failed to create library")
        case Returns(_) => SendStatus(201))
  }

  method Create(req: Request, svc: Services, res: Response) returns (calls: seq<Call>, settled: Settled)
    requires res.Pristine()
    modifies res
    ensures Shows(res, 0, calls, settled, CreateOutcome(req, svc))
  {
    if !Truthy(req.body) || !Present(req.accessToken) {
      res.StatusJson(400, ErrorJson(IncompleteRequest));
      return [], Resolved;
    }
    var token := req.accessToken.value;
    var decoded := VerifyToken(svc, token);
    if decoded.Throws? {
      return [JwtVerify(token)], Rejected(decoded.error);
    }
    if !Truthy(decoded.value.Get("isAdmin")) {
      res.SendStatus(403);
      return [JwtVerify(token)], Resolved;
    }
    var libraryData := Prop(OrEmptyObject(req.body), "library");
    if !Truthy(libraryData) || !CheckLibraryRequiredFields(libraryData.value) {
      res.StatusJson(400, ErrorJson("User data is incorrect or unfulfilled"));
      return [JwtVerify(token)], Resolved;
    }
    calls, settled := [JwtVerify(token), LibraryCreate(libraryData.value)], Resolved;
    var created := svc.answer(LibraryCreate(libraryData.value));
    if created.Throws? {
      CatchBlock(res, created.error, "Failed to create library");
      return;
    }
    res.SendStatus(201);
  }

  // ---------------------------------------------------------------------------
  // getById
  // ---------------------------------------------------------------------------

  function GetByIdOutcome(req: Request, svc: Services): Outcome
  {
    if !Present(req.accessToken) || !req.HasQuery("id") then SendStatus(400)
    else TokenGate(svc, req.accessToken.value, Reply(403, ErrorJson(ExpiredToken)), GetByIdAfter(svc, QueryText(req, "id")))
  }

  /** `getById` after the token step, for the query text `text` of the id. */
  function GetByIdAfter(svc: Services, text: string): Outcome
  {
    match IdKey(text)
    case None => SendStatus(400)
    case Some(key) =>
      After(LibraryGetById(key),
        match svc.answer(LibraryGetById(key))
        case Throws(e) => Caught(e, "Failed to retrieve library")
        case Returns(library) => if !Truthy(Some(library)) then SendStatus(404) else Reply(200, Json(library)))
  }

  method GetById(req: Request, svc: Services, res: Response) returns (calls: seq<Call>, settled: Settled)
    requires res.Pristine()
    modifies res
    ensures Shows(res, 0, calls, settled, GetByIdOutcome(req, svc))
  {
    if !Present(req.accessToken) || !req.HasQuery("id") {
      res.SendStatus(400);
      return [], Resolved;
    }
    var token := req.accessToken.value;
    var decoded := VerifyToken(svc, token);
    if decoded.Throws? {
      return [JwtVerify(token)], Rejected(decoded.error);
    }
    if !decoded.value.Truthy() {
      res.StatusJson(403, ErrorJson(ExpiredToken));
      return [JwtVerify(token)], Resolved;
    }
    var id := ParseInt(QueryText(req, "id"));
    if id.NaN? {
      res.SendStatus(400);
      return [JwtVerify(token)], Resolved;
    }
    var key := DecimalString(id.n);
    calls, settled := [JwtVerify(token), LibraryGetById(key)], Resolved;
    var library := svc.answer(LibraryGetById(key));
    if library.Throws? {
      CatchBlock(res, library.error, "Failed to retrieve library");
      return;
    }
    if !Truthy(Some(library.value)) {
      res.SendStatus(404);
      return;
    }
    res.StatusJson(200, Json(library.value));
  }

  // ---------------------------------------------------------------------------
  // getAll
  // ---------------------------------------------------------------------------

  function GetAllOutcome(req: Request, svc: Services): Outcome
  {
    if !Present(req.accessToken) then SendStatus(400)
    else TokenGate(svc, req.accessToken.value, SendStatus(403), GetAllAfter(svc))
  }

  function GetAllAfter(svc: Services): Outcome
  {
    After(LibraryGetAll,
      match svc.answer(LibraryGetAll)
      case Throws(e) => Failed(e, "Failed to retrieve all library")
      case Returns(list) =>
        if !Truthy(Some(list)) then SendStatus(404)
        else if LengthIsZero(list) then SendStatus(204)
        else Reply(200, Json(list)))
  }

  method GetAll(req: Request, svc: Services, res: Response) returns (calls: seq<Call>, settled: Settled)
    requires res.Pristine()
    modifies res
    ensures Shows(res, 0, calls, settled, GetAllOutcome(req, svc))
  {
    if !Present(req.accessToken) {
      res.SendStatus(400);
      return [], Resolved;
    }
    var token := req.accessToken.value;
    var decoded := VerifyToken(svc, token);
    if decoded.Throws? {
      return [JwtVerify(token)], Rejected(decoded.error);
    }
    if !decoded.value.Truthy() {
      res.SendStatus(403);
      return [JwtVerify(token)], Resolved;
    }
    calls, settled := [JwtVerify(token), LibraryGetAll], Resolved;
    var list := svc.answer(LibraryGetAll);
    if list.Throws? {
      res.StatusJson(500, FailureJson(list.error.message, "Failed to retrieve all library"));
      return;
    }
    if !Truthy(Some(list.value)) {
      res.SendStatus(404);
      return;
    }
    if LengthIsZero(list.value) {
      res.SendStatus(204);
      return;
    }
    res.StatusJson(200, Json(list.value));
  }

  // ---------------------------------------------------------------------------
  // Properties
  // ---------------------------------------------------------------------------

  /**
   * `create`: a token without a truthy `isAdmin` claim is a bare 403 before the
   * body is looked at; an admin's invalid `library` is a 400 with no insertion;
   * a valid one is inserted as sent and the answer is 201 exactly when the
   * insertion resolves.
   */
  lemma CreateAnswers(req: Request, svc: Services)
    requires Truthy(req.body) && Present(req.accessToken)
    ensures !AdminToken(req, svc) ==> NoWrites(CreateOutcome(req, svc).calls)
    ensures svc.verify(req.accessToken.value).Returns? && !AdminToken(req, svc) ==>
      CreateOutcome(req, svc) == Outcome([JwtVerify(req.accessToken.value)], [], Respond(403, Text("Forbidden")))
    ensures var libraryData := Prop(req.body.value, "library");
      AdminToken(req, svc) && !(Truthy(libraryData) && CheckLibraryRequiredFields(libraryData.value)) ==>
      CreateOutcome(req, svc) == Outcome([JwtVerify(req.accessToken.value)], [],
        Respond(400, ErrorJson("User data is incorrect or unfulfilled")))
    ensures var libraryData := Prop(req.body.value, "library");
      AdminToken(req, svc) && Truthy(libraryData) && CheckLibraryRequiredFields(libraryData.value) ==>
      && CreateOutcome(req, svc).calls == [JwtVerify(req.accessToken.value), LibraryCreate(libraryData.value)]
      && (CreateOutcome(req, svc).end == Respond(201, Text("Created")) <==> svc.answer(LibraryCreate(libraryData.value)).Returns?)
  {
    forall e: Thrown ensures Caught(e, "Failed to create library").end != Respond(201, Text("Created")) {
    }
    AdminGateOpening(svc, req.accessToken.value, CreateAfter(svc, OrEmptyObject(req.body)));
  }

  /**
   * `getById` past the token step: an id without digits is a bare 400 with no
   * lookup; otherwise the library is looked up by its normalised key, a
   * missing one is a bare 404, and a thrown error keeps its status
   * (`status || 500`).
   */
  lemma GetByIdAnswers(svc: Services, text: string)
    ensures IdKey(text).None? ==> GetByIdAfter(svc, text) == SendStatus(400)
    ensures IdKey(text).Some? ==>
      var key := IdKey(text).value;
      && GetByIdAfter(svc, text).calls == [LibraryGetById(key)]
      && match svc.answer(LibraryGetById(key))
         case Throws(e) => GetByIdAfter(svc, text).end.status == StatusOr(e, 500)
         case Returns(library) =>
           && (GetByIdAfter(svc, text).end == Respond(200, Json(library)) <==> Truthy(Some(library)))
           && (GetByIdAfter(svc, text).end == Respond(404, Text("Not Found")) <==> !Truthy(Some(library)))
  {
  }

  /**
   * `getAll` past the token step: 200 with the list exactly when the service
   * resolved with a truthy non-empty list, bare 404 and 204 otherwise, and a
   * thrown error is 500 whatever its status.
   */
  lemma GetAllAnswers(svc: Services)
    ensures GetAllAfter(svc).calls == [LibraryGetAll]
    ensures match svc.answer(LibraryGetAll)
      case Throws(e) => GetAllAfter(svc).end == Respond(500, FailureJson(e.message, "Failed to retrieve all library"))
      case Returns(list) =>
        && (GetAllAfter(svc).end == Respond(200, Json(list)) <==> Truthy(Some(list)) && !LengthIsZero(list))
        && (!Truthy(Some(list)) ==> GetAllAfter(svc).end == Respond(404, Text("Not Found")))
        && (Truthy(Some(list)) && LengthIsZero(list) ==> GetAllAfter(svc).end == Respond(204, Text("No Content")))
  {
  }

  /** The two read handlers never write. */
  lemma ReadHandlersOnlyRead(req: Request, svc: Services)
    ensures NoWrites(GetByIdOutcome(req, svc).calls)
    ensures NoWrites(GetAllOutcome(req, svc).calls)
  {
    GetByIdOnlyReads(req, svc);
    GetAllOnlyReads(req, svc);
  }

  lemma GetByIdOnlyReads(req: Request, svc: Services)
    ensures NoWrites(GetByIdOutcome(req, svc).calls)
  {
    if Present(req.accessToken) && req.HasQuery("id") {
      GetByIdAnswers(svc, QueryText(req, "id"));
      TokenGateNoWrites(svc, req.accessToken.value, Reply(403, ErrorJson(ExpiredToken)), GetByIdAfter(svc, QueryText(req, "id")));
    }
  }

  lemma GetAllOnlyReads(req: Request, svc: Services)
    ensures NoWrites(GetAllOutcome(req, svc).calls)
  {
    if Present(req.accessToken) {
      GetAllAnswers(svc);
      TokenGateNoWrites(svc, req.accessToken.value, SendStatus(403), GetAllAfter(svc));
    }
  }
}
