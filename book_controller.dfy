/**
 * The book controller (`database/controllers/bookController.ts`): the
 * required-field validator and the five handlers.
 *
 * Unlike the admin controller, `create`, `update` and `delete` demand an
 * admin token (`decodedToken.isAdmin`), ids arrive as query text and are
 * normalised through `parseInt` and `String`, and three of the catch blocks
 * answer 500 whatever status the error carries.
 */
module BookController {
  import opened Js
  import opened Collaborators
  import opened Http
  import opened Authentication

  const BookRequiredFields := [
    "author", "available", "city", "copies", "createdAt",
    "cdd", "edition", "id", "idCutter", "publisher",
    "releaseDate", "title", "updatedAt"]

  /** `checkBookRequiredFields(book)`: every one of the thirteen fields is neither undefined nor null. */
  function CheckBookRequiredFields(book: JsValue): (ok: bool)
    ensures ok <==> forall f :: f in BookRequiredFields ==> Defined(Prop(book, f))
  {
    EveryDefined(BookRequiredFields, book)
  }

  /** `{ ...v }` for the request body: an object's own fields. */
  function Spread(v: JsValue): JsValue
  {
    if v.Obj? then v else Obj(map[])
  }

  // ---------------------------------------------------------------------------
  // create
  // ---------------------------------------------------------------------------

  function CreateOutcome(req: Request, svc: Services): Outcome
  {
    if !Truthy(req.body) || !Present(req.accessToken) then Reply(400, ErrorJson(IncompleteRequest))
    else AdminGate(svc, req.accessToken.value, CreateAfter(svc, OrEmptyObject(req.body)))
  }

  /** `create` after the admin check: validate `book`, insert it, 201. */
  function CreateAfter(svc: Services, source: JsValue): Outcome
  {
    var bookData := Prop(source, "book");
    if !Truthy(bookData) || !CheckBookRequiredFields(bookData.value) then
      Reply(400, ErrorJson("User data is incorrect or unfulfilled"))
    else
      After(BookCreate(bookData.value),
        match svc.answer(BookCreate(bookData.value))
        case Throws(e) => Caught(e, "Failed to create admin")
        case Returns(_) => SendStatus(201))
  }

  method Create(req: Request, svc: Services, res: Response) returns (calls: seq<Call>, settled: Settled)
    requires res.Pristine()
    modifies res
    ensures Shows(res, 0, calls, settled, CreateOutcome(req, svc))
  {
    if !Truthy(req.body) || !Present(req.accessToken) {
      res.StatusJson(400, ErrorJson(IncompleteRequest));
      return [], Resolved;
    }
    var token := req.accessToken.value;
    var decoded := VerifyToken(svc, token);
    if decoded.Throws? {
      return [JwtVerify(token)], Rejected(decoded.error);
    }
    if !Truthy(decoded.value.Get("isAdmin")) {
      res.SendStatus(403);
      return [JwtVerify(token)], Resolved;
    }
    var rest;
    rest, settled := StoreBook(svc, res, OrEmptyObject(req.body));
    calls := [JwtVerify(token)] + rest;
  }

  /** The method side of `CreateAfter`. */
  method StoreBook(svc: Services, res: Response, source: JsValue) returns (calls: seq<Call>, settled: Settled)
    requires res.Pristine()
    modifies res
    ensures Shows(res, 0, calls, settled, CreateAfter(svc, source))
  {
    var bookData := Prop(source, "book");
    if !Truthy(bookData) || !CheckBookRequiredFields(bookData.value) {
      res.StatusJson(400, ErrorJson("User data is incorrect or unfulfilled"));
      return [], Resolved;
    }
    calls, settled := [BookCreate(bookData.value)], Resolved;
    var created := svc.answer(BookCreate(bookData.value));
    if created.Throws? {
      CatchBlock(res, created.error, "Failed to create admin");
      return;
    }
    res.SendStatus(201);
  }

  // ---------------------------------------------------------------------------
  // getAll
  // ---------------------------------------------------------------------------

  function GetAllOutcome(req: Request, svc: Services): Outcome
  {
    if !Present(req.accessToken) then SendStatus(400)
    else TokenGate(svc, req.accessToken.value, SendStatus(403), GetAllAfter(svc))
  }

  function GetAllAfter(svc: Services): Outcome
  {
    After(BookGetAll,
      match svc.answer(BookGetAll)
      case Throws(e) => Failed(e, "Failed to retrieve all groups")
      case Returns(list) =>
        if !Truthy(Some(list)) then SendStatus(404)
        else if LengthIsZero(list) then SendStatus(204)
        else Reply(200, Json(list)))
  }

  method GetAll(req: Request, svc: Services, res: Response) returns (calls: seq<Call>, settled: Settled)
    requires res.Pristine()
    modifies res
    ensures Shows(res, 0, calls, settled, GetAllOutcome(req, svc))
  {
    if !Present(req.accessToken) {
      res.SendStatus(400);
      return [], Resolved;
    }
    var token := req.accessToken.value;
    var decoded := VerifyToken(svc, token);
    if decoded.Throws? {
      return [JwtVerify(token)], Rejected(decoded.error);
    }
    if !decoded.value.Truthy() {
      res.SendStatus(403);
      return [JwtVerify(token)], Resolved;
    }
    calls, settled := [JwtVerify(token), BookGetAll], Resolved;
    var list := svc.answer(BookGetAll);
    if list.Throws? {
      res.StatusJson(500, FailureJson(list.error.message, "Failed to retrieve all groups"));
      return;
    }
    if !Truthy(Some(list.value)) {
      res.SendStatus(404);
      return;
    }
    if LengthIsZero(list.value) {
      res.SendStatus(204);
      return;
    }
    res.StatusJson(200, Json(list.value));
  }

  // ---------------------------------------------------------------------------
  // getById
  // ---------------------------------------------------------------------------

  function GetByIdOutcome(req: Request, svc: Services): Outcome
  {
    if !Present(req.accessToken) || !req.HasQuery("id") then SendStatus(400)
    else TokenGate(svc, req.accessToken.value, Reply(403, ErrorJson(ExpiredToken)), GetByIdAfter(svc, QueryText(req, "id")))
  }

  /** `getById` after the token step, for the query text `text` of the id. */
  function GetByIdAfter(svc: Services, text: string): Outcome
  {
    match IdKey(text)
    case None => SendStatus(400)
    case Some(key) =>
      After(BookGetById(key),
        match svc.answer(BookGetById(key))
        case Throws(e) => Caught(e, "Failed to retrieve admin")
        case Returns(book) => if !Truthy(Some(book)) then SendStatus(404) else Reply(200, Json(book)))
  }

  method GetById(req: Request, svc: Services, res: Response) returns (calls: seq<Call>, settled: Settled)
    requires res.Pristine()
    modifies res
    ensures Shows(res, 0, calls, settled, GetByIdOutcome(req, svc))
  {
    if !Present(req.accessToken) || !req.HasQuery("id") {
      res.SendStatus(400);
      return [], Resolved;
    }
    var token := req.accessToken.value;
    var decoded := VerifyToken(svc, token);
    if decoded.Throws? {
      return [JwtVerify(token)], Rejected(decoded.error);
    }
    if !decoded.value.Truthy() {
      res.StatusJson(403, ErrorJson(ExpiredToken));
      return [JwtVerify(token)], Resolved;
    }
    var id := ParseInt(QueryText(req, "id"));
    if id.NaN? {
      res.SendStatus(400);
      return [JwtVerify(token)], Resolved;
    }
    var key := DecimalString(id.n);
    calls, settled := [JwtVerify(token), BookGetById(key)], Resolved;
    var book := svc.answer(BookGetById(key));
    if book.Throws? {
      CatchBlock(res, book.error, "Failed to retrieve admin");
      return;
    }
    if !Truthy(Some(book.value)) {
      res.SendStatus(404);
      return;
    }
    res.StatusJson(200, Json(book.value));
  }

  // ---------------------------------------------------------------------------
  // update
  // ---------------------------------------------------------------------------

  /** `update`: the id is parsed and checked before the token is verified. */
  function UpdateOutcome(req: Request, svc: Services): Outcome
  {
    if !Truthy(req.body) || !Present(req.accessToken) || !req.HasQuery("id") then SendStatus(400)
    else
      match IdKey(QueryText(req, "id"))
      case None => SendStatus(400)
      case Some(key) => AdminGate(svc, req.accessToken.value, UpdateAfter(svc, key, Spread(req.body.value)))
  }

  /** `update` after the admin check: the book must exist, then it is updated; 200. */
  function UpdateAfter(svc: Services, key: string, changes: JsValue): Outcome
  {
    After(BookGetById(key),
      match svc.answer(BookGetById(key))
      case Throws(e) => Failed(e, "Failed to update group info")
      case Returns(book) =>
        if !Truthy(Some(book)) then SendStatus(404)
        else
          After(BookUpdate(key, changes),
            match svc.answer(BookUpdate(key, changes))
            case Throws(e) => Failed(e, "Failed to update group info")
            case Returns(_) => SendStatus(200)))
  }

  method Update(req: Request, svc: Services, res: Response) returns (calls: seq<Call>, settled: Settled)
    requires res.Pristine()
    modifies res
    ensures Shows(res, 0, calls, settled, UpdateOutcome(req, svc))
  {
    if !Truthy(req.body) || !Present(req.accessToken) || !req.HasQuery("id") {
      res.SendStatus(400);
      return [], Resolved;
    }
    var bookData := Spread(req.body.value);
    var id := ParseInt(QueryText(req, "id"));
    if id.NaN? {
      res.SendStatus(400);
      return [], Resolved;
    }
    var token := req.accessToken.value;
    var decoded := VerifyToken(svc, token);
    if decoded.Throws? {
      return [JwtVerify(token)], Rejected(decoded.error);
    }
    if !Truthy(decoded.value.Get("isAdmin")) {
      res.SendStatus(403);
      return [JwtVerify(token)], Resolved;
    }
    var key := DecimalString(id.n);
    var book := svc.answer(BookGetById(key));
    if book.Throws? {
      res.StatusJson(500, FailureJson(book.error.message, "Failed to update group info"));
      return [JwtVerify(token), BookGetById(key)], Resolved;
    }
    if !Truthy(Some(book.value)) {
      res.SendStatus(404);
      return [JwtVerify(token), BookGetById(key)], Resolved;
    }
    calls, settled := [JwtVerify(token), BookGetById(key), BookUpdate(key, bookData)], Resolved;
    var updated := svc.answer(BookUpdate(key, bookData));
    if updated.Throws? {
      res.StatusJson(500, FailureJson(updated.error.message, "Failed to update group info"));
      return;
    }
    res.SendStatus(200);
  }

  // ---------------------------------------------------------------------------
  // delete
  // ---------------------------------------------------------------------------

  /** `delete`: the token is verified and the admin flag checked before the id is parsed. */
  function DeleteOutcome(req: Request, svc: Services): Outcome
  {
    if !Present(req.accessToken) || !req.HasQuery("id") then SendStatus(400)
    else AdminGate(svc, req.accessToken.value, DeleteAfter(svc, QueryText(req, "id")))
  }

  function DeleteAfter(svc: Services, text: string): Outcome
  {
    match IdKey(text)
    case None => SendStatus(400)
    case Some(key) =>
      After(BookGetById(key),
        match svc.answer(BookGetById(key))
        case Throws(e) => Failed(e, "Failed to delete group")
        case Returns(book) =>
          if !Truthy(Some(book)) then SendStatus(404)
          else
            After(BookDelete(key),
              match svc.answer(BookDelete(key))
              case Throws(e) => Failed(e, "Failed to delete group")
              case Returns(_) => SendStatus(204)))
  }

  method Delete(req: Request, svc: Services, res: Response) returns (calls: seq<Call>, settled: Settled)
    requires res.Pristine()
    modifies res
    ensures Shows(res, 0, calls, settled, DeleteOutcome(req, svc))
  {
    if !Present(req.accessToken) || !req.HasQuery("id") {
      res.SendStatus(400);
      return [], Resolved;
    }
    var token := req.accessToken.value;
    var decoded := VerifyToken(svc, token);
    if decoded.Throws? {
      return [JwtVerify(token)], Rejected(decoded.error);
    }
    if !Truthy(decoded.value.Get("isAdmin")) {
      res.SendStatus(403);
      return [JwtVerify(token)], Resolved;
    }
    var rest;
    rest, settled := Remove(svc, res, QueryText(req, "id"));
    calls := [JwtVerify(token)] + rest;
  }

  /** The method side of `DeleteAfter`. */
  method Remove(svc: Services, res: Response, text: string) returns (calls: seq<Call>, settled: Settled)
    requires res.Pristine()
    modifies res
    ensures Shows(res, 0, calls, settled, DeleteAfter(svc, text))
  {
    var id := ParseInt(text);
    if id.NaN? {
      res.SendStatus(400);
      return [], Resolved;
    }
    var key := DecimalString(id.n);
    var book := svc.answer(BookGetById(key));
    if book.Throws? {
      res.StatusJson(500, FailureJson(book.error.message, "Failed to delete group"));
      return [BookGetById(key)], Resolved;
    }
    if !Truthy(Some(book.value)) {
      res.SendStatus(404);
      return [BookGetById(key)], Resolved;
    }
    calls, settled := [BookGetById(key), BookDelete(key)], Resolved;
    var deleted := svc.answer(BookDelete(key));
    if deleted.Throws? {
      res.StatusJson(500, FailureJson(deleted.error.message, "Failed to delete group"));
      return;
    }
    res.SendStatus(204);
  }

  /** Books are created, updated and deleted only on an admin token. */
  lemma BookWritesNeedAdmin(req: Request, svc: Services)
    ensures !NoWrites(CreateOutcome(req, svc).calls) ==> AdminToken(req, svc)
    ensures !NoWrites(UpdateOutcome(req, svc).calls) ==> AdminToken(req, svc)
    ensures !NoWrites(DeleteOutcome(req, svc).calls) ==> AdminToken(req, svc)
  {
    if Present(req.accessToken) {
      var token := req.accessToken.value;
      AdminGateOpening(svc, token, CreateAfter(svc, OrEmptyObject(req.body)));
      AdminGateOpening(svc, token, DeleteAfter(svc, QueryText(req, "id")));
      if Truthy(req.body) && IdKey(QueryText(req, "id")).Some? {
        AdminGateOpening(svc, token, UpdateAfter(svc, IdKey(QueryText(req, "id")).value, Spread(req.body.value)));
      }
    }
  }

  // ---------------------------------------------------------------------------
  // Properties of the handlers
  // ---------------------------------------------------------------------------

  /**
   * `create` past the admin check: an invalid `book` is a 400 with no call;
   * a valid one is inserted as sent, and the answer is 201 exactly when the
   * insertion resolves.
   */
  lemma CreateAnswers(svc: Services, source: JsValue)
    ensures var bookData := Prop(source, "book");
      !(Truthy(bookData) && CheckBookRequiredFields(bookData.value)) ==>
      CreateAfter(svc, source) == Reply(400, ErrorJson("User data is incorrect or unfulfilled"))
    ensures var bookData := Prop(source, "book");
      Truthy(bookData) && CheckBookRequiredFields(bookData.value) ==>
      && CreateAfter(svc, source).calls == [BookCreate(bookData.value)]
      && (CreateAfter(svc, source).end == Respond(201, Text("Created")) <==> svc.answer(BookCreate(bookData.value)).Returns?)
  {
    forall e: Thrown ensures Caught(e, "Failed to create admin").end != Respond(201, Text("Created")) {
    }
  }

  /**
   * `getAll` past the token step: 200 with the list exactly when the service
   * resolved with a truthy non-empty list, bare 404 and 204 otherwise, and a
   * thrown error is 500 whatever its status.
   */
  lemma GetAllAnswers(svc: Services)
    ensures GetAllAfter(svc).calls == [BookGetAll]
    ensures match svc.answer(BookGetAll)
      case Throws(e) => GetAllAfter(svc).end == Respond(500, FailureJson(e.message, "Failed to retrieve all groups"))
      case Returns(list) =>
        && (GetAllAfter(svc).end == Respond(200, Json(list)) <==> Truthy(Some(list)) && !LengthIsZero(list))
        && (!Truthy(Some(list)) ==> GetAllAfter(svc).end == Respond(404, Text("Not Found")))
        && (Truthy(Some(list)) && LengthIsZero(list) ==> GetAllAfter(svc).end == Respond(204, Text("No Content")))
  {
  }

  /**
   * `getById` past the token step: an id without digits is a bare 400 with no
   * lookup; otherwise the book is looked up by its normalised key, and a
   * thrown error keeps its status (`status || 500`).
   */
  lemma GetByIdAnswers(svc: Services, text: string)
    ensures IdKey(text).None? ==> GetByIdAfter(svc, text) == SendStatus(400)
    ensures IdKey(text).Some? ==>
      var key := IdKey(text).value;
      && GetByIdAfter(svc, text).calls == [BookGetById(key)]
      && match svc.answer(BookGetById(key))
         case Throws(e) => GetByIdAfter(svc, text).end.status == StatusOr(e, 500)
         case Returns(book) =>
           (GetByIdAfter(svc, text).end == Respond(200, Json(book)) <==> Truthy(Some(book)))
  {
  }

  /** `update` parses the id before it verifies the token: an id without digits is a 400 with no call at all. */
  lemma UpdateChecksIdFirst(req: Request, svc: Services)
    requires Truthy(req.body) && Present(req.accessToken) && req.HasQuery("id")
    requires IdKey(QueryText(req, "id")).None?
    ensures UpdateOutcome(req, svc) == SendStatus(400)
  {
  }

  /**
   * `delete` verifies the token and checks the admin flag before it parses the
   * id: an id without digits is a 400 only for an admin, after the token call.
   */
  lemma DeleteChecksAdminFirst(req: Request, svc: Services)
    requires Present(req.accessToken) && req.HasQuery("id")
    requires IdKey(QueryText(req, "id")).None?
    ensures AdminToken(req, svc) ==>
      DeleteOutcome(req, svc) == Outcome([JwtVerify(req.accessToken.value)], [], Respond(400, Text("Bad Request")))
    ensures !AdminToken(req, svc) ==> DeleteOutcome(req, svc).end != Respond(400, Text("Bad Request"))
  {
    AdminGateOpening(svc, req.accessToken.value, DeleteAfter(svc, QueryText(req, "id")));
  }

  /** An admin's `update` with a parsable id goes on to the book, under the normalised key, after the token call. */
  lemma UpdateForAdmin(req: Request, svc: Services)
    requires Truthy(req.body) && AdminToken(req, svc) && req.HasQuery("id")
    requires IdKey(QueryText(req, "id")).Some?
    ensures UpdateOutcome(req, svc) ==
      After(JwtVerify(req.accessToken.value), UpdateAfter(svc, IdKey(QueryText(req, "id")).value, Spread(req.body.value)))
  {
    AdminGateOpening(svc, req.accessToken.value, UpdateAfter(svc, IdKey(QueryText(req, "id")).value, Spread(req.body.value)));
  }

  /** An admin's `delete` goes on to the id, whatever it is, after the token call. */
  lemma DeleteForAdmin(req: Request, svc: Services)
    requires AdminToken(req, svc) && req.HasQuery("id")
    ensures DeleteOutcome(req, svc) == After(JwtVerify(req.accessToken.value), DeleteAfter(svc, QueryText(req, "id")))
  {
    AdminGateOpening(svc, req.accessToken.value, DeleteAfter(svc, QueryText(req, "id")));
  }

  /**
   * `update` past the admin check: a missing book is a 404 with nothing
   * written; otherwise the spread body is written under the same key, and
   * the answer is 200 exactly when the write resolves; any thrown error is a
   * 500 whatever its status.
   */
  lemma UpdateAnswers(svc: Services, key: string, changes: JsValue)
    ensures var o := UpdateAfter(svc, key, changes);
      var found := svc.answer(BookGetById(key));
      && (found.Returns? && !Truthy(Some(found.value)) ==>
            o == Outcome([BookGetById(key)], [], Respond(404, Text("Not Found"))))
      && (BookUpdate(key, changes) in o.calls <==> found.Returns? && Truthy(Some(found.value)))
      && (!NoWrites(o.calls) <==> BookUpdate(key, changes) in o.calls)
      && (o.end == Respond(200, Text("OK")) <==>
            found.Returns? && Truthy(Some(found.value)) && svc.answer(BookUpdate(key, changes)).Returns?)
      && (o.end.Respond? && o.end.body.Json? ==> o.end.status == 500)
  {
  }

  /**
   * `delete` past the admin check and the id: a missing book is a 404 with
   * nothing written; the book is deleted exactly when it was found, and the
   * answer is 204 exactly when the deletion resolves; any thrown error is a
   * 500 whatever its status.
   */
  lemma DeleteAnswers(svc: Services, text: string)
    requires IdKey(text).Some?
    ensures var key := IdKey(text).value;
      var o := DeleteAfter(svc, text);
      var found := svc.answer(BookGetById(key));
      && (found.Returns? && !Truthy(Some(found.value)) ==>
            o == Outcome([BookGetById(key)], [], Respond(404, Text("Not Found"))))
      && (BookDelete(key) in o.calls <==> found.Returns? && Truthy(Some(found.value)))
      && (!NoWrites(o.calls) <==> BookDelete(key) in o.calls)
      && (o.end == Respond(204, Text("No Content")) <==>
            found.Returns? && Truthy(Some(found.value)) && svc.answer(BookDelete(key)).Returns?)
      && (o.end.Respond? && o.end.body.Json? ==> o.end.status == 500)
  {
  }

  /** `getAll` never writes. */
  lemma GetAllOnlyReads(req: Request, svc: Services)
    ensures NoWrites(GetAllOutcome(req, svc).calls)
  {
    if Present(req.accessToken) {
      GetAllAnswers(svc);
      TokenGateNoWrites(svc, req.accessToken.value, SendStatus(403), GetAllAfter(svc));
    }
  }

  /** `getById` never writes. */
  lemma GetByIdOnlyReads(req: Request, svc: Services)
    ensures NoWrites(GetByIdOutcome(req, svc).calls)
  {
    if Present(req.accessToken) && req.HasQuery("id") {
      var text := QueryText(req, "id");
      assert NoWrites(GetByIdAfter(svc, text).calls) by {
        GetByIdAnswers(svc, text);
      }
      TokenGateNoWrites(svc, req.accessToken.value, Reply(403, ErrorJson(ExpiredToken)), GetByIdAfter(svc, text));
    }
  }
}
