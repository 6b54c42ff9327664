/**
 * The admin controller (`database/controllers/userController.ts`): the two
 * required-field validators and the guard ladders of its eight handlers.
 *
 * Every handler has the same opening: a first guard on the header (and the
 * body or query key it needs) answering 400, then `verifyToken` outside the
 * try block, whose error escapes, then `if (!decodedToken)` answering 403.
 * What follows the opening is the handler's own part (`...After`), which ends
 * in the try block whose catch answers `error.status || 500`.
 */
module UserController {
  import opened Js
  import opened Collaborators
  import opened Http
  import opened Authentication

  const AdminRequiredFields := ["address", "birthDate", "cpf", "name", "phone"]
  const UserRequiredFields := ["email", "password", "isActive", "isAdmin"]

  /** `checkAdminRequiredFields(admin)`. */
  function CheckAdminRequiredFields(admin: JsValue): (ok: bool)
    ensures ok <==>
      Defined(Prop(admin, "address")) && Defined(Prop(admin, "birthDate")) && Defined(Prop(admin, "cpf"))
      && Defined(Prop(admin, "name")) && Defined(Prop(admin, "phone"))
  {
    var ok := EveryDefined(AdminRequiredFields, admin);
    assert AdminRequiredFields[2] == "cpf";
    ok
  }

  /** `checkUserRequiredFields(user)`: `false` is a present value, only undefined and null are missing. */
  function CheckUserRequiredFields(user: JsValue): (ok: bool)
    ensures ok <==>
      Defined(Prop(user, "email")) && Defined(Prop(user, "password"))
      && Defined(Prop(user, "isActive")) && Defined(Prop(user, "isAdmin"))
  {
    var ok := EveryDefined(UserRequiredFields, user);
    assert UserRequiredFields[1] == "password";
    ok
  }

  /** `req.query[key] ? parseInt(req.query[key], 10) : undefined`. */
  function OptionalNumber(req: Request, key: string): (r: Option<JsNumber>)
    ensures r.Some? <==> req.HasQuery(key)
  {
    if req.HasQuery(key) then Some(ParseInt(req.query[key])) else None
  }

  /** `n && Number.isNaN(n)` for an optional parsed number. */
  predicate NaNGuard(n: Option<JsNumber>)
  {
    n.Some? && Truthy(Some(Num(n.value))) && n.value.NaN?
  }

  function Denied(): Outcome
  {
    Reply(403, ErrorJson(ExpiredToken))
  }

  /**
   * The opening every handler shares: 400 unless `admitted`, then the token
   * step, then the handler's own part `rest`.
   */
  function Gated(admitted: bool, req: Request, svc: Services, rest: Outcome): Outcome
    requires admitted ==> Present(req.accessToken)
  {
    if !admitted then Reply(400, ErrorJson(IncompleteRequest))
    else TokenGate(svc, req.accessToken.value, Denied(), rest)
  }

  /** A lookup inside the try block: 404 for a falsy record, 200 with the record otherwise. */
  function LookupOutcome(svc: Services, c: Call, notFound: string, failure: string): Outcome
  {
    After(c,
      match svc.answer(c)
      case Throws(e) => Caught(e, failure)
      case Returns(r) => if !Truthy(Some(r)) then Reply(404, ErrorJson(notFound)) else Reply(200, Json(r)))
  }

  /** A list query inside the try block: 404 for a falsy list, 204 for an empty one, 200 otherwise. */
  function ListOutcome(svc: Services, c: Call, missing: string, empty: string, failure: string): Outcome
  {
    After(c,
      match svc.answer(c)
      case Throws(e) => Caught(e, failure)
      case Returns(list) =>
        if !Truthy(Some(list)) then Reply(404, ErrorJson(missing))
        else if LengthIsZero(list) then Reply(204, MessageJson(empty))
        else Reply(200, Json(list)))
  }

  /** The method side of `LookupOutcome`. */
  method Lookup(svc: Services, res: Response, c: Call, notFound: string, failure: string)
    returns (calls: seq<Call>, settled: Settled)
    requires res.Pristine()
    modifies res
    ensures Shows(res, 0, calls, settled, LookupOutcome(svc, c, notFound, failure))
  {
    calls, settled := [c], Resolved;
    var found := svc.answer(c);
    if found.Throws? {
      CatchBlock(res, found.error, failure);
      return;
    }
    if !Truthy(Some(found.value)) {
      res.StatusJson(404, ErrorJson(notFound));
      return;
    }
    res.StatusJson(200, Json(found.value));
  }

  /** The method side of `ListOutcome`. */
  method List(svc: Services, res: Response, c: Call, missing: string, empty: string, failure: string)
    returns (calls: seq<Call>, settled: Settled)
    requires res.Pristine()
    modifies res
    ensures Shows(res, 0, calls, settled, ListOutcome(svc, c, missing, empty, failure))
  {
    calls, settled := [c], Resolved;
    var list := svc.answer(c);
    if list.Throws? {
      CatchBlock(res, list.error, failure);
      return;
    }
    if !Truthy(Some(list.value)) {
      res.StatusJson(404, ErrorJson(missing));
      return;
    }
    if LengthIsZero(list.value) {
      res.StatusJson(204, MessageJson(empty));
      return;
    }
    res.StatusJson(200, Json(list.value));
  }

  // ---------------------------------------------------------------------------
  // create
  // ---------------------------------------------------------------------------

  function CreateOutcome(req: Request, svc: Services): Outcome
  {
    Gated(Truthy(req.body) && Present(req.accessToken), req, svc, CreateAfter(svc, OrEmptyObject(req.body)))
  }

  /** `create` after the token step: validate `admin` and `user` of the body `source`. */
  function CreateAfter(svc: Services, source: JsValue): Outcome
  {
    var adminData := Prop(source, "admin");
    var userData := Prop(source, "user");
    if !Truthy(adminData) || !CheckAdminRequiredFields(adminData.value) then
      Reply(400, ErrorJson("Admin data is incorrect or unfulfilled"))
    else if !Truthy(userData) || !CheckUserRequiredFields(userData.value) then
      Reply(400, ErrorJson("User data is incorrect or unfulfilled"))
    else CreateRecords(svc, adminData.value, userData.value)
  }

  /** The try block of `create`, first half: the duplicate e-mail and CPF checks. */
  function CreateRecords(svc: Services, adminData: JsValue, userData: JsValue): Outcome
    requires Prop(userData, "email").Some? && Prop(userData, "password").Some? && Prop(adminData, "cpf").Some?
  {
    DuplicateChecks(svc, adminData, userData, InsertRecords(svc, adminData, userData))
  }

  /** The duplicate e-mail and CPF checks, followed by `rest` when both pass. */
  function DuplicateChecks(svc: Services, adminData: JsValue, userData: JsValue, rest: Outcome): Outcome
    requires Prop(userData, "email").Some? && Prop(adminData, "cpf").Some?
  {
    var emailLookup := UserGetByEmail(Prop(userData, "email").value);
    After(emailLookup,
      match svc.answer(emailLookup)
      case Throws(e) => Caught(e, "Failed to create admin")
      case Returns(sameEmail) =>
        if Truthy(Some(sameEmail)) then Reply(409, ErrorJson("User email already registered"))
        else
          var cpfLookup := AdminGetByCpf(Prop(adminData, "cpf").value);
          After(cpfLookup,
            match svc.answer(cpfLookup)
            case Throws(e) => Caught(e, "Failed to create admin")
            case Returns(sameCpf) =>
              if Truthy(Some(sameCpf)) then Reply(409, ErrorJson("Admin CPF already registered"))
              else rest))
  }

  /** Both duplicate checks of `create` resolve, each with a falsy record. */
  predicate NoDuplicates(svc: Services, adminData: JsValue, userData: JsValue)
    requires Prop(userData, "email").Some? && Prop(adminData, "cpf").Some?
  {
    var emailLookup := UserGetByEmail(Prop(userData, "email").value);
    var cpfLookup := AdminGetByCpf(Prop(adminData, "cpf").value);
    && svc.answer(emailLookup).Returns? && !Truthy(Some(svc.answer(emailLookup).value))
    && svc.answer(cpfLookup).Returns? && !Truthy(Some(svc.answer(cpfLookup).value))
  }

  /**
   * The try block of `create`, second half: hash the password, insert the
   * user with the hash in place of the password, then the admin.
   */
  function InsertRecords(svc: Services, adminData: JsValue, userData: JsValue): Outcome
    requires Prop(userData, "password").Some?
  {
    var plain := Prop(userData, "password").value;
    After(BcryptHash(plain, HashRounds),
      match HashPassword(svc, plain)
      case Throws(e) => Caught(e, "Failed to create admin")
      case Returns(hash) =>
        var hashedUser := SetProp(userData, "password", hash);
        After(UserCreate(hashedUser),
          match svc.answer(UserCreate(hashedUser))
          case Throws(e) => Caught(e, "Failed to create admin")
          case Returns(newUser) =>
            if !Truthy(Some(newUser)) then
              Reply(500, ErrorJson("Unexpected error occurred while creating user"))
            else LinkAdmin(svc, adminData, newUser)))
  }

  /** `adminData` with `user` set to `parseInt(newUser.id, 10)`. */
  function LinkedAdmin(adminData: JsValue, newUser: JsValue): JsValue
  {
    SetProp(adminData, "user", Num(ParseInt(ToJsString(Prop(newUser, "id")))))
  }

  /** The last step of `create`: the admin, linked to the new user, is inserted; 201. */
  function LinkAdmin(svc: Services, adminData: JsValue, newUser: JsValue): Outcome
  {
    var linked := LinkedAdmin(adminData, newUser);
    After(AdminCreate(linked),
      match svc.answer(AdminCreate(linked))
      case Throws(e) => Caught(e, "Failed to create admin")
      case Returns(_) => SendStatus(201))
  }

  method Create(req: Request, svc: Services, res: Response) returns (calls: seq<Call>, settled: Settled)
    requires res.Pristine()
    modifies res
    ensures Shows(res, 0, calls, settled, CreateOutcome(req, svc))
  {
    if !Truthy(req.body) || !Present(req.accessToken) {
      res.StatusJson(400, ErrorJson(IncompleteRequest));
      return [], Resolved;
    }
    var token := req.accessToken.value;
    var decoded := VerifyToken(svc, token);
    if decoded.Throws? {
      return [JwtVerify(token)], Rejected(decoded.error);
    }
    if !decoded.value.Truthy() {
      res.StatusJson(403, ErrorJson(ExpiredToken));
      return [JwtVerify(token)], Resolved;
    }
    var rest;
    rest, settled := CreateChecked(svc, res, OrEmptyObject(req.body));
    calls := [JwtVerify(token)] + rest;
  }

  /** The method side of `CreateAfter`. */
  method CreateChecked(svc: Services, res: Response, source: JsValue) returns (calls: seq<Call>, settled: Settled)
    requires res.Pristine()
    modifies res
    ensures Shows(res, 0, calls, settled, CreateAfter(svc, source))
  {
    var adminData, userData := Prop(source, "admin"), Prop(source, "user");
    if !Truthy(adminData) || !CheckAdminRequiredFields(adminData.value) {
      res.StatusJson(400, ErrorJson("Admin data is incorrect or unfulfilled"));
      return [], Resolved;
    }
    if !Truthy(userData) || !CheckUserRequiredFields(userData.value) {
      res.StatusJson(400, ErrorJson("User data is incorrect or unfulfilled"));
      return [], Resolved;
    }
    calls, settled := StoreRecords(svc, res, adminData.value, userData.value);
  }

  /** The method side of `CreateRecords`. */
  method StoreRecords(svc: Services, res: Response, admin: JsValue, user: JsValue)
    returns (calls: seq<Call>, settled: Settled)
    requires res.Pristine()
    requires Prop(user, "email").Some? && Prop(user, "password").Some? && Prop(admin, "cpf").Some?
    modifies res
    ensures Shows(res, 0, calls, settled, CreateRecords(svc, admin, user))
  {
    var emailLookup := UserGetByEmail(Prop(user, "email").value);
    var sameEmail := svc.answer(emailLookup);
    if sameEmail.Throws? {
      CatchBlock(res, sameEmail.error, "Failed to create admin");
      return [emailLookup], Resolved;
    }
    if Truthy(Some(sameEmail.value)) {
      res.StatusJson(409, ErrorJson("User email already registered"));
      return [emailLookup], Resolved;
    }
    var cpfLookup := AdminGetByCpf(Prop(admin, "cpf").value);
    var sameCpf := svc.answer(cpfLookup);
    if sameCpf.Throws? {
      CatchBlock(res, sameCpf.error, "Failed to create admin");
      return [emailLookup, cpfLookup], Resolved;
    }
    if Truthy(Some(sameCpf.value)) {
      res.StatusJson(409, ErrorJson("Admin CPF already registered"));
      return [emailLookup, cpfLookup], Resolved;
    }
    var inserted;
    inserted, settled := Insert(svc, res, admin, user);
    calls := [emailLookup] + ([cpfLookup] + inserted);
  }

  /** The method side of `InsertRecords`. */
  method Insert(svc: Services, res: Response, admin: JsValue, user: JsValue)
    returns (calls: seq<Call>, settled: Settled)
    requires res.Pristine()
    requires Prop(user, "password").Some?
    modifies res
    ensures Shows(res, 0, calls, settled, InsertRecords(svc, admin, user))
  {
    var plain := Prop(user, "password").value;
    var hash := HashPassword(svc, plain);
    if hash.Throws? {
      CatchBlock(res, hash.error, "Failed to create admin");
      return [BcryptHash(plain, HashRounds)], Resolved;
    }
    var hashedUser := SetProp(user, "password", hash.value);
    var newUser := svc.answer(UserCreate(hashedUser));
    if newUser.Throws? {
      CatchBlock(res, newUser.error, "Failed to create admin");
      return [BcryptHash(plain, HashRounds), UserCreate(hashedUser)], Resolved;
    }
    if !Truthy(Some(newUser.value)) {
      res.StatusJson(500, ErrorJson("Unexpected error occurred while creating user"));
      return [BcryptHash(plain, HashRounds), UserCreate(hashedUser)], Resolved;
    }
    var linked;
    linked, settled := CreateLinkedAdmin(svc, res, admin, newUser.value);
    calls := [BcryptHash(plain, HashRounds)] + ([UserCreate(hashedUser)] + linked);
  }

  /** The method side of `LinkAdmin`. */
  method CreateLinkedAdmin(svc: Services, res: Response, admin: JsValue, newUser: JsValue)
    returns (calls: seq<Call>, settled: Settled)
    requires res.Pristine()
    modifies res
    ensures Shows(res, 0, calls, settled, LinkAdmin(svc, admin, newUser))
  {
    var linked := LinkedAdmin(admin, newUser);
    calls, settled := [AdminCreate(linked)], Resolved;
    var created := svc.answer(AdminCreate(linked));
    if created.Throws? {
      CatchBlock(res, created.error, "Failed to create admin");
      return;
    }
    res.SendStatus(201);
  }

  // ---------------------------------------------------------------------------
  // getAll
  // ---------------------------------------------------------------------------

  function GetAllOutcome(req: Request, svc: Services): Outcome
  {
    Gated(Present(req.accessToken), req, svc, GetAllAfter(req, svc))
  }

  /** `getAll` after the token step: the filters, the two NaN guards, then the list query. */
  function GetAllAfter(req: Request, svc: Services): Outcome
  {
    var isActive := req.QueryIsTrue("isActive");
    var offset := OptionalNumber(req, "offset");
    var take := OptionalNumber(req, "take");
    if NaNGuard(offset) then Reply(400, ErrorJson("Offset is not a valid number"))
    else if NaNGuard(take) then Reply(400, ErrorJson("Take is not a valid number"))
    else ListOutcome(svc, AdminGetAll(isActive, offset, take),
      "Admin list is null or undefined", "Admin list is empty", "Failed to retrieve all admins")
  }

  method GetAll(req: Request, svc: Services, res: Response) returns (calls: seq<Call>, settled: Settled)
    requires res.Pristine()
    modifies res
    ensures Shows(res, 0, calls, settled, GetAllOutcome(req, svc))
  {
    if !Present(req.accessToken) {
      res.StatusJson(400, ErrorJson(IncompleteRequest));
      return [], Resolved;
    }
    var token := req.accessToken.value;
    var decoded := VerifyToken(svc, token);
    if decoded.Throws? {
      return [JwtVerify(token)], Rejected(decoded.error);
    }
    if !decoded.value.Truthy() {
      res.StatusJson(403, ErrorJson(ExpiredToken));
      return [JwtVerify(token)], Resolved;
    }
    var isActive := req.QueryIsTrue("isActive");
    var offset := OptionalNumber(req, "offset");
    var take := OptionalNumber(req, "take");
    if NaNGuard(offset) {
      // 'Offset is not a valid number': NaN is falsy, so this guard never fires
      assert false;
    }
    if NaNGuard(take) {
      // 'Take is not a valid number': unreachable for the same reason
      assert false;
    }
    var rest;
    rest, settled := List(svc, res, AdminGetAll(isActive, offset, take),
      "Admin list is null or undefined", "Admin list is empty", "Failed to retrieve all admins");
    calls := [JwtVerify(token)] + rest;
  }

  // ---------------------------------------------------------------------------
  // getById, getByUserId, getByCPF
  // ---------------------------------------------------------------------------

  /**
   * The part the three single-record lookups share after the token step: a
   * second emptiness test of the key's value, then one lookup.
   */
  function ByKeyAfter(svc: Services, value: string, required: string, c: Call, notFound: string): Outcome
  {
    if value == "" then Reply(400, ErrorJson(required))
    else LookupOutcome(svc, c, notFound, "Failed to retrieve admin")
  }

  function GetByIdOutcome(req: Request, svc: Services): Outcome
  {
    var id := QueryText(req, "id");
    Gated(Present(req.accessToken) && req.HasQuery("id"), req, svc,
      ByKeyAfter(svc, id, "Id is required", AdminGetById(id), "Admin not found"))
  }

  function GetByUserIdOutcome(req: Request, svc: Services): Outcome
  {
    var userId := QueryText(req, "userId");
    Gated(Present(req.accessToken) && req.HasQuery("userId"), req, svc,
      ByKeyAfter(svc, userId, "User ID is required", AdminGetByUserId(userId), "Admin not found for this user"))
  }

  function GetByCpfOutcome(req: Request, svc: Services): Outcome
  {
    var cpf := QueryText(req, "cpf");
    Gated(Present(req.accessToken) && req.HasQuery("cpf"), req, svc,
      ByKeyAfter(svc, cpf, "CPF is required", AdminGetByCpf(Str(cpf)), "Admin not found"))
  }

  /** The handler body the three lookups share; `key` names the query parameter. */
  method ByKey(req: Request, svc: Services, res: Response, key: string, required: string, c: Call, notFound: string)
    returns (calls: seq<Call>, settled: Settled)
    requires res.Pristine()
    modifies res
    ensures Shows(res, 0, calls, settled,
      Gated(Present(req.accessToken) && req.HasQuery(key), req, svc,
        ByKeyAfter(svc, QueryText(req, key), required, c, notFound)))
  {
    if !Present(req.accessToken) || !req.HasQuery(key) {
      res.StatusJson(400, ErrorJson(IncompleteRequest));
      return [], Resolved;
    }
    var token := req.accessToken.value;
    var decoded := VerifyToken(svc, token);
    if decoded.Throws? {
      return [JwtVerify(token)], Rejected(decoded.error);
    }
    if !decoded.value.Truthy() {
      res.StatusJson(403, ErrorJson(ExpiredToken));
      return [JwtVerify(token)], Resolved;
    }
    if QueryText(req, key) == "" {
      // the source answers 400 `required` here; the first guard already excluded it
      assert false;
    }
    var rest;
    rest, settled := Lookup(svc, res, c, notFound, "Failed to retrieve admin");
    calls := [JwtVerify(token)] + rest;
  }

  method GetById(req: Request, svc: Services, res: Response) returns (calls: seq<Call>, settled: Settled)
    requires res.Pristine()
    modifies res
    ensures Shows(res, 0, calls, settled, GetByIdOutcome(req, svc))
  {
    var id := QueryText(req, "id");
    calls, settled := ByKey(req, svc, res, "id", "Id is required", AdminGetById(id), "Admin not found");
  }

  method GetByUserId(req: Request, svc: Services, res: Response) returns (calls: seq<Call>, settled: Settled)
    requires res.Pristine()
    modifies res
    ensures Shows(res, 0, calls, settled, GetByUserIdOutcome(req, svc))
  {
    var userId := QueryText(req, "userId");
    calls, settled := ByKey(req, svc, res, "userId", "User ID is required", AdminGetByUserId(userId),
      "Admin not found for this user");
  }

  method GetByCpf(req: Request, svc: Services, res: Response) returns (calls: seq<Call>, settled: Settled)
    requires res.Pristine()
    modifies res
    ensures Shows(res, 0, calls, settled, GetByCpfOutcome(req, svc))
  {
    var cpf := QueryText(req, "cpf");
    calls, settled := ByKey(req, svc, res, "cpf", "CPF is required", AdminGetByCpf(Str(cpf)), "Admin not found");
  }

  // ---------------------------------------------------------------------------
  // getByName
  // ---------------------------------------------------------------------------

  function GetByNameOutcome(req: Request, svc: Services): Outcome
  {
    Gated(Present(req.accessToken) && req.HasQuery("name"), req, svc,
      GetByNameAfter(svc, QueryText(req, "name"), req.QueryIsTrue("isActive")))
  }

  function GetByNameAfter(svc: Services, name: string, isActive: bool): Outcome
  {
    if name == "" then Reply(400, ErrorJson("Name is required"))
    else ListOutcome(svc, AdminGetByName(name, isActive),
      "Admin list not found", "No admins found with this name", "Failed to retrieve admins")
  }

  method GetByName(req: Request, svc: Services, res: Response) returns (calls: seq<Call>, settled: Settled)
    requires res.Pristine()
    modifies res
    ensures Shows(res, 0, calls, settled, GetByNameOutcome(req, svc))
  {
    if !Present(req.accessToken) || !req.HasQuery("name") {
      res.StatusJson(400, ErrorJson(IncompleteRequest));
      return [], Resolved;
    }
    var token := req.accessToken.value;
    var decoded := VerifyToken(svc, token);
    if decoded.Throws? {
      return [JwtVerify(token)], Rejected(decoded.error);
    }
    if !decoded.value.Truthy() {
      res.StatusJson(403, ErrorJson(ExpiredToken));
      return [JwtVerify(token)], Resolved;
    }
    var name := QueryText(req, "name");
    var isActive := req.QueryIsTrue("isActive");
    if name == "" {
      // 'Name is required': the first guard already excluded it
      assert false;
    }
    var rest;
    rest, settled := List(svc, res, AdminGetByName(name, isActive),
      "Admin list not found", "No admins found with this name", "Failed to retrieve admins");
    calls := [JwtVerify(token)] + rest;
  }

  // ---------------------------------------------------------------------------
  // update
  // ---------------------------------------------------------------------------

  /** `typeof v === 'object'` for a value that is not undefined. */
  predicate IsObjectType(v: JsValue)
  {
    v.Null? || v.Arr? || v.Obj?
  }

  /**
   * `existingAdmin.user.id` when `existingAdmin.user && typeof existingAdmin.user
   * === 'object' && 'id' in existingAdmin.user` holds, nothing otherwise.
   */
  function LinkedUserId(admin: JsValue): (r: Option<JsValue>)
    ensures r.Some? <==> Truthy(Prop(admin, "user")) && Prop(admin, "user").value.Obj?
                         && "id" in Prop(admin, "user").value.fields
    ensures r.Some? ==> r == Prop(Prop(admin, "user").value, "id")
  {
    var linked := Prop(admin, "user");
    if Truthy(linked) && IsObjectType(linked.value) && Prop(linked.value, "id").Some? then
      Prop(linked.value, "id")
    else None
  }

  function UpdateOutcome(req: Request, svc: Services): Outcome
  {
    var source := OrEmptyObject(req.body);
    Gated(Truthy(req.body) && Present(req.accessToken) && req.HasQuery("id"), req, svc,
      UpdateAfter(svc, QueryText(req, "id"), Prop(source, "admin"), Prop(source, "user")))
  }

  /** `update` after the token step, with the id and the two parts of the body. */
  function UpdateAfter(svc: Services, id: string, adminData: Option<JsValue>, userData: Option<JsValue>): Outcome
  {
    if id == "" then Reply(400, ErrorJson("Id is required"))
    else
      After(AdminGetById(id),
        match svc.answer(AdminGetById(id))
        case Throws(e) => Caught(e, "Failed to update admin")
        case Returns(existing) =>
          if !Truthy(Some(existing)) then Reply(404, ErrorJson("Admin not found"))
          else UpdateRecords(svc, id, existing, adminData, userData))
  }

  /** The writes of `update`: the admin, then the linked user when there is one; 200. */
  function UpdateRecords(svc: Services, id: string, existing: JsValue, adminData: Option<JsValue>,
                         userData: Option<JsValue>): Outcome
  {
    After(AdminUpdate(id, adminData),
      match svc.answer(AdminUpdate(id, adminData))
      case Throws(e) => Caught(e, "Failed to update admin")
      case Returns(_) =>
        match LinkedUserId(existing)
        case None => SendStatus(200)
        case Some(userRef) =>
          After(UserUpdate(userRef, userData),
            match svc.answer(UserUpdate(userRef, userData))
            case Throws(e) => Caught(e, "Failed to update admin")
            case Returns(_) => SendStatus(200)))
  }

  method Update(req: Request, svc: Services, res: Response) returns (calls: seq<Call>, settled: Settled)
    requires res.Pristine()
    modifies res
    ensures Shows(res, 0, calls, settled, UpdateOutcome(req, svc))
  {
    if !Truthy(req.body) || !Present(req.accessToken) || !req.HasQuery("id") {
      res.StatusJson(400, ErrorJson(IncompleteRequest));
      return [], Resolved;
    }
    var token := req.accessToken.value;
    var decoded := VerifyToken(svc, token);
    if decoded.Throws? {
      return [JwtVerify(token)], Rejected(decoded.error);
    }
    if !decoded.value.Truthy() {
      res.StatusJson(403, ErrorJson(ExpiredToken));
      return [JwtVerify(token)], Resolved;
    }
    var id := QueryText(req, "id");
    var source := OrEmptyObject(req.body);
    var adminData, userData := Prop(source, "admin"), Prop(source, "user");
    if id == "" {
      // 'Id is required': the first guard already excluded it
      assert false;
    }
    var existing := svc.answer(AdminGetById(id));
    if existing.Throws? {
      CatchBlock(res, existing.error, "Failed to update admin");
      return [JwtVerify(token), AdminGetById(id)], Resolved;
    }
    if !Truthy(Some(existing.value)) {
      res.StatusJson(404, ErrorJson("Admin not found"));
      return [JwtVerify(token), AdminGetById(id)], Resolved;
    }
    var written;
    written, settled := Rewrite(svc, res, id, existing.value, adminData, userData);
    calls := [JwtVerify(token)] + ([AdminGetById(id)] + written);
  }

  /** The method side of `UpdateRecords`. */
  method Rewrite(svc: Services, res: Response, id: string, existing: JsValue, adminData: Option<JsValue>,
                 userData: Option<JsValue>) returns (calls: seq<Call>, settled: Settled)
    requires res.Pristine()
    modifies res
    ensures Shows(res, 0, calls, settled, UpdateRecords(svc, id, existing, adminData, userData))
  {
    calls, settled := [AdminUpdate(id, adminData)], Resolved;
    var updated := svc.answer(AdminUpdate(id, adminData));
    if updated.Throws? {
      CatchBlock(res, updated.error, "Failed to update admin");
      return;
    }
    var linked := Prop(existing, "user");
    if Truthy(linked) && IsObjectType(linked.value) && Prop(linked.value, "id").Some? {
      var userRef := Prop(linked.value, "id").value;
      calls := calls + [UserUpdate(userRef, userData)];
      var changed := svc.answer(UserUpdate(userRef, userData));
      if changed.Throws? {
        CatchBlock(res, changed.error, "Failed to update admin");
        return;
      }
    }
    res.SendStatus(200);
  }

  // ---------------------------------------------------------------------------
  // delete
  // ---------------------------------------------------------------------------

  function DeleteOutcome(req: Request, svc: Services): Outcome
  {
    Gated(Present(req.accessToken) && req.HasQuery("id"), req, svc, DeleteAfter(svc, QueryText(req, "id")))
  }

  function DeleteAfter(svc: Services, id: string): Outcome
  {
    if id == "" then Reply(400, ErrorJson("Id is required"))
    else
      After(AdminGetById(id),
        match svc.answer(AdminGetById(id))
        case Throws(e) => Caught(e, "Failed to delete admin")
        case Returns(admin) =>
          if !Truthy(Some(admin)) then Reply(404, ErrorJson("Admin not found"))
          else
            After(AdminDelete(id),
              match svc.answer(AdminDelete(id))
              case Throws(e) => Caught(e, "Failed to delete admin")
              case Returns(_) => SendStatus(204)))
  }

  method Delete(req: Request, svc: Services, res: Response) returns (calls: seq<Call>, settled: Settled)
    requires res.Pristine()
    modifies res
    ensures Shows(res, 0, calls, settled, DeleteOutcome(req, svc))
  {
    if !Present(req.accessToken) || !req.HasQuery("id") {
      res.StatusJson(400, ErrorJson(IncompleteRequest));
      return [], Resolved;
    }
    var token := req.accessToken.value;
    var decoded := VerifyToken(svc, token);
    if decoded.Throws? {
      return [JwtVerify(token)], Rejected(decoded.error);
    }
    if !decoded.value.Truthy() {
      res.StatusJson(403, ErrorJson(ExpiredToken));
      return [JwtVerify(token)], Resolved;
    }
    var id := QueryText(req, "id");
    if id == "" {
      // 'Id is required': the first guard already excluded it
      assert false;
    }
    var admin := svc.answer(AdminGetById(id));
    if admin.Throws? {
      CatchBlock(res, admin.error, "Failed to delete admin");
      return [JwtVerify(token), AdminGetById(id)], Resolved;
    }
    if !Truthy(Some(admin.value)) {
      res.StatusJson(404, ErrorJson("Admin not found"));
      return [JwtVerify(token), AdminGetById(id)], Resolved;
    }
    var deleted := svc.answer(AdminDelete(id));
    if deleted.Throws? {
      CatchBlock(res, deleted.error, "Failed to delete admin");
      return [JwtVerify(token), AdminGetById(id), AdminDelete(id)], Resolved;
    }
    res.SendStatus(204);
    return [JwtVerify(token), AdminGetById(id), AdminDelete(id)], Resolved;
  }

  // ---------------------------------------------------------------------------
  // Properties of the shared opening
  // ---------------------------------------------------------------------------

  /** The header is set and `jwt.verify` accepts it with a truthy payload. */
  predicate TokenAccepted(req: Request, svc: Services)
  {
    Present(req.accessToken) && svc.verify(req.accessToken.value).Returns?
    && svc.verify(req.accessToken.value).value.Truthy()
  }

  /**
   * The opening of every handler: 400 with no call when the first guard fails,
   * a rejected promise when the token does not verify, 403 only for a token
   * whose payload is the empty string, and the handler's own part otherwise.
   * Nothing is written unless the token was accepted.
   */
  lemma GatedOpening(admitted: bool, req: Request, svc: Services, rest: Outcome)
    requires admitted ==> Present(req.accessToken)
    ensures !admitted ==> Gated(admitted, req, svc, rest) == Reply(400, ErrorJson(IncompleteRequest))
    ensures admitted && svc.verify(req.accessToken.value).Throws? ==>
      Gated(admitted, req, svc, rest) == Outcome([JwtVerify(req.accessToken.value)], [], Escapes(InvalidToken))
    ensures admitted && svc.verify(req.accessToken.value) == Returns(PlainPayload("")) ==>
      Gated(admitted, req, svc, rest) == Outcome([JwtVerify(req.accessToken.value)], [], Respond(403, ErrorJson(ExpiredToken)))
    ensures admitted && TokenAccepted(req, svc) ==>
      Gated(admitted, req, svc, rest) == After(JwtVerify(req.accessToken.value), rest)
    ensures !(admitted && TokenAccepted(req, svc)) ==> NoWrites(Gated(admitted, req, svc, rest).calls)
  {
  }

  // ---------------------------------------------------------------------------
  // Properties of the validators
  // ---------------------------------------------------------------------------

  /** A property that is set to a falsy value other than `null`: `false`, `0`, `NaN` or `""`. */
  predicate FalsyButSet(v: Option<JsValue>)
  {
    v.Some? && v.value != Null && !Truthy(v)
  }

  /**
   * Falsy values are present: only `undefined` and `null` make a user field
   * missing, so a user whose four fields are all `false`, `0`, `NaN` or `""`
   * passes, and setting one of them to `null` makes it fail.
   */
  lemma UserFieldsAcceptFalsyValues(user: JsValue)
    requires FalsyButSet(Prop(user, "email")) && FalsyButSet(Prop(user, "password"))
    requires FalsyButSet(Prop(user, "isActive")) && FalsyButSet(Prop(user, "isAdmin"))
    ensures CheckUserRequiredFields(user)
    ensures !CheckUserRequiredFields(SetProp(user, "isAdmin", Null))
    ensures FalsyButSet(Some(Bool(false))) && FalsyButSet(Some(Num(Int(0))))
    ensures FalsyButSet(Some(Num(NaN))) && FalsyButSet(Some(Str("")))
  {
    assert Prop(SetProp(user, "isAdmin", Null), "isAdmin") == Some(Null);
  }

  /** An admin whose `cpf` is missing or null is refused, whatever else it carries. */
  lemma AdminFieldsNeedCpf(admin: JsValue)
    requires Prop(admin, "cpf") == None || Prop(admin, "cpf") == Some(Null)
    ensures !CheckAdminRequiredFields(admin)
  {
  }

  // ---------------------------------------------------------------------------
  // Properties of create
  // ---------------------------------------------------------------------------

  predicate AdminPartValid(source: JsValue)
  {
    Truthy(Prop(source, "admin")) && CheckAdminRequiredFields(Prop(source, "admin").value)
  }

  predicate UserPartValid(source: JsValue)
  {
    Truthy(Prop(source, "user")) && CheckUserRequiredFields(Prop(source, "user").value)
  }

  /**
   * Both parts of the body are validated, the admin first, before any
   * collaborator is called; a valid body starts with the e-mail lookup.
   */
  lemma CreateValidatesFirst(svc: Services, source: JsValue)
    ensures !AdminPartValid(source) ==>
      CreateAfter(svc, source) == Reply(400, ErrorJson("Admin data is incorrect or unfulfilled"))
    ensures AdminPartValid(source) && !UserPartValid(source) ==>
      CreateAfter(svc, source) == Reply(400, ErrorJson("User data is incorrect or unfulfilled"))
    ensures AdminPartValid(source) && UserPartValid(source) ==>
      CreateAfter(svc, source).calls != [] &&
      CreateAfter(svc, source).calls[0] == UserGetByEmail(Prop(Prop(source, "user").value, "email").value)
  {
  }

  /** A known e-mail is a 409 before the CPF is looked up; a known CPF is a 409 before anything is written. */
  lemma CreateRejectsDuplicates(svc: Services, admin: JsValue, user: JsValue)
    requires Prop(user, "email").Some? && Prop(user, "password").Some? && Prop(admin, "cpf").Some?
    ensures var emailLookup := UserGetByEmail(Prop(user, "email").value);
      svc.answer(emailLookup).Returns? && Truthy(Some(svc.answer(emailLookup).value)) ==>
      CreateRecords(svc, admin, user) == Outcome([emailLookup], [], Respond(409, ErrorJson("User email already registered")))
    ensures var emailLookup := UserGetByEmail(Prop(user, "email").value);
      var cpfLookup := AdminGetByCpf(Prop(admin, "cpf").value);
      svc.answer(emailLookup).Returns? && !Truthy(Some(svc.answer(emailLookup).value))
      && svc.answer(cpfLookup).Returns? && Truthy(Some(svc.answer(cpfLookup).value)) ==>
      CreateRecords(svc, admin, user)
        == Outcome([emailLookup, cpfLookup], [], Respond(409, ErrorJson("Admin CPF already registered")))
  {
  }

  /**
   * Every user insertion among `calls` comes right after a cost-12 bcrypt call
   * that resolved, and carries that hash as its password.
   */
  predicate InsertsHashedUsers(svc: Services, calls: seq<Call>)
  {
    forall i :: 0 <= i < |calls| && calls[i].UserCreate? ==>
      0 < i && calls[i - 1].BcryptHash? && calls[i - 1].rounds == HashRounds
      && svc.answer(calls[i - 1]).Returns?
      && Prop(calls[i].userData, "password") == Some(svc.answer(calls[i - 1]).value)
  }

  lemma {:induction false} InsertsHashedUsersPrefix(svc: Services, c: Call, calls: seq<Call>)
    requires !c.UserCreate? && InsertsHashedUsers(svc, calls)
    ensures InsertsHashedUsers(svc, [c] + calls)
  {
    var s := [c] + calls;
    forall i | 0 <= i < |s| && s[i].UserCreate?
      ensures 0 < i && s[i - 1].BcryptHash? && s[i - 1].rounds == HashRounds && svc.answer(s[i - 1]).Returns?
        && Prop(s[i].userData, "password") == Some(svc.answer(s[i - 1]).value)
    {
      assert s[i] == calls[i - 1];
      assert s[i - 1] == calls[i - 2];
    }
  }

  /** A resolved hash call followed by the insertion of a user carrying that hash. */
  lemma HashThenInsert(svc: Services, hash: Call, insert: Call, rest: seq<Call>)
    requires hash.BcryptHash? && hash.rounds == HashRounds && svc.answer(hash).Returns?
    requires insert.UserCreate? && Prop(insert.userData, "password") == Some(svc.answer(hash).value)
    requires forall c :: c in rest ==> !c.UserCreate?
    ensures InsertsHashedUsers(svc, [hash] + ([insert] + rest))
  {
    var s := [hash] + ([insert] + rest);
    forall i | 2 <= i < |s|
      ensures !s[i].UserCreate?
    {
      assert s[i] == rest[i - 2];
    }
  }

  lemma InsertRecordsHashed(svc: Services, admin: JsValue, user: JsValue)
    requires Prop(user, "password").Some?
    ensures InsertsHashedUsers(svc, InsertRecords(svc, admin, user).calls)
  {
    var plain := Prop(user, "password").value;
    var hashing := HashPassword(svc, plain);
    if hashing.Returns? {
      var hashedUser := SetProp(user, "password", hashing.value);
      var created := svc.answer(UserCreate(hashedUser));
      if created.Returns? && Truthy(Some(created.value)) {
        var rest := LinkAdmin(svc, admin, created.value).calls;
        assert rest == [AdminCreate(LinkedAdmin(admin, created.value))];
        HashThenInsert(svc, BcryptHash(plain, HashRounds), UserCreate(hashedUser), rest);
      } else {
        HashThenInsert(svc, BcryptHash(plain, HashRounds), UserCreate(hashedUser), []);
        assert [UserCreate(hashedUser)] + [] == [UserCreate(hashedUser)];
      }
    }
  }

  lemma CreateRecordsHashed(svc: Services, admin: JsValue, user: JsValue)
    requires Prop(user, "email").Some? && Prop(user, "password").Some? && Prop(admin, "cpf").Some?
    ensures InsertsHashedUsers(svc, CreateRecords(svc, admin, user).calls)
  {
    var emailLookup := UserGetByEmail(Prop(user, "email").value);
    var cpfLookup := AdminGetByCpf(Prop(admin, "cpf").value);
    var rest := InsertRecords(svc, admin, user);
    var o := CreateRecords(svc, admin, user);
    assert o == DuplicateChecks(svc, admin, user, rest);
    DuplicateChecksPass(svc, admin, user, rest);
    if NoDuplicates(svc, admin, user) {
      InsertRecordsHashed(svc, admin, user);
      InsertsHashedUsersPrefix(svc, cpfLookup, rest.calls);
      InsertsHashedUsersPrefix(svc, emailLookup, [cpfLookup] + rest.calls);
    } else {
      forall i | 0 <= i < |o.calls| ensures !o.calls[i].UserCreate? {
        assert o.calls[i] == [emailLookup, cpfLookup][i];
      }
    }
  }

  /**
   * `create` stores only the bcrypt hash: the user record it inserts carries,
   * as its password, the value the cost-12 hash call just resolved with.
   */
  lemma CreateStoresOnlyHashes(req: Request, svc: Services)
    ensures InsertsHashedUsers(svc, CreateOutcome(req, svc).calls)
  {
    var source := OrEmptyObject(req.body);
    if Truthy(req.body) && TokenAccepted(req, svc) && AdminPartValid(source) && UserPartValid(source) {
      var admin, user := Prop(source, "admin").value, Prop(source, "user").value;
      CreateRecordsHashed(svc, admin, user);
      InsertsHashedUsersPrefix(svc, JwtVerify(req.accessToken.value), CreateRecords(svc, admin, user).calls);
    }
  }

  /** A falsy new user is a 500 after the insertion: no admin is created. */
  lemma CreateWithoutNewUser(svc: Services, admin: JsValue, user: JsValue)
    requires Prop(user, "password").Some?
    requires var plain := Prop(user, "password").value;
      HashPassword(svc, plain).Returns?
      && var created := svc.answer(UserCreate(SetProp(user, "password", HashPassword(svc, plain).value)));
      created.Returns? && !Truthy(Some(created.value))
    ensures var plain := Prop(user, "password").value;
      InsertRecords(svc, admin, user) == Outcome(
        [BcryptHash(plain, HashRounds), UserCreate(SetProp(user, "password", HashPassword(svc, plain).value))], [],
        Respond(500, ErrorJson("Unexpected error occurred while creating user")))
  {
  }

  /**
   * The catch block of `create` keeps a thrown error's status (`status ||
   * 500`): a failing e-mail lookup is answered that way before anything
   * else is asked.
   */
  lemma CreateLookupFailure(svc: Services, admin: JsValue, user: JsValue)
    requires Prop(user, "email").Some? && Prop(user, "password").Some? && Prop(admin, "cpf").Some?
    requires svc.answer(UserGetByEmail(Prop(user, "email").value)).Throws?
    ensures var e := svc.answer(UserGetByEmail(Prop(user, "email").value)).error;
      CreateRecords(svc, admin, user) == Outcome([UserGetByEmail(Prop(user, "email").value)], [],
        Respond(StatusOr(e, 500), FailureJson(MessageOrDefault(e), "Failed to create admin")))
  {
  }

  /**
   * `hashPassword` rethrows a bcrypt failure as a plain `Error` without a
   * status, so it always reaches the client as a 500 with the details
   * "Error hashing password", and no user is inserted.
   */
  lemma HashFailureIs500(svc: Services, admin: JsValue, user: JsValue)
    requires Prop(user, "password").Some?
    requires svc.answer(BcryptHash(Prop(user, "password").value, HashRounds)).Throws?
    ensures InsertRecords(svc, admin, user) == Outcome([BcryptHash(Prop(user, "password").value, HashRounds)], [],
      Respond(500, FailureJson("Error hashing password", "Failed to create admin")))
  {
  }

  /** The last step answers 201 exactly when the admin insertion resolves. */
  lemma LinkAdminSucceeds(svc: Services, admin: JsValue, newUser: JsValue)
    ensures LinkAdmin(svc, admin, newUser).calls == [AdminCreate(LinkedAdmin(admin, newUser))]
    ensures LinkAdmin(svc, admin, newUser).end == Respond(201, Text("Created"))
        <==> svc.answer(AdminCreate(LinkedAdmin(admin, newUser))).Returns?
  {
    forall e: Thrown ensures Caught(e, "Failed to create admin").end != Respond(201, Text("Created")) {
    }
  }

  /**
   * After the duplicate checks, `create` answers 201 exactly when the hash and
   * the user insertion resolve with a truthy user and the linked admin is
   * inserted; then it made those three calls and no other.
   */
  lemma InsertRecordsSucceeds(svc: Services, admin: JsValue, user: JsValue)
    requires Prop(user, "password").Some?
    ensures var plain := Prop(user, "password").value;
      InsertRecords(svc, admin, user).end == Respond(201, Text("Created")) <==>
        HashPassword(svc, plain).Returns? &&
        var insert := UserCreate(SetProp(user, "password", HashPassword(svc, plain).value));
        svc.answer(insert).Returns? && Truthy(Some(svc.answer(insert).value))
        && LinkAdmin(svc, admin, svc.answer(insert).value).end == Respond(201, Text("Created"))
    ensures var plain := Prop(user, "password").value;
      InsertRecords(svc, admin, user).end == Respond(201, Text("Created")) ==>
        var insert := UserCreate(SetProp(user, "password", HashPassword(svc, plain).value));
        InsertRecords(svc, admin, user).calls
          == [BcryptHash(plain, HashRounds), insert, AdminCreate(LinkedAdmin(admin, svc.answer(insert).value))]
  {
    forall e: Thrown ensures Caught(e, "Failed to create admin").end != Respond(201, Text("Created")) {
    }
    var plain := Prop(user, "password").value;
    if HashPassword(svc, plain).Returns? {
      var insert := UserCreate(SetProp(user, "password", HashPassword(svc, plain).value));
      if svc.answer(insert).Returns? && Truthy(Some(svc.answer(insert).value)) {
        LinkAdminSucceeds(svc, admin, svc.answer(insert).value);
      }
    }
  }

  /** `create`'s try block answers 201 only past both duplicate checks. */
  lemma CreateRecordsSucceeds(svc: Services, admin: JsValue, user: JsValue)
    requires Prop(user, "email").Some? && Prop(user, "password").Some? && Prop(admin, "cpf").Some?
    ensures var emailLookup := UserGetByEmail(Prop(user, "email").value);
      var cpfLookup := AdminGetByCpf(Prop(admin, "cpf").value);
      && (CreateRecords(svc, admin, user).end == Respond(201, Text("Created")) <==>
            NoDuplicates(svc, admin, user) && InsertRecords(svc, admin, user).end == Respond(201, Text("Created")))
      && (CreateRecords(svc, admin, user).end == Respond(201, Text("Created")) ==>
            CreateRecords(svc, admin, user).calls == [emailLookup, cpfLookup] + InsertRecords(svc, admin, user).calls)
  {
    var rest := InsertRecords(svc, admin, user);
    var emailLookup := UserGetByEmail(Prop(user, "email").value);
    var cpfLookup := AdminGetByCpf(Prop(admin, "cpf").value);
    var o := CreateRecords(svc, admin, user);
    assert o == DuplicateChecks(svc, admin, user, rest);
    if NoDuplicates(svc, admin, user) {
      assert o == After(emailLookup, After(cpfLookup, rest)) by {
        DuplicateChecksPass(svc, admin, user, rest);
      }
      assert [emailLookup] + ([cpfLookup] + rest.calls) == [emailLookup, cpfLookup] + rest.calls;
    } else {
      assert o.end != Respond(201, Text("Created")) by {
        DuplicateChecksPass(svc, admin, user, rest);
      }
    }
  }

  /**
   * The duplicate checks go on to `rest` exactly when both lookups resolve
   * with a falsy record; every other way out is a catch block or a 409.
   */
  lemma DuplicateChecksPass(svc: Services, admin: JsValue, user: JsValue, rest: Outcome)
    requires Prop(user, "email").Some? && Prop(admin, "cpf").Some?
    ensures var emailLookup := UserGetByEmail(Prop(user, "email").value);
      var cpfLookup := AdminGetByCpf(Prop(admin, "cpf").value);
      && (NoDuplicates(svc, admin, user) ==>
            DuplicateChecks(svc, admin, user, rest) == After(emailLookup, After(cpfLookup, rest)))
      && (!NoDuplicates(svc, admin, user) ==>
            DuplicateChecks(svc, admin, user, rest).end != Respond(201, Text("Created"))
            && DuplicateChecks(svc, admin, user, rest).calls <= [emailLookup, cpfLookup])
  {
    forall e: Thrown ensures Caught(e, "Failed to create admin").end != Respond(201, Text("Created")) {
    }
  }

  /** A numeric user id, or its decimal string, is linked unchanged. */
  lemma LinkedAdminNumericId(admin: JsValue, newUser: JsValue, n: int)
    requires admin.Obj?
    requires Prop(newUser, "id") == Some(Num(Int(n))) || Prop(newUser, "id") == Some(Str(DecimalString(n)))
    ensures Prop(LinkedAdmin(admin, newUser), "user") == Some(Num(Int(n)))
  {
    ParseIntOfDecimalString(n);
  }

  /** An id that starts with digits links the value of those digits only: `"12abc"` links 12. */
  lemma LinkedAdminDigitPrefix(admin: JsValue, newUser: JsValue, digits: string, rest: string)
    requires admin.Obj? && digits != [] && AllDigits(digits) && (rest == [] || !IsDigit(rest[0]))
    requires Prop(newUser, "id") == Some(Str(digits + rest))
    ensures Prop(LinkedAdmin(admin, newUser), "user") == Some(Num(Int(DigitsValue(digits))))
  {
    ParseIntDigitsThenJunk(digits, rest);
  }

  /** A string id without any digit links `NaN`. */
  lemma LinkedAdminWithoutDigits(admin: JsValue, newUser: JsValue, id: string)
    requires admin.Obj? && Prop(newUser, "id") == Some(Str(id))
    requires forall i :: 0 <= i < |id| ==> !IsDigit(id[i])
    ensures Prop(LinkedAdmin(admin, newUser), "user") == Some(Num(NaN))
  {
    ParseIntNoDigits(id);
  }

  /** Linking touches only the `user` field of the admin data. */
  lemma LinkedAdminKeepsOtherFields(admin: JsValue, newUser: JsValue, key: string)
    requires key != "user"
    ensures Prop(LinkedAdmin(admin, newUser), key) == Prop(admin, key)
    ensures CheckAdminRequiredFields(admin) ==> CheckAdminRequiredFields(LinkedAdmin(admin, newUser))
  {
  }

  // ---------------------------------------------------------------------------
  // Properties of getAll and of the list answers
  // ---------------------------------------------------------------------------

  /**
   * The two NaN guards of `getAll` never answer: whatever the query, the
   * admin list is asked for with `isActive` true exactly for the text
   * `"true"` and with the parsed `offset` and `take`.
   */
  lemma GetAllAlwaysQueries(req: Request, svc: Services)
    ensures GetAllAfter(req, svc).calls
      == [AdminGetAll(req.QueryIsTrue("isActive"), OptionalNumber(req, "offset"), OptionalNumber(req, "take"))]
    ensures GetAllAfter(req, svc).calls[0].activeOnly <==> "isActive" in req.query && req.query["isActive"] == "true"
  {
  }

  /** An `offset` without any digit reaches the service as `NaN` instead of being refused. */
  lemma GetAllPassesNaNOffset(req: Request, svc: Services)
    requires req.HasQuery("offset")
    requires forall i :: 0 <= i < |req.query["offset"]| ==> !IsDigit(req.query["offset"][i])
    ensures GetAllAfter(req, svc).calls[0].offset == Some(NaN)
    ensures GetAllAfter(req, svc).end != Respond(400, ErrorJson("Offset is not a valid number"))
  {
    ParseIntNoDigits(req.query["offset"]);
    assert !NaNGuard(OptionalNumber(req, "offset")) && !NaNGuard(OptionalNumber(req, "take"));
    var c := AdminGetAll(req.QueryIsTrue("isActive"), OptionalNumber(req, "offset"), OptionalNumber(req, "take"));
    var o := ListOutcome(svc, c, "Admin list is null or undefined", "Admin list is empty", "Failed to retrieve all admins");
    assert GetAllAfter(req, svc) == o;
    ListAnswers(svc, c, "Admin list is null or undefined", "Admin list is empty", "Failed to retrieve all admins");
    if svc.answer(c).Throws? {
      FailureIsNotErrorJson(MessageOrDefault(svc.answer(c).error), "Failed to retrieve all admins", "Offset is not a valid number");
    }
  }

  /**
   * A list answer is 200 exactly when the service resolved with a truthy,
   * non-empty list, and then it sends that list; a falsy list is 404, an
   * empty one 204, a thrown error `status || 500`.
   */
  lemma ListAnswers(svc: Services, c: Call, missing: string, empty: string, failure: string)
    ensures ListOutcome(svc, c, missing, empty, failure).calls == [c]
    ensures var o := ListOutcome(svc, c, missing, empty, failure);
      match svc.answer(c)
      case Throws(e) => o.end == Respond(StatusOr(e, 500), FailureJson(MessageOrDefault(e), failure))
      case Returns(list) =>
        && (o.end.Respond? && o.end.status == 200 <==> Truthy(Some(list)) && !LengthIsZero(list))
        && (o.end.Respond? && o.end.status == 200 ==> o.end.body == Json(list))
        && (!Truthy(Some(list)) ==> o.end == Respond(404, ErrorJson(missing)))
        && (Truthy(Some(list)) && LengthIsZero(list) ==> o.end == Respond(204, MessageJson(empty)))
  {
  }

  /** A lookup answer is 200 with the record exactly when the service resolved with a truthy one. */
  lemma LookupAnswers(svc: Services, c: Call, notFound: string, failure: string)
    ensures LookupOutcome(svc, c, notFound, failure).calls == [c]
    ensures var o := LookupOutcome(svc, c, notFound, failure);
      match svc.answer(c)
      case Throws(e) => o.end == Respond(StatusOr(e, 500), FailureJson(MessageOrDefault(e), failure))
      case Returns(r) =>
        && (Truthy(Some(r)) <==> o.end == Respond(200, Json(r)))
        && (!Truthy(Some(r)) <==> o.end == Respond(404, ErrorJson(notFound)))
  {
    assert ErrorJson(notFound).value.Obj?;
  }

  /** The read handlers never write, whatever the request and the collaborators. */
  lemma ReadHandlersOnlyRead(req: Request, svc: Services)
    ensures NoWrites(GetAllOutcome(req, svc).calls)
    ensures NoWrites(GetByIdOutcome(req, svc).calls)
    ensures NoWrites(GetByUserIdOutcome(req, svc).calls)
    ensures NoWrites(GetByCpfOutcome(req, svc).calls)
    ensures NoWrites(GetByNameOutcome(req, svc).calls)
  {
    GetAllOnlyReads(req, svc);
    assert NoWrites(GetByIdOutcome(req, svc).calls) by {
      ByKeyNoWrites(req, svc, "id", "Id is required", AdminGetById(QueryText(req, "id")), "Admin not found");
    }
    assert NoWrites(GetByUserIdOutcome(req, svc).calls) by {
      ByKeyNoWrites(req, svc, "userId", "User ID is required",
        AdminGetByUserId(QueryText(req, "userId")), "Admin not found for this user");
    }
    assert NoWrites(GetByCpfOutcome(req, svc).calls) by {
      ByKeyNoWrites(req, svc, "cpf", "CPF is required", AdminGetByCpf(Str(QueryText(req, "cpf"))), "Admin not found");
    }
    GetByNameOnlyReads(req, svc);
  }

  lemma GetAllOnlyReads(req: Request, svc: Services)
    ensures NoWrites(GetAllOutcome(req, svc).calls)
  {
    GetAllAlwaysQueries(req, svc);
    GatedNoWrites(Present(req.accessToken), req, svc, GetAllAfter(req, svc));
  }

  lemma GetByNameOnlyReads(req: Request, svc: Services)
    ensures NoWrites(GetByNameOutcome(req, svc).calls)
  {
    var name := QueryText(req, "name");
    var named := GetByNameAfter(svc, name, req.QueryIsTrue("isActive"));
    assert named.calls == [] || named.calls == [AdminGetByName(name, req.QueryIsTrue("isActive"))];
    GatedNoWrites(Present(req.accessToken) && req.HasQuery("name"), req, svc, named);
  }

  lemma ByKeyNoWrites(req: Request, svc: Services, key: string, required: string, c: Call, notFound: string)
    requires !c.IsWrite()
    ensures NoWrites(Gated(Present(req.accessToken) && req.HasQuery(key), req, svc,
      ByKeyAfter(svc, QueryText(req, key), required, c, notFound)).calls)
  {
    var rest := ByKeyAfter(svc, QueryText(req, key), required, c, notFound);
    assert rest.calls == [] || rest.calls == [c];
    GatedNoWrites(Present(req.accessToken) && req.HasQuery(key), req, svc, rest);
  }

  lemma GatedNoWrites(admitted: bool, req: Request, svc: Services, rest: Outcome)
    requires admitted ==> Present(req.accessToken)
    requires NoWrites(rest.calls)
    ensures NoWrites(Gated(admitted, req, svc, rest).calls)
  {
  }

  // ---------------------------------------------------------------------------
  // The second emptiness checks are dead
  // ---------------------------------------------------------------------------

  /**
   * The handlers' second test of the query key (`if (!id)`, `if (!name)`, ...)
   * never answers: the first guard already refused an empty key, so each
   * handler behaves as if that test were absent.
   */
  lemma SecondKeyChecksAreDead(req: Request, svc: Services, adminData: Option<JsValue>, userData: Option<JsValue>)
    ensures var id := QueryText(req, "id");
      GetByIdOutcome(req, svc) == Gated(Present(req.accessToken) && req.HasQuery("id"), req, svc,
        LookupOutcome(svc, AdminGetById(id), "Admin not found", "Failed to retrieve admin"))
    ensures var userId := QueryText(req, "userId");
      GetByUserIdOutcome(req, svc) == Gated(Present(req.accessToken) && req.HasQuery("userId"), req, svc,
        LookupOutcome(svc, AdminGetByUserId(userId), "Admin not found for this user", "Failed to retrieve admin"))
    ensures var cpf := QueryText(req, "cpf");
      GetByCpfOutcome(req, svc) == Gated(Present(req.accessToken) && req.HasQuery("cpf"), req, svc,
        LookupOutcome(svc, AdminGetByCpf(Str(cpf)), "Admin not found", "Failed to retrieve admin"))
    ensures GetByNameOutcome(req, svc) == Gated(Present(req.accessToken) && req.HasQuery("name"), req, svc,
        ListOutcome(svc, AdminGetByName(QueryText(req, "name"), req.QueryIsTrue("isActive")),
          "Admin list not found", "No admins found with this name", "Failed to retrieve admins"))
    ensures req.HasQuery("id") ==> DeleteAfter(svc, QueryText(req, "id")).end != Respond(400, ErrorJson("Id is required"))
    ensures req.HasQuery("id") ==>
      UpdateAfter(svc, QueryText(req, "id"), adminData, userData).end != Respond(400, ErrorJson("Id is required"))
  {
    var id := QueryText(req, "id");
    if id != "" {
      DeleteAnswers(svc, id);
      UpdateAnswers(svc, id, adminData, userData);
    }
  }

  // ---------------------------------------------------------------------------
  // Properties of update and delete
  // ---------------------------------------------------------------------------

  /**
   * `update` past the id check: a missing admin is a 404 with nothing
   * written; otherwise the admin is updated, then its linked user when
   * it has one, and the answer is 200 unless a call throws.
   */
  lemma UpdateAnswers(svc: Services, id: string, adminData: Option<JsValue>, userData: Option<JsValue>)
    requires id != ""
    ensures var o := UpdateAfter(svc, id, adminData, userData);
      && o.calls[0] == AdminGetById(id)
      && o.end != Respond(400, ErrorJson("Id is required"))
      && (svc.answer(AdminGetById(id)).Returns? && !Truthy(Some(svc.answer(AdminGetById(id)).value)) ==>
            o == Outcome([AdminGetById(id)], [], Respond(404, ErrorJson("Admin not found"))))
      && (svc.answer(AdminGetById(id)).Returns? && Truthy(Some(svc.answer(AdminGetById(id)).value)) ==>
            o.calls == [AdminGetById(id)] + UpdateRecords(svc, id, svc.answer(AdminGetById(id)).value, adminData, userData).calls)
      && (svc.answer(AdminGetById(id)).Throws? ==>
            var e := svc.answer(AdminGetById(id)).error;
            o == Outcome([AdminGetById(id)], [], Respond(StatusOr(e, 500), FailureJson(MessageOrDefault(e), "Failed to update admin"))))
  {
    forall e: Thrown ensures Caught(e, "Failed to update admin").end != Respond(400, ErrorJson("Id is required")) {
      FailureIsNotErrorJson(MessageOrDefault(e), "Failed to update admin", "Id is required");
    }
  }

  /**
   * The writes of `update`: the admin update always comes first, and the
   * linked user is updated exactly when the admin update resolved and the
   * existing admin carries a `user` object with an `id`, using that id.
   */
  lemma UpdateTouchesLinkedUser(svc: Services, id: string, existing: JsValue, adminData: Option<JsValue>,
                                userData: Option<JsValue>)
    ensures var o := UpdateRecords(svc, id, existing, adminData, userData);
      && o.calls[0] == AdminUpdate(id, adminData)
      && ((exists i :: 0 <= i < |o.calls| && o.calls[i].UserUpdate?)
            <==> svc.answer(AdminUpdate(id, adminData)).Returns? && LinkedUserId(existing).Some?)
      && (svc.answer(AdminUpdate(id, adminData)).Returns? && LinkedUserId(existing).Some? ==>
            o.calls == [AdminUpdate(id, adminData), UserUpdate(LinkedUserId(existing).value, userData)])
      && (o.end == Respond(200, Text("OK")) <==>
            svc.answer(AdminUpdate(id, adminData)).Returns?
            && (LinkedUserId(existing).Some? ==> svc.answer(UserUpdate(LinkedUserId(existing).value, userData)).Returns?))
  {
    forall e: Thrown ensures Caught(e, "Failed to update admin").end != Respond(200, Text("OK")) {
    }
    var o := UpdateRecords(svc, id, existing, adminData, userData);
    if svc.answer(AdminUpdate(id, adminData)).Returns? && LinkedUserId(existing).Some? {
      assert o.calls[1].UserUpdate?;
    }
  }

  /** A user with a numeric `user` field (not an object) is never updated. */
  lemma UpdateIgnoresNumericUser(admin: JsValue, n: int)
    requires Prop(admin, "user") == Some(Num(Int(n)))
    ensures LinkedUserId(admin) == None
  {
  }

  /**
   * `delete` past the id check: a missing admin is a 404 with nothing
   * written; the admin is deleted exactly when the lookup found one, and the
   * answer is 204 exactly when the deletion resolved.
   */
  lemma DeleteAnswers(svc: Services, id: string)
    requires id != ""
    ensures var o := DeleteAfter(svc, id);
      var found := svc.answer(AdminGetById(id));
      && o.end != Respond(400, ErrorJson("Id is required"))
      && (found.Returns? && !Truthy(Some(found.value)) ==>
            o == Outcome([AdminGetById(id)], [], Respond(404, ErrorJson("Admin not found"))))
      && (AdminDelete(id) in o.calls <==> found.Returns? && Truthy(Some(found.value)))
      && (!NoWrites(o.calls) <==> AdminDelete(id) in o.calls)
      && (o.end == Respond(204, Text("No Content")) <==>
            found.Returns? && Truthy(Some(found.value)) && svc.answer(AdminDelete(id)).Returns?)
      && (found.Throws? ==>
            o == Outcome([AdminGetById(id)], [], Respond(StatusOr(found.error, 500),
              FailureJson(MessageOrDefault(found.error), "Failed to delete admin"))))
  {
    forall e: Thrown ensures Caught(e, "Failed to delete admin").end != Respond(400, ErrorJson("Id is required"))
      && Caught(e, "Failed to delete admin").end != Respond(204, Text("No Content")) {
      FailureIsNotErrorJson(MessageOrDefault(e), "Failed to delete admin", "Id is required");
    }
  }
}
