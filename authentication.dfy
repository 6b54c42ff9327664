/**
 * The authentication module: the password and token wrappers, the login
 * ladder, and the two gate middlewares (`verifyJWT` and the one returned by
 * `permissionMiddleware()`).
 */
module Authentication {
  import opened Js
  import opened Collaborators
  import opened Http

  /** `expiresIn` given to `jwt.sign`, in seconds: one week. */
  const TokenLifetimeSeconds := 604800

  /** `maxAge` of the login cookie, in milliseconds: `7 * 24 * 60 * 60 * 1000`. */
  const CookieMaxAgeMs := 7 * 24 * 60 * 60 * 1000

  /** bcrypt cost factor used by `hashPassword`. */
  const HashRounds := 12

  const LoginCookieOptions := CookieOptions(
    httpOnly := true, maxAge := CookieMaxAgeMs, path := "/", sameSite := "none", secure := true, signed := true)

  const InvalidToken := Thrown(None, "Invalid or expired token")

  // ---------------------------------------------------------------------------
  // Wrappers around bcrypt and jsonwebtoken
  // ---------------------------------------------------------------------------

  /**
   * `verifyToken(token)`: the decoded payload, or a status-less
   * `Error('Invalid or expired token')` whatever the library threw.
   */
  function VerifyToken(svc: Services, token: string): (r: Attempt<Decoded>)
    ensures r.Returns? <==> svc.verify(token).Returns?
    ensures r.Returns? ==> r.value == svc.verify(token).value
    ensures r.Throws? ==> r.error.status == None && r.error.message == "Invalid or expired token"
  {
    match svc.verify(token)
    case Returns(decoded) => Returns(decoded)
    case Throws(_) => Throws(InvalidToken)
  }

  /** `comparePassword(plain, hashed)`: bcrypt's verdict, or a status-less error. */
  function ComparePassword(svc: Services, plain: JsValue, hashed: JsValue): (r: Attempt<JsValue>)
    ensures svc.answer(BcryptCompare(plain, Some(hashed))).Returns? ==> r == svc.answer(BcryptCompare(plain, Some(hashed)))
    ensures svc.answer(BcryptCompare(plain, Some(hashed))).Throws? ==> r == Throws(Thrown(None, "Password don't match"))
  {
    match svc.answer(BcryptCompare(plain, Some(hashed)))
    case Returns(verdict) => Returns(verdict)
    case Throws(_) => Throws(Thrown(None, "Password don't match"))
  }

  /** `hashPassword(plain)`: a cost-12 bcrypt hash, or a status-less error. */
  function HashPassword(svc: Services, plain: JsValue): (r: Attempt<JsValue>)
    ensures svc.answer(BcryptHash(plain, HashRounds)).Returns? ==> r == svc.answer(BcryptHash(plain, HashRounds))
    ensures svc.answer(BcryptHash(plain, HashRounds)).Throws? ==> r == Throws(Thrown(None, "Error hashing password"))
  {
    match svc.answer(BcryptHash(plain, HashRounds))
    case Returns(hash) => Returns(hash)
    case Throws(_) => Throws(Thrown(None, "Error hashing password"))
  }

  /**
   * The token step the controllers take before their try block:
   * `verifyToken(token)` (whose error escapes), then `if (!decodedToken) denied`.
   */
  function TokenGate(svc: Services, token: string, denied: Outcome, rest: Outcome): Outcome
  {
    After(JwtVerify(token),
      match VerifyToken(svc, token)
      case Throws(e) => Escape(e)
      case Returns(decoded) => if !decoded.Truthy() then denied else rest)
  }

  /** The token step adds only the verification call, which writes nothing. */
  lemma TokenGateNoWrites(svc: Services, token: string, denied: Outcome, rest: Outcome)
    requires NoWrites(denied.calls) && NoWrites(rest.calls)
    ensures NoWrites(TokenGate(svc, token, denied, rest).calls)
  {
  }

  /** The token step of the admin-only handlers: `if (!decodedToken.isAdmin) res.sendStatus(403)`. */
  function AdminGate(svc: Services, token: string, rest: Outcome): Outcome
  {
    After(JwtVerify(token),
      match VerifyToken(svc, token)
      case Throws(e) => Escape(e)
      case Returns(decoded) => if !Truthy(decoded.Get("isAdmin")) then SendStatus(403) else rest)
  }


  /** The header is set and verifies to claims whose `isAdmin` is truthy. */
  predicate AdminToken(req: Request, svc: Services)
  {
    Present(req.accessToken) && svc.verify(req.accessToken.value).Returns?
    && Truthy(svc.verify(req.accessToken.value).value.Get("isAdmin"))
  }

  /**
   * The admin check: a token that does not verify escapes, a payload without
   * a truthy `isAdmin` claim (a string payload included) is a bare 403, and
   * only an admin token reaches the handler's own part.
   */
  lemma AdminGateOpening(svc: Services, token: string, rest: Outcome)
    ensures svc.verify(token).Throws? ==>
      AdminGate(svc, token, rest) == Outcome([JwtVerify(token)], [], Escapes(InvalidToken))
    ensures svc.verify(token).Returns? && !Truthy(svc.verify(token).value.Get("isAdmin")) ==>
      AdminGate(svc, token, rest) == Outcome([JwtVerify(token)], [], Respond(403, Text("Forbidden")))
    ensures svc.verify(token).Returns? && svc.verify(token).value.PlainPayload? ==>
      AdminGate(svc, token, rest).end == Respond(403, Text("Forbidden"))
    ensures svc.verify(token).Returns? && Truthy(svc.verify(token).value.Get("isAdmin")) ==>
      AdminGate(svc, token, rest) == After(JwtVerify(token), rest)
  {
  }

  // ---------------------------------------------------------------------------
  // login
  // ---------------------------------------------------------------------------

  /** `{ id: user.id, isAdmin: user.isAdmin }`; a key whose value is undefined is not serialised. */
  function TokenPayload(user: JsValue): (p: Record)
    ensures p.Keys <= {"id", "isAdmin"}
    ensures forall k :: k in p ==> Prop(user, k) == Some(p[k])
    ensures Prop(user, "id").Some? ==> "id" in p
    ensures Prop(user, "isAdmin").Some? ==> "isAdmin" in p
  {
    var withId: Record := if Prop(user, "id").Some? then map["id" := Prop(user, "id").value] else map[];
    if Prop(user, "isAdmin").Some? then withId["isAdmin" := Prop(user, "isAdmin").value] else withId
  }

  function TokenBody(token: string): Body
  {
    Json(Obj(map["token" := Str(token)]))
  }

  /** The end of `login`: sign the token, set it as cookie `cookie`, and answer 200 `{ token }`. */
  function IssueToken(svc: Services, user: JsValue): Outcome
  {
    var payload := TokenPayload(user);
    After(JwtSign(payload, TokenLifetimeSeconds),
      match svc.sign(payload, TokenLifetimeSeconds)
      case Throws(e) => Caught(e, "Failed to log in")
      case Returns(token) =>
        Outcome([], [Cookie("cookie", token, LoginCookieOptions)], Respond(200, TokenBody(token))))
  }

  /** `login(req, res)`: 400, 400, 404, 401, 404 for an admin without Admin record, then 200. */
  function LoginOutcome(req: Request, svc: Services): Outcome
  {
    if !Truthy(req.body) then Reply(400, ErrorJson(IncompleteRequest))
    else
      var email := Prop(req.body.value, "email");
      var password := Prop(req.body.value, "password");
      if !Truthy(email) || !Truthy(password) then Reply(400, ErrorJson("Email or password is missing"))
      else
        var lookup := UserGetByEmail(email.value);
        After(lookup,
          match svc.answer(lookup)
          case Throws(e) => Caught(e, "Failed to log in")
          case Returns(user) =>
            if !Truthy(Some(user)) then Reply(404, ErrorJson("User not found"))
            else
              var check := BcryptCompare(password.value, Prop(user, "password"));
              After(check,
                match svc.answer(check)
                case Throws(e) => Caught(e, "Failed to log in")
                case Returns(matches) =>
                  if !Truthy(Some(matches)) then Reply(401, ErrorJson("Access denied: Invalid password"))
                  else if Truthy(Prop(user, "isAdmin")) then
                    var adminLookup := AdminGetByUserId(ToJsString(Prop(user, "id")));
                    After(adminLookup,
                      match svc.answer(adminLookup)
                      case Throws(e) => Caught(e, "Failed to log in")
                      case Returns(admin) =>
                        if !Truthy(Some(admin)) then Reply(404, ErrorJson("User data not found"))
                        else IssueToken(svc, user))
                  else IssueToken(svc, user)))
  }

  method Login(req: Request, svc: Services, res: Response) returns (calls: seq<Call>, settled: Settled)
    requires res.Pristine()
    modifies res
    ensures Shows(res, 0, calls, settled, LoginOutcome(req, svc))
  {
    calls, settled := [], Resolved;
    if !Truthy(req.body) {
      res.StatusJson(400, ErrorJson(IncompleteRequest));
      return;
    }
    var loginForm := req.body.value;
    var email, password := Prop(loginForm, "email"), Prop(loginForm, "password");
    if !Truthy(email) || !Truthy(password) {
      res.StatusJson(400, ErrorJson("Email or password is missing"));
      return;
    }
    var lookup := UserGetByEmail(email.value);
    calls := calls + [lookup];
    var found := svc.answer(lookup);
    if found.Throws? {
      CatchBlock(res, found.error, "Failed to log in");
      return;
    }
    var user := found.value;
    if !Truthy(Some(user)) {
      res.StatusJson(404, ErrorJson("User not found"));
      return;
    }
    var check := BcryptCompare(password.value, Prop(user, "password"));
    calls := calls + [check];
    var verdict := svc.answer(check);
    if verdict.Throws? {
      CatchBlock(res, verdict.error, "Failed to log in");
      return;
    }
    if !Truthy(Some(verdict.value)) {
      res.StatusJson(401, ErrorJson("Access denied: Invalid password"));
      return;
    }
    var issued;
    if Truthy(Prop(user, "isAdmin")) {
      var adminLookup := AdminGetByUserId(ToJsString(Prop(user, "id")));
      calls := calls + [adminLookup];
      var admin := svc.answer(adminLookup);
      if admin.Throws? {
        CatchBlock(res, admin.error, "Failed to log in");
        return;
      }
      if !Truthy(Some(admin.value)) {
        res.StatusJson(404, ErrorJson("User data not found"));
        return;
      }
      issued, settled := SignIn(svc, res, user);
      calls := [lookup] + ([check] + ([adminLookup] + issued));
    } else {
      issued, settled := SignIn(svc, res, user);
      calls := [lookup] + ([check] + issued);
    }
  }

  /** The method side of `IssueToken`: sign, set the cookie, answer 200. */
  method SignIn(svc: Services, res: Response, user: JsValue) returns (calls: seq<Call>, settled: Settled)
    requires res.Pristine()
    modifies res
    ensures Shows(res, 0, calls, settled, IssueToken(svc, user))
  {
    var payload := TokenPayload(user);
    calls, settled := [JwtSign(payload, TokenLifetimeSeconds)], Resolved;
    var signed := svc.sign(payload, TokenLifetimeSeconds);
    if signed.Throws? {
      CatchBlock(res, signed.error, "Failed to log in");
      return;
    }
    res.SetCookie("cookie", signed.value, LoginCookieOptions);
    res.StatusJson(200, TokenBody(signed.value));
  }

  // ---------------------------------------------------------------------------
  // verifyJWT
  // ---------------------------------------------------------------------------

  /** The token `verifyJWT` checks: the header when it is set, the signed cookie otherwise. */
  function SelectedToken(req: Request): (token: string)
    requires Present(req.accessToken) || req.HasCookie()
    ensures Present(req.accessToken) ==> token == req.accessToken.value
    ensures !Present(req.accessToken) ==> token == req.signedCookie.value.text
  {
    if Present(req.accessToken) then req.accessToken.value else req.signedCookie.value.text
  }

  function VerifyJwtOutcome(req: Request, svc: Services): Outcome
  {
    if !Present(req.accessToken) && !req.HasCookie() then Reply(400, ErrorJson(IncompleteRequest))
    else
      var token := SelectedToken(req);
      After(JwtVerify(token),
        match svc.verify(token)
        case Throws(e) => Reply(StatusOr(e, 401), FailureJson(MessageOrDefault(e), "Failed to validate JWT"))
        case Returns(_) => PassOn())
  }

  method VerifyJwt(req: Request, svc: Services, res: Response, next: NextFunction)
    returns (calls: seq<Call>, settled: Settled)
    requires res.Pristine() && next.invocations == 0
    modifies res, next
    ensures Shows(res, next.invocations, calls, settled, VerifyJwtOutcome(req, svc))
  {
    calls, settled := [], Resolved;
    if !Present(req.accessToken) && !req.HasCookie() {
      res.StatusJson(400, ErrorJson(IncompleteRequest));
      return;
    }
    var token := if Present(req.accessToken) then req.accessToken.value else req.signedCookie.value.text;
    calls := calls + [JwtVerify(token)];
    var verified := svc.verify(token);
    if verified.Throws? {
      var e := verified.error;
      res.StatusJson(StatusOr(e, 401), FailureJson(MessageOrDefault(e), "Failed to validate JWT"));
      return;
    }
    next.Invoke();
  }

  // ---------------------------------------------------------------------------
  // permissionMiddleware()
  // ---------------------------------------------------------------------------

  function PermissionOutcome(req: Request, svc: Services): Outcome
  {
    if !Present(req.accessToken) then Reply(400, ErrorJson(IncompleteRequest))
    else
      var token := req.accessToken.value;
      After(JwtVerify(token),
        match VerifyToken(svc, token)
        case Throws(e) => Escape(e)
        case Returns(decoded) =>
          if !decoded.Truthy() then Reply(403, ErrorJson(ExpiredToken))
          else
            var lookup := UserGetById(ToJsString(decoded.Get("id")));
            After(lookup,
              match svc.answer(lookup)
              case Throws(e) => Caught(e, "Failed to check permission")
              case Returns(user) =>
                if !Truthy(Some(user)) then Reply(404, ErrorJson("User not found"))
                else if Truthy(Prop(user, "isAdmin")) then PassOn()
                else PassOn()))
  }

  method Permission(req: Request, svc: Services, res: Response, next: NextFunction)
    returns (calls: seq<Call>, settled: Settled)
    requires res.Pristine() && next.invocations == 0
    modifies res, next
    ensures Shows(res, next.invocations, calls, settled, PermissionOutcome(req, svc))
  {
    calls, settled := [], Resolved;
    if !Present(req.accessToken) {
      res.StatusJson(400, ErrorJson(IncompleteRequest));
      return;
    }
    var token := req.accessToken.value;
    calls := calls + [JwtVerify(token)];
    var decoded := VerifyToken(svc, token);
    if decoded.Throws? {
      // thrown before the try block: the handler's promise rejects
      settled := Rejected(decoded.error);
      return;
    }
    if !decoded.value.Truthy() {
      res.StatusJson(403, ErrorJson(ExpiredToken));
      return;
    }
    var lookup := UserGetById(ToJsString(decoded.value.Get("id")));
    calls := calls + [lookup];
    var found := svc.answer(lookup);
    if found.Throws? {
      var e := found.error;
      res.StatusJson(StatusOr(e, 500), FailureJson(MessageOrDefault(e), "Failed to check permission"));
      return;
    }
    if !Truthy(Some(found.value)) {
      res.StatusJson(404, ErrorJson("User not found"));
      return;
    }
    if Truthy(Prop(found.value, "isAdmin")) {
      next.Invoke();
      return;
    }
    next.Invoke();
  }

  // ---------------------------------------------------------------------------
  // Properties of login
  // ---------------------------------------------------------------------------

  /** A body with a truthy `email` and a truthy `password`. */
  predicate HasCredentials(req: Request)
  {
    Truthy(req.body) && Truthy(Prop(req.body.value, "email")) && Truthy(Prop(req.body.value, "password"))
  }

  function EmailLookup(req: Request): Call
    requires HasCredentials(req)
  {
    UserGetByEmail(Prop(req.body.value, "email").value)
  }

  /** The e-mail lookup resolves with a truthy user. */
  predicate UserFound(req: Request, svc: Services)
  {
    HasCredentials(req) && svc.answer(EmailLookup(req)).Returns? && Truthy(Some(svc.answer(EmailLookup(req)).value))
  }

  function FoundUser(req: Request, svc: Services): JsValue
    requires UserFound(req, svc)
  {
    svc.answer(EmailLookup(req)).value
  }

  function PasswordCheck(req: Request, svc: Services): Call
    requires UserFound(req, svc)
  {
    BcryptCompare(Prop(req.body.value, "password").value, Prop(FoundUser(req, svc), "password"))
  }

  /** bcrypt resolves with a truthy verdict for the submitted password. */
  predicate PasswordMatches(req: Request, svc: Services)
  {
    UserFound(req, svc) && svc.answer(PasswordCheck(req, svc)).Returns?
    && Truthy(Some(svc.answer(PasswordCheck(req, svc)).value))
  }

  predicate IsAdminUser(req: Request, svc: Services)
    requires UserFound(req, svc)
  {
    Truthy(Prop(FoundUser(req, svc), "isAdmin"))
  }

  function AdminLookup(req: Request, svc: Services): Call
    requires UserFound(req, svc)
  {
    AdminGetByUserId(ToJsString(Prop(FoundUser(req, svc), "id")))
  }

  /** The Admin lookup resolves with a truthy record. */
  predicate AdminRecordFound(req: Request, svc: Services)
    requires UserFound(req, svc)
  {
    svc.answer(AdminLookup(req, svc)).Returns? && Truthy(Some(svc.answer(AdminLookup(req, svc)).value))
  }

  /** Everything login needs to go right, stated without the ladder. */
  predicate LoginAccepted(req: Request, svc: Services)
  {
    PasswordMatches(req, svc)
    && (IsAdminUser(req, svc) ==> AdminRecordFound(req, svc))
    && svc.sign(TokenPayload(FoundUser(req, svc)), TokenLifetimeSeconds).Returns?
  }

  /** No body, or a missing email or password, is a 400 before any collaborator is called. */
  lemma LoginRejectsMissingCredentials(req: Request, svc: Services)
    requires !HasCredentials(req)
    ensures LoginOutcome(req, svc).calls == [] && LoginOutcome(req, svc).cookies == []
    ensures LoginOutcome(req, svc).end.Respond? && LoginOutcome(req, svc).end.status == 400
  {
  }

  /** An unknown e-mail is a 404 after the lookup alone: no password comparison is made. */
  lemma LoginUnknownEmail(req: Request, svc: Services)
    requires HasCredentials(req)
    requires svc.answer(EmailLookup(req)).Returns? && !Truthy(Some(svc.answer(EmailLookup(req)).value))
    ensures LoginOutcome(req, svc) == Outcome([EmailLookup(req)], [], Respond(404, ErrorJson("User not found")))
  {
  }

  /** A password mismatch is a 401 after the lookup and the comparison: no Admin lookup is made. */
  lemma LoginWrongPassword(req: Request, svc: Services)
    requires UserFound(req, svc)
    requires svc.answer(PasswordCheck(req, svc)).Returns? && !Truthy(Some(svc.answer(PasswordCheck(req, svc)).value))
    ensures LoginOutcome(req, svc) == Outcome(
      [EmailLookup(req), PasswordCheck(req, svc)], [], Respond(401, ErrorJson("Access denied: Invalid password")))
  {
  }

  /** An admin-flagged user with no Admin record is a 404 "User data not found". */
  lemma LoginAdminWithoutRecord(req: Request, svc: Services)
    requires PasswordMatches(req, svc) && IsAdminUser(req, svc)
    requires svc.answer(AdminLookup(req, svc)).Returns? && !AdminRecordFound(req, svc)
    ensures LoginOutcome(req, svc) == Outcome(
      [EmailLookup(req), PasswordCheck(req, svc), AdminLookup(req, svc)], [],
      Respond(404, ErrorJson("User data not found")))
  {
  }

  /**
   * The Admin lookup happens exactly when the password matched and the user is
   * flagged admin, and then it is the third call, after lookup and comparison.
   */
  lemma LoginAdminLookupOnlyForMatchedAdmins(req: Request, svc: Services)
    ensures (exists i :: 0 <= i < |LoginOutcome(req, svc).calls| && LoginOutcome(req, svc).calls[i].AdminGetByUserId?)
        <==> PasswordMatches(req, svc) && IsAdminUser(req, svc)
    ensures PasswordMatches(req, svc) && IsAdminUser(req, svc) ==>
      LoginOutcome(req, svc).calls[..3] == [EmailLookup(req), PasswordCheck(req, svc), AdminLookup(req, svc)]
  {
    var o := LoginOutcome(req, svc);
    if PasswordMatches(req, svc) && IsAdminUser(req, svc) {
      assert o.calls[2] == AdminLookup(req, svc);
    } else if UserFound(req, svc) && svc.answer(PasswordCheck(req, svc)).Returns? && !IsAdminUser(req, svc)
      && Truthy(Some(svc.answer(PasswordCheck(req, svc)).value)) {
      var i := IssueToken(svc, FoundUser(req, svc));
      assert o.calls == [EmailLookup(req), PasswordCheck(req, svc)] + i.calls;
    }
  }

  /**
   * Login sets a cookie exactly when it succeeds, and then the outcome is fixed:
   * four or three calls ending with signing `{ id, isAdmin }` for one week, the
   * token set as the signed cookie `cookie` with a one-week `maxAge`, and the
   * same token in a 200 body.
   */
  lemma LoginSuccess(req: Request, svc: Services)
    ensures LoginOutcome(req, svc).cookies != [] <==> LoginAccepted(req, svc)
    ensures LoginAccepted(req, svc) ==>
      var user := FoundUser(req, svc);
      var payload := TokenPayload(user);
      var token := svc.sign(payload, TokenLifetimeSeconds).value;
      var o := LoginOutcome(req, svc);
      && o.calls == [EmailLookup(req), PasswordCheck(req, svc)]
                    + (if IsAdminUser(req, svc) then [AdminLookup(req, svc)] else [])
                    + [JwtSign(payload, TokenLifetimeSeconds)]
      && o.cookies == [Cookie("cookie", token, LoginCookieOptions)]
      && o.end == Respond(200, TokenBody(token))
      && o.cookies[0].options.maxAge == 1000 * o.calls[|o.calls| - 1].expiresIn
  {
  }

  /** Login never writes, never calls `next` and never lets an error escape. */
  lemma LoginOnlyReads(req: Request, svc: Services)
    ensures NoWrites(LoginOutcome(req, svc).calls)
    ensures LoginOutcome(req, svc).end.Respond?
  {
    var o := LoginOutcome(req, svc);
    if Truthy(req.body) && Truthy(Prop(req.body.value, "email")) && Truthy(Prop(req.body.value, "password")) {
      var lookup := UserGetByEmail(Prop(req.body.value, "email").value);
      var found := svc.answer(lookup);
      if found.Returns? && Truthy(Some(found.value)) {
        var user := found.value;
        var check := BcryptCompare(Prop(req.body.value, "password").value, Prop(user, "password"));
        IssueTokenOnlyReads(svc, user);
        if svc.answer(check).Returns? && Truthy(Some(svc.answer(check).value)) && Truthy(Prop(user, "isAdmin")) {
          var adminLookup := AdminGetByUserId(ToJsString(Prop(user, "id")));
          assert o.calls[..3] == [lookup, check, adminLookup];
        }
      }
    }
  }

  lemma IssueTokenOnlyReads(svc: Services, user: JsValue)
    ensures NoWrites(IssueToken(svc, user).calls)
    ensures IssueToken(svc, user).end.Respond?
  {
  }

  // ---------------------------------------------------------------------------
  // Properties of verifyJWT
  // ---------------------------------------------------------------------------

  /** Neither the header nor a signed cookie: 400, and nothing is verified. */
  lemma VerifyJwtWithoutToken(req: Request, svc: Services)
    requires !Present(req.accessToken) && !req.HasCookie()
    ensures VerifyJwtOutcome(req, svc) == Reply(400, ErrorJson(IncompleteRequest))
  {
  }

  /** The header takes precedence: with a header, the cookie does not matter at all. */
  lemma VerifyJwtHeaderWins(req: Request, svc: Services, cookie: Option<CookieValue>)
    requires Present(req.accessToken)
    ensures VerifyJwtOutcome(req, svc).calls == [JwtVerify(req.accessToken.value)]
    ensures VerifyJwtOutcome(req, svc) == VerifyJwtOutcome(req.(signedCookie := cookie), svc)
  {
  }

  /** Without a header, the signed cookie's value is the token verified. */
  lemma VerifyJwtCookieFallback(req: Request, svc: Services)
    requires !Present(req.accessToken) && req.HasCookie()
    ensures VerifyJwtOutcome(req, svc).calls == [JwtVerify(req.signedCookie.value.text)]
  {
  }

  /** A failed verification answers `error.status || 401`. */
  lemma VerifyJwtFailure(req: Request, svc: Services)
    requires Present(req.accessToken) || req.HasCookie()
    requires svc.verify(SelectedToken(req)).Throws?
    ensures VerifyJwtOutcome(req, svc).end.Respond?
    ensures VerifyJwtOutcome(req, svc).end.status == StatusOr(svc.verify(SelectedToken(req)).error, 401)
  {
  }

  /** `next` is reached exactly when a token is present and verifies. */
  lemma VerifyJwtPassesIff(req: Request, svc: Services)
    ensures VerifyJwtOutcome(req, svc).end == Next
        <==> (Present(req.accessToken) || req.HasCookie()) && svc.verify(SelectedToken(req)).Returns?
  {
  }

  // ---------------------------------------------------------------------------
  // Properties of permissionMiddleware()
  // ---------------------------------------------------------------------------

  /** No header: 400 (the cookie is not consulted). */
  lemma PermissionWithoutHeader(req: Request, svc: Services)
    requires !Present(req.accessToken)
    ensures PermissionOutcome(req, svc) == Reply(400, ErrorJson(IncompleteRequest))
  {
  }

  /** An invalid token escapes from `verifyToken` as a rejection; no response is written. */
  lemma PermissionInvalidTokenEscapes(req: Request, svc: Services)
    requires Present(req.accessToken) && svc.verify(req.accessToken.value).Throws?
    ensures PermissionOutcome(req, svc) == Outcome([JwtVerify(req.accessToken.value)], [], Escapes(InvalidToken))
  {
  }

  /**
   * The 403 answer is given only for a token that verifies to the empty string
   * payload; a token carrying a claims object (all that login signs) never gets it.
   */
  lemma PermissionForbiddenOnlyForEmptyPayload(req: Request, svc: Services)
    ensures PermissionOutcome(req, svc).end == Respond(403, ErrorJson(ExpiredToken))
        <==> Present(req.accessToken) && svc.verify(req.accessToken.value) == Returns(PlainPayload(""))
  {
    var forbidden := ErrorJson(ExpiredToken);
    assert Obj(map["error" := Str(ExpiredToken)]).fields["error"] == Str(ExpiredToken);
    assert ErrorJson(IncompleteRequest) != forbidden by {
      assert IncompleteRequest[0] != ExpiredToken[0];
    }
    assert ErrorJson("User not found") != forbidden by {
      assert "User not found"[0] != ExpiredToken[0];
    }
    forall details, failure ensures FailureJson(details, failure) != forbidden {
      assert "details" in FailureJson(details, failure).value.fields;
    }
  }

  /**
   * Once the token verifies to claims, the user lookup decides: 404 for no user,
   * `next` for any user, whether or not it is flagged admin.
   */
  lemma PermissionLooksUpUser(req: Request, svc: Services, claims: Record)
    requires Present(req.accessToken) && svc.verify(req.accessToken.value) == Returns(Claims(claims))
    requires svc.answer(UserGetById(ToJsString(Claims(claims).Get("id")))).Returns?
    ensures var user := svc.answer(UserGetById(ToJsString(Claims(claims).Get("id")))).value;
      && (!Truthy(Some(user)) ==> PermissionOutcome(req, svc).end == Respond(404, ErrorJson("User not found")))
      && (Truthy(Some(user)) ==> PermissionOutcome(req, svc).end == Next)
  {
  }

  /** The middleware never writes. */
  lemma PermissionOnlyReads(req: Request, svc: Services)
    ensures NoWrites(PermissionOutcome(req, svc).calls)
  {
  }
}
