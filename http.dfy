/**
 * The collaborators the handlers await, and the Express request/response
 * surface they read and write.
 *
 * A collaborator (jsonwebtoken, bcrypt, the Prisma-backed services) is an
 * uninterpreted function from the call made to the value it resolves with or
 * the error it throws. A handler's observable behaviour is an `Outcome`: the
 * collaborator calls it made, in order, the cookies it set, and how it ended.
 */
module Collaborators {
  import opened Js

  /** One awaited collaborator call, with the arguments the handler passed. */
  datatype Call =
    | JwtVerify(token: string)
    | JwtSign(payload: Record, expiresIn: int)
    | BcryptCompare(plain: JsValue, hash: Option<JsValue>)
    | BcryptHash(plain: JsValue, rounds: int)
    | UserGetByEmail(email: JsValue)
    | UserGetById(userId: string)
    | UserCreate(userData: JsValue)
    | UserUpdate(userRef: JsValue, userChanges: Option<JsValue>)
    | AdminGetByUserId(ownerId: string)
    | AdminGetByCpf(cpf: JsValue)
    | AdminGetById(adminId: string)
    | AdminGetByName(name: string, activeOnly: bool)
    | AdminGetAll(activeOnly: bool, offset: Option<JsNumber>, take: Option<JsNumber>)
    | AdminCreate(adminData: JsValue)
    | AdminUpdate(adminId: string, adminChanges: Option<JsValue>)
    | AdminDelete(adminId: string)
    | BookCreate(bookData: JsValue)
    | BookGetAll
    | BookGetById(bookId: string)
    | BookUpdate(bookId: string, bookChanges: JsValue)
    | BookDelete(bookId: string)
    | LibraryCreate(libraryData: JsValue)
    | LibraryGetById(libraryId: string)
    | LibraryGetAll
  {
    /** Calls that change persisted data. */
    predicate IsWrite()
    {
      UserCreate? || UserUpdate? || AdminCreate? || AdminUpdate? || AdminDelete?
      || BookCreate? || BookUpdate? || BookDelete? || LibraryCreate?
    }
  }

  /** What `jwt.verify` returns for a good token: the claims object, or a string payload. */
  datatype Decoded = Claims(claims: Record) | PlainPayload(text: string)
  {
    /** `!!decoded`. */
    predicate Truthy()
    {
      Claims? || text != ""
    }

    /** `decoded[key]`. */
    function Get(key: string): Option<JsValue>
    {
      if Claims? && key in claims then Some(claims[key]) else None
    }
  }

  /**
   * What the collaborators answer. `verify` is `jwt.verify(token, JWT_SECRET)`
   * (the decoded payload object, or the library's error), `sign` is
   * `jwt.sign(payload, JWT_SECRET, { expiresIn })`, and `answer` gives the
   * result of every other call.
   */
  datatype Services = Services(
    verify: string -> Attempt<Decoded>,
    sign: (Record, int) -> Attempt<string>,
    answer: Call -> Attempt<JsValue>)

  predicate NoWrites(calls: seq<Call>)
  {
    forall c :: c in calls ==> !c.IsWrite()
  }
}

module Http {
  import opened Js
  import opened Collaborators

  /** `req.signedCookies.cookie`: the unsigned value, or `false` when the signature is wrong. */
  datatype CookieValue = Signed(text: string) | Tampered

  /** The parts of an Express request the handlers read. */
  datatype Request = Request(
    body: Option<JsValue>,              // req.body
    accessToken: Option<string>,        // req.headers['x-access-token']
    signedCookie: Option<CookieValue>,  // req.signedCookies.cookie
    query: map<string, string>)         // req.query
  {
    /** `!!req.signedCookies.cookie`. */
    predicate HasCookie()
    {
      signedCookie.Some? && signedCookie.value.Signed? && signedCookie.value.text != ""
    }

    /** `!!req.query[key]`. */
    predicate HasQuery(key: string)
    {
      key in query && query[key] != ""
    }

    /** `req.query[key] === 'true'`. */
    predicate QueryIsTrue(key: string)
    {
      key in query && query[key] == "true"
    }
  }

  /**
   * `req.query[key] as string` where only its truthiness matters: an absent
   * key and an empty value are both falsy.
   */
  function QueryText(req: Request, key: string): (s: string)
    ensures s != "" <==> req.HasQuery(key)
  {
    if key in req.query then req.query[key] else ""
  }

  /** What has been sent as the response body. */
  datatype Body = NoBody | Text(text: string) | Json(value: JsValue)

  datatype CookieOptions = CookieOptions(
    httpOnly: bool, maxAge: int, path: string, sameSite: string, secure: bool, signed: bool)

  datatype Cookie = Cookie(name: string, value: string, options: CookieOptions)

  /** How a handler ends: a response sent, control passed to `next`, or a rejected promise. */
  datatype End = Respond(status: int, body: Body) | Next | Escapes(error: Thrown)

  datatype Outcome = Outcome(calls: seq<Call>, cookies: seq<Cookie>, end: End)

  /** How the promise an async handler returns settles. */
  datatype Settled = Resolved | Rejected(error: Thrown)

  /** The text `res.sendStatus(code)` sends. */
  function ReasonPhrase(code: int): string
  {
    match code
    case 200 => "OK"
    case 201 => "Created"
    case 204 => "No Content"
    case 400 => "Bad Request"
    case 401 => "Unauthorized"
    case 403 => "Forbidden"
    case 404 => "Not Found"
    case 409 => "Conflict"
    case 500 => "Internal Server Error"
    case _ => DecimalString(code)
  }

  const IncompleteRequest := "Request data is incorrect or unfulfilled"
  const ExpiredToken := "Token is expired or invalid"

  /** `{ error: message }`. */
  function ErrorJson(message: string): Body
  {
    Json(Obj(map["error" := Str(message)]))
  }

  /** `{ message: text }`. */
  function MessageJson(text: string): Body
  {
    Json(Obj(map["message" := Str(text)]))
  }

  /** `{ details, error }`, as every catch block sends it. */
  function FailureJson(details: string, error: string): Body
  {
    Json(Obj(map["details" := Str(details), "error" := Str(error)]))
  }

  /** Two `{ error }` bodies are the same only for the same message. */
  lemma ErrorJsonDistinct(a: string, b: string)
    requires a != b
    ensures ErrorJson(a) != ErrorJson(b)
  {
    assert ErrorJson(a).value.fields["error"] == Str(a);
    assert ErrorJson(b).value.fields["error"] == Str(b);
  }

  /** A catch block's `{ details, error }` body is never an `{ error }` body. */
  lemma FailureIsNotErrorJson(details: string, failure: string, message: string)
    ensures FailureJson(details, failure) != ErrorJson(message)
  {
    assert "details" in FailureJson(details, failure).value.fields;
  }

  function Reply(status: int, body: Body): Outcome
  {
    Outcome([], [], Respond(status, body))
  }

  /** `res.sendStatus(code)`. */
  function SendStatus(code: int): Outcome
  {
    Reply(code, Text(ReasonPhrase(code)))
  }

  /** The catch block shared by most handlers: `error.status || 500` and `{ details, error }`. */
  function Caught(e: Thrown, failure: string): Outcome
  {
    Reply(StatusOr(e, 500), FailureJson(MessageOrDefault(e), failure))
  }

  /** The catch blocks that ignore `error.status`: always 500, the raw message as details. */
  function Failed(e: Thrown, failure: string): Outcome
  {
    Reply(500, FailureJson(e.message, failure))
  }

  function Escape(e: Thrown): Outcome
  {
    Outcome([], [], Escapes(e))
  }

  function PassOn(): Outcome
  {
    Outcome([], [], Next)
  }

  /** The outcome `o` preceded by the call `c`. */
  function After(c: Call, o: Outcome): (r: Outcome)
    ensures r.calls == [c] + o.calls && r.cookies == o.cookies && r.end == o.end
  {
    o.(calls := [c] + o.calls)
  }

  /** The Express response object: the status, the body once sent, and the cookies set. */
  class Response {
    var statusCode: int
    var body: Body
    var cookies: seq<Cookie>
    var sent: bool

    /** A response no handler has touched yet. */
    predicate Pristine()
      reads this
    {
      statusCode == 200 && body == NoBody && cookies == [] && !sent
    }

    constructor ()
      ensures Pristine()
    {
      statusCode, body, cookies, sent := 200, NoBody, [], false;
    }

    /** `res.status(code)`. */
    method Status(code: int)
      modifies this`statusCode
      ensures statusCode == code
    {
      statusCode := code;
    }

    /** `res.json(value)`. */
    method SendJson(value: JsValue)
      requires !sent
      modifies this`body, this`sent
      ensures body == Json(value) && sent
    {
      body, sent := Json(value), true;
    }

    /** Sends an already-built body with a status: `res.status(code).json(...)`. */
    method StatusJson(code: int, b: Body)
      requires !sent && b.Json?
      modifies this`statusCode, this`body, this`sent
      ensures statusCode == code && body == b && sent
    {
      Status(code);
      SendJson(b.value);
    }

    /** `res.sendStatus(code)`. */
    method SendStatus(code: int)
      requires !sent
      modifies this`statusCode, this`body, this`sent
      ensures statusCode == code && body == Text(ReasonPhrase(code)) && sent
    {
      statusCode, body, sent := code, Text(ReasonPhrase(code)), true;
    }

    /** `res.cookie(name, value, options)`. */
    method SetCookie(name: string, value: string, options: CookieOptions)
      requires !sent
      modifies this`cookies
      ensures cookies == old(cookies) + [Cookie(name, value, options)]
    {
      cookies := cookies + [Cookie(name, value, options)];
    }
  }

  /** The `next` callback of a middleware, counting how often it is called. */
  class NextFunction {
    var invocations: nat

    constructor ()
      ensures invocations == 0
    {
      invocations := 0;
    }

    method Invoke()
      modifies this
      ensures invocations == old(invocations) + 1
    {
      invocations := invocations + 1;
    }
  }

  /** The catch block shared by most handlers, on the response object. */
  method CatchBlock(res: Response, e: Thrown, failure: string)
    requires !res.sent
    modifies res`statusCode, res`body, res`sent
    ensures res.sent && res.statusCode == StatusOr(e, 500)
    ensures res.body == FailureJson(MessageOrDefault(e), failure)
  {
    res.StatusJson(StatusOr(e, 500), FailureJson(MessageOrDefault(e), failure));
  }

  /**
   * The response `res`, the number of `next` calls, the calls made and the
   * settled promise are exactly what the outcome `o` describes.
   */
  predicate Shows(res: Response, nextCalls: nat, calls: seq<Call>, settled: Settled, o: Outcome)
    reads res
  {
    calls == o.calls && res.cookies == o.cookies &&
    match o.end
    case Respond(status, body) =>
      res.sent && res.statusCode == status && res.body == body && nextCalls == 0 && settled == Resolved
    case Next =>
      !res.sent && res.statusCode == 200 && res.body == NoBody && nextCalls == 1 && settled == Resolved
    case Escapes(e) =>
      !res.sent && res.statusCode == 200 && res.body == NoBody && nextCalls == 0 && settled == Rejected(e)
  }
}
