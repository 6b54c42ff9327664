# library-tracker: the request layer, in Dafny

This project models the server side of library-tracker, an Express application that keeps administrators, their user accounts, books and libraries in a Prisma-backed database. It covers the part that decides what each request gets:

- the authentication module (`login`, the `verifyJWT` and `permissionMiddleware` middlewares, `verifyToken`, `comparePassword`, `hashPassword`);
- the three controllers (admins and their users, books, libraries), with their required-field validators;
- the three routers that put `verifyJWT` in front of every handler and choose a GET handler by the keys of the query.

Every handler is modelled twice:

- as a function `XOutcome(req, svc)` that gives the handler's `Outcome`: the collaborator calls it awaited, in order, the cookies it set, and how it ended (a response with a status and a body, a call to `next`, or a rejected promise);
- as a method that writes an Express `Response` object step by step, as the handler does, and is proved to leave exactly what the function describes (`ensures Shows(res, ..., XOutcome(req, svc))`).

The properties are lemmas about the outcome functions: which status each branch answers, which calls come first, what is never written, and what the routers dispatch to.

The collaborators are parameters: `Services(verify, sign, answer)`. `verify` is `jwt.verify` and `sign` is `jwt.sign`. `answer` gives, for every other call (bcrypt, the user, admin, book and library services), the value it resolves with or the error it throws. No property depends on what they answer unless a lemma says so in its `requires`.

The JavaScript semantics the handlers rely on are written out in module `Js`:

- truthiness, `v !== undefined && v !== null`, `String(v)`;
- `parseInt(s, 10)` with white space, sign and trailing junk;
- `error.status || 500`.

Files:

- `js.dfy`: module `Js`;
- `http.dfy`: modules `Collaborators` and `Http`, the request, the response class and outcomes;
- `authentication.dfy`: module `Authentication`;
- `user_controller.dfy`, `book_controller.dfy`, `library_controller.dfy`: the controllers;
- `routing.dfy`: module `Routing`, shared route matching, `verifyJWT` in front of a handler, and `handlers.find`;
- `admin_routes.dfy`, `book_routes.dfy`, `library_routes.dfy`: the routers.

The model follows the code where it does something its names and messages do not suggest:

- A token that fails `jwt.verify` makes `verifyToken` throw. In the controllers that error escapes the handler as a rejected promise; the 403 "Token is expired or invalid" branch is reached only for a token whose payload is the empty string.
- `login` calls `bcrypt.compare` directly, not `comparePassword`.
- The book and library `getAll`, and the book `update` and `delete`, answer any thrown error with 500 and the raw message, ignoring `error.status`.
- The book router registers no POST route, so the book controller's `create` cannot be reached.

## Model

| member | source | states |
|---|---|---|
| Js.EveryDefined | database/controllers/userController.ts:13-16 | `fields.every(f => v[f] !== undefined && v[f] !== null)` holds exactly when every listed field is present and not null |
| Js.Truthy | database/controllers/userController.ts:37 | JavaScript truthiness as the guards test it (`!req?.body`, `!decodedToken`): `undefined`, `null`, `false`, `0`, `NaN` and `""` are falsy, every other value is truthy |
| Js.Present | database/controllers/userController.ts:37 | `!!req?.headers?.['x-access-token']` for a header or query string: set and not empty |
| Js.Prop | database/controllers/userController.ts:13-16 | `v[key]`: the property of an object, `undefined` for a missing key or a value that is not an object |
| Js.Defined | database/controllers/userController.ts:13-16 | `v !== undefined && v !== null` |
| Js.OrEmptyObject | database/controllers/userController.ts:53-54 | `req.body \|\| {}`: the body when it is truthy, the empty object otherwise |
| Js.SetProp | database/controllers/userController.ts:99 | assigning a property of an object sets that key and leaves every other key as it was |
| Js.StatusOr | database/controllers/userController.ts:104 | `error.status \|\| fallback`: a non-zero status is kept, an absent or zero one gives the fallback |
| Js.MessageOrDefault | database/controllers/userController.ts:106 | `error.message \|\| 'An unexpected error occurred'` |
| Js.LengthIsZero | database/controllers/bookController.ts:72 | `list.length === 0` |
| Js.ToJsString | authentication.ts:114 | `String(v)`: `"undefined"`, `"null"`, `"true"` or `"false"`, the decimal numeral or `"NaN"`, the string itself, the comma-joined items of an array, `"[object Object]"` for an object |
| Js.DecimalString | database/controllers/bookController.ts:110 | `String(n)` for an integer `n`: its decimal numeral, with a minus sign when negative |
| Js.TrimStart | database/controllers/bookController.ts:104 | the white space `parseInt` skips first: the result is a suffix of the text and does not start with white space |
| Js.DigitPrefix | database/controllers/bookController.ts:104 | the digits `parseInt` reads: a prefix of the text made only of digits |
| Js.ParseInt | database/controllers/bookController.ts:104 | `parseInt(text, 10)`: white space skipped, one optional sign, then the longest digit run; `NaN` when there is none (the ParseInt lemmas below state what it returns) |
| Js.ParseDigits | database/controllers/bookController.ts:104-105 | the digit run parses to `NaN` exactly when the text does not start with a digit |
| Js.ParseIntDigitsThenJunk | database/controllers/bookController.ts:104 | `parseInt` of digits followed by a non-digit is the value of the digits |
| Js.ParseIntOfDigits | database/controllers/bookController.ts:104 | a non-empty digit string parses to its value, never `NaN` |
| Js.ParseIntNoDigits | database/controllers/bookController.ts:104-107 | text with no digit parses to `NaN`, which the handlers answer with 400 |
| Js.ParseIntOfDecimalString | database/controllers/bookController.ts:104-110 | `parseInt(String(n), 10) == n` for every integer, negative ones included |
| Js.ParseIntOfNumeral | database/controllers/bookController.ts:104 | the decimal numeral of a natural number parses back to it |
| Js.ParseIntOfNegativeNumeral | database/controllers/bookController.ts:104 | `"-"` followed by a numeral parses to the negated value |
| Js.DigitsValueOfNumeral | database/controllers/bookController.ts:110 | reading back the decimal numeral of `n` gives `n` |
| Js.IdKeyOfDecimal | database/controllers/bookController.ts:104-110 | the key `String(parseInt(text, 10))` of a decimal string is that string |
| Js.IdKeyIdempotent | database/controllers/bookController.ts:104-110 | normalising an id key a second time changes nothing |
| Js.IdKeyDigitPrefix | database/controllers/bookController.ts:104-110 | only the leading digits decide the key the service receives: `"007abc"` looks up `"7"` |
| Js.IdKeyNoDigits | database/controllers/bookController.ts:104-107 | text without a digit has no key, so no lookup is made |
| Js.IdKey | database/controllers/bookController.ts:104-110 | `String(parseInt(text, 10))`, the key the book and library handlers pass to their services; none when `parseInt` gives `NaN` and the handler answers 400 |
| Http.QueryText | database/controllers/userController.ts:185 | the query text is non-empty exactly when `!!req.query[key]` holds |
| Http.CatchBlock | database/controllers/userController.ts:102-110 | the shared catch block answers `error.status \|\| 500` with `{ details: message \|\| default, error }` |
| Http.Caught | database/controllers/userController.ts:102-110 | the shared catch block as an outcome: `error.status \|\| 500` with `{ details: error.message \|\| default, error }` |
| Http.Failed | database/controllers/bookController.ts:156-162 | the catch blocks that ignore `error.status`: always 500, with the raw `error.message` as details |
| Http.SendStatus | database/controllers/bookController.ts:132 | `res.sendStatus(code)`: the status with its reason phrase as a text body |
| Http.ErrorJsonDistinct | database/controllers/userController.ts:56-68 | two `{ error }` bodies with different messages are different answers |
| Http.FailureIsNotErrorJson | database/controllers/userController.ts:102-110 | a catch block's `{ details, error }` body is never a guard's `{ error }` body |
| Authentication.VerifyToken | authentication.ts:241-248 | the decoded payload when `jwt.verify` accepts the token; otherwise a status-less `Error('Invalid or expired token')` |
| Authentication.ComparePassword | authentication.ts:29-36 | bcrypt's verdict, or a status-less `Error("Password don't match")` when bcrypt throws |
| Authentication.HashPassword | authentication.ts:158-165 | the cost-12 bcrypt hash, or a status-less `Error('Error hashing password')` when bcrypt throws |
| Authentication.TokenGateNoWrites | database/controllers/userController.ts:44-51 | the token step before a handler's try block adds only the verification call, which writes nothing |
| Authentication.TokenGate | database/controllers/userController.ts:44-51 | the token step before a handler's own part: the verification call, whose error escapes; a falsy payload gets the handler's denial; any other payload goes on |
| Authentication.AdminGateOpening | database/controllers/bookController.ts:28-32 | an unverifiable token escapes; a payload without a truthy `isAdmin` (a string payload included) is a bare 403; only an admin token goes on |
| Authentication.AdminGate | database/controllers/bookController.ts:28-32 | the token step of the admin-only handlers: the verification call, whose error escapes; a bare 403 unless the payload's `isAdmin` is truthy; otherwise the handler goes on |
| Authentication.AdminToken | database/controllers/bookController.ts:28-32 | the header is set and verifies to claims whose `isAdmin` is truthy |
| Authentication.TokenPayload | authentication.ts:122-127 | the token payload has only `id` and `isAdmin`, each copied from the user when the user has it |
| Authentication.Login | authentication.ts:83-150 | the response, cookies and calls `login` leaves are exactly those of the login outcome (`Authentication.LoginOutcome`) |
| Authentication.LoginOutcome | authentication.ts:83-150 | the ladder of `login`: 400, 400, the e-mail lookup and 404, `bcrypt.compare` and 401, the Admin lookup and 404 for an admin-flagged user, then the token issue; every collaborator error goes to the catch block |
| Authentication.SignIn | authentication.ts:129-140 | signing, the cookie and the 200 `{ token }` answer are exactly those of the token issue outcome (`Authentication.IssueToken`) |
| Authentication.IssueToken | authentication.ts:122-140 | the end of `login`: sign `{ id, isAdmin }` for 604800 s, set the token as the signed cookie `cookie`, and answer 200 `{ token }` |
| Authentication.LoginRejectsMissingCredentials | authentication.ts:84-95 | without a body, an email or a password, login answers 400 before calling anything and sets no cookie |
| Authentication.LoginUnknownEmail | authentication.ts:97-103 | an unknown e-mail is a 404 "User not found" after the lookup alone |
| Authentication.LoginWrongPassword | authentication.ts:105-109 | a password mismatch is a 401 after the lookup and the comparison, with no admin lookup |
| Authentication.LoginAdminWithoutRecord | authentication.ts:113-120 | an admin-flagged user with no Admin record is a 404 "User data not found" after three calls |
| Authentication.LoginAdminLookupOnlyForMatchedAdmins | authentication.ts:105-120 | the Admin lookup is made if and only if the password matched and the user is flagged admin, and then it is the third call |
| Authentication.LoginSuccess | authentication.ts:122-140 | a cookie is set if and only if login succeeds; then it signs `{ id, isAdmin }` for 604800 s, sets the token as the signed `cookie` whose `maxAge` is 1000 times that lifetime, and answers 200 with the same token |
| Authentication.LoginOnlyReads | authentication.ts:83-150 | login never writes and always answers, even when a collaborator throws |
| Authentication.IssueTokenOnlyReads | authentication.ts:129-140 | issuing the token writes nothing and always answers |
| Authentication.SelectedToken | authentication.ts:219-221 | the verified token is the header when it is set, the signed cookie otherwise |
| Authentication.VerifyJwt | authentication.ts:212-234 | the response, `next` calls and verification call of `verifyJWT` are exactly those of its outcome (`Authentication.VerifyJwtOutcome`) |
| Authentication.VerifyJwtOutcome | authentication.ts:212-234 | what `verifyJWT` does: 400 without header or signed cookie; otherwise one verification call of the selected token, then `next()` or `error.status \|\| 401` with the error's message |
| Authentication.VerifyJwtWithoutToken | authentication.ts:213-218 | with neither header nor signed cookie, 400 and nothing verified |
| Authentication.VerifyJwtHeaderWins | authentication.ts:219-221 | with a header, the header is verified and the cookie makes no difference at all |
| Authentication.VerifyJwtCookieFallback | authentication.ts:219-223 | without a header, the signed cookie's value is what is verified |
| Authentication.VerifyJwtFailure | authentication.ts:225-233 | a failed verification answers `error.status \|\| 401` |
| Authentication.VerifyJwtPassesIff | authentication.ts:213-224 | `next` is called if and only if a header or signed cookie is present and verifies |
| Authentication.Permission | authentication.ts:174-210 | the response, `next` calls and calls of `permissionMiddleware` are exactly those of its outcome (`Authentication.PermissionOutcome`) |
| Authentication.PermissionOutcome | authentication.ts:174-210 | what `permissionMiddleware` does: 400 without the header; `verifyToken`, whose error escapes; 403 for a falsy payload; the user lookup by `String(decodedToken.id)`, 404 when missing, and `next()` in both `isAdmin` branches |
| Authentication.PermissionWithoutHeader | authentication.ts:176-180 | without the header, 400 (the cookie is not consulted) |
| Authentication.PermissionInvalidTokenEscapes | authentication.ts:182-183 | an invalid token escapes as a rejection before any response is written |
| Authentication.PermissionForbiddenOnlyForEmptyPayload | authentication.ts:183-188 | the 403 answer is given if and only if the header verifies to the empty string payload |
| Authentication.PermissionLooksUpUser | authentication.ts:189-199 | once the token verifies to claims, a missing user is a 404 and any user, admin or not, passes on to `next` |
| Authentication.PermissionOnlyReads | authentication.ts:174-210 | the middleware never writes |
| UserController.CheckAdminRequiredFields | database/controllers/userController.ts:11-17 | true if and only if address, birthDate, cpf, name and phone are all present and not null |
| UserController.CheckUserRequiredFields | database/controllers/userController.ts:22-28 | true if and only if email, password, isActive and isAdmin are all present and not null |
| UserController.UserFieldsAcceptFalsyValues | database/controllers/userController.ts:22-28 | for every user whose four required fields each hold a falsy value other than `null` (`false`, `0`, `NaN` or `""`), the check passes; setting `isAdmin` to `null` makes it fail |
| UserController.AdminFieldsNeedCpf | database/controllers/userController.ts:11-17 | an admin whose cpf is missing or null is refused, whatever else it carries |
| UserController.OptionalNumber | database/controllers/userController.ts:135-136 | absent for an absent or empty query value, `parseInt` of the text otherwise |
| UserController.NaNGuard | database/controllers/userController.ts:138-150 | `n && Number.isNaN(n)` for an optional parsed number |
| UserController.Gated | database/controllers/userController.ts:37-51 | the opening every admin handler shares: 400 unless the first guard holds, then the token step with the 403 JSON denial, then the handler's own part |
| UserController.TokenAccepted | database/controllers/userController.ts:44-51 | the header is set and verifies to a truthy payload |
| UserController.LinkedUserId | database/controllers/userController.ts:431 | the linked user's id exactly when the existing admin's `user` is an object with an `id` |
| UserController.Lookup | database/controllers/userController.ts:209-227 | the single-record lookup leaves exactly what its outcome says (`UserController.LookupOutcome`) |
| UserController.LookupOutcome | database/controllers/userController.ts:209-227 | a single-record lookup in a try block: the call, 404 for a falsy record, 200 with the record, the shared catch block on a throw |
| UserController.List | database/controllers/userController.ts:152-178 | the list query leaves exactly what its outcome says (`UserController.ListOutcome`) |
| UserController.ListOutcome | database/controllers/userController.ts:152-178 | a list query in a try block: the call, 404 for a falsy list, 204 for an empty one, 200 with the list, the shared catch block on a throw |
| UserController.Create | database/controllers/userController.ts:36-111 | the response and calls of `create` are exactly those of its outcome (`UserController.CreateOutcome`) |
| UserController.CreateOutcome | database/controllers/userController.ts:36-111 | the ladder of `create`: the first guard, the token step, then the validation and the try block |
| UserController.CreateChecked | database/controllers/userController.ts:53-68 | the validation part of `create` leaves exactly what its outcome says (`UserController.CreateAfter`) |
| UserController.CreateAfter | database/controllers/userController.ts:53-68 | `create` after the token step: 400 for an invalid admin part, then for an invalid user part, then the try block |
| UserController.AdminPartValid | database/controllers/userController.ts:56-62 | the body's `admin` is truthy and has its five required fields |
| UserController.UserPartValid | database/controllers/userController.ts:63-68 | the body's `user` is truthy and has its four required fields |
| UserController.CreateRecords | database/controllers/userController.ts:70-101 | the try block of `create`: the duplicate checks, then the insertions |
| UserController.StoreRecords | database/controllers/userController.ts:70-85 | the duplicate checks leave exactly what their outcome says (`UserController.DuplicateChecks`) |
| UserController.DuplicateChecks | database/controllers/userController.ts:70-85 | the e-mail lookup and 409, then the CPF lookup and 409, each with the shared catch block, before the rest of the try block |
| UserController.NoDuplicates | database/controllers/userController.ts:71-85 | both duplicate lookups resolve with a falsy record |
| UserController.Insert | database/controllers/userController.ts:87-96 | hashing and inserting the user leave exactly what their outcome says (`UserController.InsertRecords`) |
| UserController.InsertRecords | database/controllers/userController.ts:87-101 | hash the password, insert the user carrying the hash, 500 for a falsy new user, then link and insert the admin |
| UserController.InsertsHashedUsers | database/controllers/userController.ts:88-89 | the hashing invariant: every user insertion comes right after a resolved cost-12 hash call and carries its result as the password |
| UserController.CreateLinkedAdmin | database/controllers/userController.ts:98-101 | linking and inserting the admin leave exactly what their outcome says (`UserController.LinkAdmin`) |
| UserController.LinkedAdmin | database/controllers/userController.ts:99 | `adminData` with `user` set to `parseInt(newUser.id, 10)` |
| UserController.LinkAdmin | database/controllers/userController.ts:98-101 | the admin insertion with the linked user, then 201, or the shared catch block |
| UserController.GatedOpening | database/controllers/userController.ts:37-51 | a failed first guard is a 400 with no call; an unverifiable token escapes; 403 only for an empty string payload; otherwise the handler's own part follows the verification call |
| UserController.CreateValidatesFirst | database/controllers/userController.ts:56-68 | the admin part, then the user part, is validated before any call; a valid body starts with the e-mail lookup |
| UserController.CreateRejectsDuplicates | database/controllers/userController.ts:71-85 | a known e-mail is a 409 before the CPF lookup; a known CPF is a 409 before anything is written |
| UserController.InsertsHashedUsersPrefix | database/controllers/userController.ts:88-89 | prefixing a non-insertion call keeps every user insertion right after its hash call |
| UserController.HashThenInsert | database/controllers/userController.ts:88-89 | a resolved hash call followed by the insertion of the user carrying that hash satisfies the hashing invariant |
| UserController.InsertRecordsHashed | database/controllers/userController.ts:87-101 | in the insertion step, every user insertion carries the hash the cost-12 bcrypt call just resolved with |
| UserController.CreateRecordsHashed | database/controllers/userController.ts:70-101 | the same holds for the whole try block |
| UserController.CreateStoresOnlyHashes | database/controllers/userController.ts:36-111 | `create` stores a user only with the freshly computed bcrypt hash as its password, never the plain text |
| UserController.CreateWithoutNewUser | database/controllers/userController.ts:91-96 | a falsy new user is a 500 after its insertion, and no admin is created |
| UserController.CreateLookupFailure | database/controllers/userController.ts:102-110 | a throwing e-mail lookup is answered with `status \|\| 500` and "Failed to create admin" after that one call |
| UserController.HashFailureIs500 | database/controllers/userController.ts:88 | a bcrypt failure always answers 500 with the details "Error hashing password", and no user is inserted |
| UserController.LinkAdminSucceeds | database/controllers/userController.ts:99-101 | the last step answers 201 if and only if the admin insertion resolves |
| UserController.InsertRecordsSucceeds | database/controllers/userController.ts:87-101 | after the duplicate checks, 201 if and only if the hash and the user insertion resolve with a truthy user and the admin insertion resolves; then exactly those three calls are made |
| UserController.CreateRecordsSucceeds | database/controllers/userController.ts:70-101 | the try block answers 201 only past both duplicate checks |
| UserController.DuplicateChecksPass | database/controllers/userController.ts:70-85 | the two duplicate checks go on, after the email lookup and the CPF lookup, exactly when both lookups resolve with a falsy record; any other way out (a 409 or a catch block) is never a 201 and makes no call beyond the two lookups |
| UserController.LinkedAdminNumericId | database/controllers/userController.ts:99 | a numeric user id, or its decimal string, is linked unchanged |
| UserController.LinkedAdminDigitPrefix | database/controllers/userController.ts:99 | an id that starts with digits links the value of those digits only |
| UserController.LinkedAdminWithoutDigits | database/controllers/userController.ts:99 | a string id without any digit links `NaN` |
| UserController.LinkedAdminKeepsOtherFields | database/controllers/userController.ts:99 | linking changes only the admin data's `user` field |
| UserController.GetAll | database/controllers/userController.ts:116-179 | the response and calls of `getAll` are exactly those of its outcome (`UserController.GetAllOutcome`) |
| UserController.GetAllOutcome | database/controllers/userController.ts:116-179 | the ladder of `getAll`: the shared opening, then the filters and the list query |
| UserController.GetAllAfter | database/controllers/userController.ts:134-178 | `isActive === 'true'`, the optional `offset` and `take`, the two NaN guards, then the list query |
| UserController.GetAllAlwaysQueries | database/controllers/userController.ts:134-153 | the two NaN guards never answer: the list is always requested, with `isActive` true exactly for the text `"true"` and the parsed `offset` and `take` |
| UserController.GetAllPassesNaNOffset | database/controllers/userController.ts:135-150 | an `offset` without digits reaches the service as `NaN` instead of being refused |
| UserController.ListAnswers | database/controllers/userController.ts:153-178 | 200 with the list if and only if the service resolved with a truthy non-empty list; a falsy list is 404, an empty one 204, a thrown error `status \|\| 500` |
| UserController.LookupAnswers | database/controllers/userController.ts:209-227 | 200 with the record if and only if the service resolved with a truthy record; otherwise 404 or `status \|\| 500` |
| UserController.GetById | database/controllers/userController.ts:184-228 | the response and calls of `getById` are exactly those of its outcome (`UserController.GetByIdOutcome`) |
| UserController.GetByIdOutcome | database/controllers/userController.ts:184-228 | the ladder of `getById`: the shared opening on the header and `id`, then the lookup by the raw id text |
| UserController.GetByUserId | database/controllers/userController.ts:233-277 | the response and calls of `getByUserId` are exactly those of its outcome (`UserController.GetByUserIdOutcome`) |
| UserController.GetByUserIdOutcome | database/controllers/userController.ts:233-277 | the ladder of `getByUserId`: the shared opening on the header and `userId`, then the lookup by `String(userId)` |
| UserController.GetByCpf | database/controllers/userController.ts:282-326 | the response and calls of `getByCPF` are exactly those of its outcome (`UserController.GetByCpfOutcome`) |
| UserController.GetByCpfOutcome | database/controllers/userController.ts:282-326 | the ladder of `getByCPF`: the shared opening on the header and `cpf`, then the lookup by the cpf text |
| UserController.GetByName | database/controllers/userController.ts:331-385 | the response and calls of `getByName` are exactly those of its outcome (`UserController.GetByNameOutcome`) |
| UserController.GetByNameOutcome | database/controllers/userController.ts:331-385 | the ladder of `getByName`: the shared opening on the header and `name`, then the name query |
| UserController.GetByNameAfter | database/controllers/userController.ts:349-384 | `getByName` after the token step: 400 for an empty name, then the list query with `isActive === 'true'` |
| UserController.ByKey | database/controllers/userController.ts:184-228 | the shared body of the three single-key lookups leaves exactly what its outcome says (`UserController.ByKeyAfter`) |
| UserController.ByKeyAfter | database/controllers/userController.ts:201-227 | the single-key lookups after the token step: the second emptiness test of the key, then one lookup |
| UserController.SecondKeyChecksAreDead | database/controllers/userController.ts:185-207 | the second emptiness test of the query key never answers: each lookup behaves as if it were absent, and `update` and `delete` with a non-empty id never answer "Id is required", whatever the update's body |
| UserController.ReadHandlersOnlyRead | database/controllers/userController.ts:116-385 | the five read handlers never write |
| UserController.GetAllOnlyReads | database/controllers/userController.ts:116-179 | `getAll` never writes |
| UserController.GetByNameOnlyReads | database/controllers/userController.ts:331-385 | `getByName` never writes |
| UserController.ByKeyNoWrites | database/controllers/userController.ts:184-228 | the single-key lookups never write |
| UserController.GatedNoWrites | database/controllers/userController.ts:37-51 | the shared opening adds nothing written to the handler's own calls |
| UserController.Update | database/controllers/userController.ts:390-445 | the response and calls of `update` are exactly those of its outcome (`UserController.UpdateOutcome`) |
| UserController.UpdateOutcome | database/controllers/userController.ts:390-445 | the ladder of `update`: the shared opening on the body, header and `id`, then the lookup and the writes |
| UserController.UpdateAfter | database/controllers/userController.ts:418-444 | `update` after the token step: the second test of the id, the admin lookup and 404, then the writes |
| UserController.Rewrite | database/controllers/userController.ts:427-435 | the writes of `update` leave exactly what their outcome says (`UserController.UpdateRecords`) |
| UserController.UpdateRecords | database/controllers/userController.ts:427-435 | the admin update, then the linked user's update when `existingAdmin.user` is an object with an `id`, then 200 |
| UserController.IsObjectType | database/controllers/userController.ts:431 | `typeof v === 'object'` for a defined value: `null`, an array or an object |
| UserController.UpdateAnswers | database/controllers/userController.ts:418-444 | a missing admin is a 404 with nothing written; a throwing lookup is `status \|\| 500` "Failed to update admin"; otherwise the admin is updated first |
| UserController.UpdateTouchesLinkedUser | database/controllers/userController.ts:427-435 | the admin update comes first; the linked user is updated if and only if that resolved and the existing admin has a `user` object with an `id`, and with that id |
| UserController.UpdateIgnoresNumericUser | database/controllers/userController.ts:431 | an admin whose `user` field is a number never has its user updated |
| UserController.Delete | database/controllers/userController.ts:450-495 | the response and calls of `delete` are exactly those of its outcome (`UserController.DeleteOutcome`) |
| UserController.DeleteOutcome | database/controllers/userController.ts:450-495 | the ladder of `delete`: the shared opening on the header and `id`, then the lookup and the deletion |
| UserController.DeleteAfter | database/controllers/userController.ts:468-494 | `delete` after the token step: the second test of the id, the lookup and 404, the deletion and 204, or the shared catch block |
| UserController.DeleteAnswers | database/controllers/userController.ts:475-494 | a missing admin is a 404 with nothing written; the admin is deleted if and only if the lookup found one; 204 if and only if the deletion resolved |
| BookController.CheckBookRequiredFields | database/controllers/bookController.ts:7-17 | true if and only if each of the thirteen book fields is present and not null |
| BookController.Create | database/controllers/bookController.ts:20-56 | the response and calls of `create` are exactly those of its outcome (`BookController.CreateOutcome`) |
| BookController.CreateOutcome | database/controllers/bookController.ts:20-56 | the ladder of `create`: the first guard, the admin check, then validation and insertion |
| BookController.CreateAfter | database/controllers/bookController.ts:34-54 | `create` after the admin check: 400 for an invalid `book`, then the insertion and 201, or the shared catch block |
| BookController.StoreBook | database/controllers/bookController.ts:34-54 | validating and inserting the book leave exactly what their outcome says (`BookController.CreateAfter`) |
| BookController.CreateAnswers | database/controllers/bookController.ts:34-54 | an invalid `book` is a 400 with no call; a valid one is inserted as sent, and 201 if and only if the insertion resolves |
| BookController.BookWritesNeedAdmin | database/controllers/bookController.ts:28-32 | books are created, updated and deleted only with a token whose `isAdmin` claim is truthy |
| BookController.GetAll | database/controllers/bookController.ts:58-83 | the response and calls of `getAll` are exactly those of its outcome (`BookController.GetAllOutcome`) |
| BookController.GetAllOutcome | database/controllers/bookController.ts:58-83 | the ladder of `getAll`: the header guard, the token step with a bare 403, then the list query |
| BookController.GetAllAfter | database/controllers/bookController.ts:67-82 | the list query: 404 for a falsy list, 204 for an empty one, 200 with the list, 500 with the raw message on a throw |
| BookController.GetAllAnswers | database/controllers/bookController.ts:67-82 | 200 with the list if and only if it is truthy and non-empty; otherwise 404 or 204; a thrown error is 500 whatever its status |
| BookController.GetAllOnlyReads | database/controllers/bookController.ts:58-83 | `getAll` never writes |
| BookController.GetById | database/controllers/bookController.ts:89-125 | the response and calls of `getById` are exactly those of its outcome (`BookController.GetByIdOutcome`) |
| BookController.GetByIdOutcome | database/controllers/bookController.ts:89-125 | the ladder of `getById`: the guard on the header and `id`, the token step with a bare 403, then the parse and the lookup |
| BookController.GetByIdAfter | database/controllers/bookController.ts:104-124 | `parseInt` of the id and 400 for `NaN`, then the lookup by `String(id)` |
| BookController.GetByIdAnswers | database/controllers/bookController.ts:104-124 | an id without digits is a 400 with no lookup; otherwise the book is looked up by its normalised key, 200 if and only if found, and a thrown error keeps its status |
| BookController.GetByIdOnlyReads | database/controllers/bookController.ts:89-125 | `getById` never writes |
| BookController.Update | database/controllers/bookController.ts:128-163 | the response and calls of `update` are exactly those of its outcome (`BookController.UpdateOutcome`) |
| BookController.UpdateOutcome | database/controllers/bookController.ts:128-163 | the ladder of `update`: the guard, the spread body, the parse and 400, then the admin check and the writes |
| BookController.UpdateAfter | database/controllers/bookController.ts:147-162 | after the admin check: the lookup and 404, the update with the spread body and 200, 500 with the raw message on a throw |
| BookController.Spread | database/controllers/bookController.ts:135 | `{ ...req.body }`: an object's own fields, and the empty object for any other body |
| BookController.UpdateChecksIdFirst | database/controllers/bookController.ts:129-145 | the id is parsed before the token: an id without digits is a 400 with no call at all |
| BookController.UpdateAnswers | database/controllers/bookController.ts:147-162 | a missing book is a 404 with nothing written; otherwise the spread body is written under the same key, 200 if and only if the write resolves; any error is a 500 |
| BookController.UpdateForAdmin | database/controllers/bookController.ts:128-162 | for a request with a body, a digit id and an admin token, `update` verifies the token once and then goes on with the spread body and the normalised key |
| BookController.Delete | database/controllers/bookController.ts:165-198 | the response and calls of `delete` are exactly those of its outcome (`BookController.DeleteOutcome`) |
| BookController.DeleteOutcome | database/controllers/bookController.ts:165-198 | the ladder of `delete`: the guard, the admin check, then the parse and the deletion |
| BookController.DeleteAfter | database/controllers/bookController.ts:177-197 | after the admin check: `parseInt` and 400 for `NaN`, the lookup and 404, the deletion and 204, 500 with the raw message on a throw |
| BookController.Remove | database/controllers/bookController.ts:176-197 | the response and calls of `delete` after the admin check are exactly those of that step's outcome (`BookController.DeleteAfter`) |
| BookController.DeleteChecksAdminFirst | database/controllers/bookController.ts:166-180 | the admin flag is checked before the id is parsed: an id without digits is a 400 only for an admin, after the token call |
| BookController.DeleteAnswers | database/controllers/bookController.ts:182-197 | a missing book is a 404 with nothing written; deleted if and only if found; 204 if and only if the deletion resolves; any error is a 500 |
| BookController.DeleteForAdmin | database/controllers/bookController.ts:165-197 | for a request with an id and an admin token, `delete` verifies the token once and then goes on with the query's id text |
| LibraryController.CheckLibraryRequiredFields | database/controllers/libraryController.ts:7-14 | true if and only if address and name are present and not null |
| LibraryController.Create | database/controllers/libraryController.ts:17-52 | the response and calls of `create` are exactly those of its outcome (`LibraryController.CreateOutcome`) |
| LibraryController.CreateOutcome | database/controllers/libraryController.ts:17-52 | the ladder of `create`: the first guard, the admin check with a bare 403, then validation and insertion |
| LibraryController.CreateAfter | database/controllers/libraryController.ts:31-51 | after the admin check: 400 for an invalid `library`, the insertion and 201, or the shared catch block |
| LibraryController.CreateAnswers | database/controllers/libraryController.ts:18-51 | a non-admin token is a bare 403 with nothing written; an invalid `library` is a 400; a valid one is inserted as sent, and 201 if and only if the insertion resolves |
| LibraryController.GetById | database/controllers/libraryController.ts:57-93 | the response and calls of `getById` are exactly those of its outcome (`LibraryController.GetByIdOutcome`) |
| LibraryController.GetByIdOutcome | database/controllers/libraryController.ts:57-93 | the ladder of `getById`: the bare 400 guard, the token step with the 403 JSON denial, then the parse and the lookup |
| LibraryController.GetByIdAfter | database/controllers/libraryController.ts:72-92 | `parseInt` of the id and 400 for `NaN`, the lookup by `String(id)`, 404 for a falsy library, 200 with it |
| LibraryController.GetByIdAnswers | database/controllers/libraryController.ts:72-92 | an id without digits is a 400 with no lookup; otherwise 200 with the library if and only if it is truthy, 404 otherwise, and a thrown error keeps its status |
| LibraryController.GetAll | database/controllers/libraryController.ts:95-120 | the response and calls of `getAll` are exactly those of its outcome (`LibraryController.GetAllOutcome`) |
| LibraryController.GetAllOutcome | database/controllers/libraryController.ts:95-120 | the ladder of `getAll`: the header guard, the token step with a bare 403, then the list query |
| LibraryController.GetAllAfter | database/controllers/libraryController.ts:104-119 | the list query: 404, 204, 200 with the list, or 500 with the raw message |
| LibraryController.GetAllAnswers | database/controllers/libraryController.ts:104-119 | 200 with the list if and only if it is truthy and non-empty; otherwise 404 or 204; a thrown error is 500 whatever its status |
| LibraryController.ReadHandlersOnlyRead | database/controllers/libraryController.ts:57-120 | the two read handlers never write |
| LibraryController.GetByIdOnlyReads | database/controllers/libraryController.ts:57-93 | `getById` never writes |
| LibraryController.GetAllOnlyReads | database/controllers/libraryController.ts:95-120 | `getAll` never writes |
| Routing.DigitParam | routes/bookRoutes.ts:27-28 | a matched `:id(\d+)` parameter is a non-empty digit run, and the path is `/` followed by it and at most one trailing slash |
| Routing.DigitParamOfDigits | routes/bookRoutes.ts:27-28 | every non-empty digit run matches, with or without a trailing slash |
| Routing.DigitParamOfRoot | routes/bookRoutes.ts:27-28 | the root path matches no id route |
| Routing.Guarded | routes/adminRoutes.ts:29-33 | `router.<verb>(path, authentication.verifyJWT, handler)`: the middleware's outcome, followed by the handler's only when the middleware calls `next` |
| Routing.GuardedOpening | routes/adminRoutes.ts:29-33 | behind `verifyJWT`: no token is a 400 with no call; a failing token stops after the verification call with `status \|\| 401`; a verified token runs the handler after that call |
| Routing.GuardedNoWrites | routes/adminRoutes.ts:29-33 | the middleware adds no write to the handler's calls |
| Routing.FirstMatch | routes/adminRoutes.ts:39-41 | the first table entry whose key is among the query keys, with no earlier entry matching |
| Routing.Find | routes/adminRoutes.ts:39-41 | `handlers.find` finds nothing if and only if no entry's key is among the query keys |
| Routing.FindDependsOnlyOnKeys | routes/adminRoutes.ts:38-41 | the choice depends only on the set of query keys: not on their sorted order, not on their values |
| AdminRoutes.SelectedByPriority | routes/adminRoutes.ts:6-44 | GET runs `getByCPF` if and only if `cpf` is a key; `getById` if and only if `id` is and `cpf` is not; then `name`, then `userId`; `getAll` if and only if none is |
| AdminRoutes.SelectedByKeysOnly | routes/adminRoutes.ts:38-41 | two queries with the same keys pick the same handler |
| AdminRoutes.RouteTable | routes/adminRoutes.ts:29-56 | exactly POST, GET, PUT and DELETE on `/` are routed, to `create`, a lookup, `update` and `delete` |
| AdminRoutes.ServeOpening | routes/adminRoutes.ts:29-56 | every admin route runs `verifyJWT` first and reaches its handler only after a successful verification |
| AdminRoutes.GetOnlyReads | routes/adminRoutes.ts:34-46 | the GET route never writes, whichever handler it picks |
| AdminRoutes.LookupsOnlyRead | routes/adminRoutes.ts:6-27 | every handler of the GET table, and `getAll`, writes nothing |
| AdminRoutes.RunWithoutHeader | routes/adminRoutes.ts:29-56 | every handler the admin router reaches answers 400 with no call when the header is missing |
| AdminRoutes.CookieOnlyClientIsRefused | routes/adminRoutes.ts:29-56 | a client with only the signed cookie passes `verifyJWT` and then gets a 400 from every admin route |
| AdminRoutes.EmptyKeyIsNotIgnored | routes/adminRoutes.ts:38-43 | `?id=` with an empty value still picks `getById`, which answers 400, instead of listing |
| AdminRoutes.Selected | routes/adminRoutes.ts:34-46 | the GET route's choice: the handler of the first table entry whose key is in the query, `getAll` otherwise |
| AdminRoutes.Route | routes/adminRoutes.ts:29-56 | the route a method and path take: POST, GET, PUT and DELETE on `/`, nothing otherwise |
| AdminRoutes.Run | routes/adminRoutes.ts:6-56 | the admin controller handler each route reaches |
| AdminRoutes.Serve | routes/adminRoutes.ts:29-56 | the router: the route's handler behind `verifyJWT`, or nothing when no route matches |
| BookRoutes.SelectedById | routes/bookRoutes.ts:6-24 | GET runs `getById` if and only if `id` is a query key, even an empty one |
| BookRoutes.RouteTable | routes/bookRoutes.ts:14-36 | GET on `/`, PUT and DELETE on digit ids, nothing else; in particular no POST |
| BookRoutes.ServeOpening | routes/bookRoutes.ts:14-36 | every book route runs `verifyJWT` first and reaches its handler only after a successful verification |
| BookRoutes.RunsTheRoute | routes/bookRoutes.ts:14-36 | a request that matches a route is served by that route's handler behind `verifyJWT` |
| BookRoutes.GetOnlyReads | routes/bookRoutes.ts:14-26 | the GET route never writes |
| BookRoutes.PathIdIsIgnored | routes/bookRoutes.ts:27-36 | two PUT or DELETE paths that differ only in their digits have the same outcome, and without `?id=` a verified request is a 400 |
| BookRoutes.WithPathId | routes/bookRoutes.ts:27-36 | the path's id becomes the request's `id` query; the body, the header, the cookie and every other query key and value are unchanged |
| BookRoutes.PathIdRequest | routes/bookRoutes.ts:27-31 | for the path `/<digits>`, the request handed on has those digits as its `id`, whose key is their value |
| BookRoutes.PathIdSelectsTheBookToUpdate | routes/bookRoutes.ts:27-31 | with the path id handed on, an admin's `PUT /<digits>` updates the book whose key is the value of the digits |
| BookRoutes.PathIdSelectsTheBookToDelete | routes/bookRoutes.ts:32-36 | with the path id handed on, an admin's `DELETE /<digits>` deletes the book with those digits as its id |
| BookRoutes.Selected | routes/bookRoutes.ts:14-25 | the GET route's choice: `getById` when `id` is a query key, `getAll` otherwise |
| BookRoutes.Route | routes/bookRoutes.ts:14-36 | GET on `/`, PUT and DELETE on `/:id(\d+)`, nothing otherwise |
| BookRoutes.Run | routes/bookRoutes.ts:6-36 | the book controller handler each route reaches |
| BookRoutes.Serve | routes/bookRoutes.ts:14-36 | the router as written: the route's handler behind `verifyJWT`, with the request as it came |
| BookRoutes.ServeWithPathId | routes/bookRoutes.ts:27-36 | the router with the path's `id` handed to the handlers as the `id` query, as the route path means it |
| LibraryRoutes.SelectedById | routes/libraryRoutes.ts:6-24 | GET runs `getById` if and only if `id` is a query key, even an empty one |
| LibraryRoutes.RouteTable | routes/libraryRoutes.ts:14-32 | only GET and POST on `/` are routed; POST reaches `create`, GET never does |
| LibraryRoutes.ServeOpening | routes/libraryRoutes.ts:14-32 | every library route runs `verifyJWT` first and reaches its handler only after a successful verification |
| LibraryRoutes.GetOnlyReads | routes/libraryRoutes.ts:14-26 | the GET route never writes |
| LibraryRoutes.Selected | routes/libraryRoutes.ts:14-25 | the GET route's choice: `getById` when `id` is a query key, `getAll` otherwise |
| LibraryRoutes.Route | routes/libraryRoutes.ts:14-32 | GET and POST on `/`, nothing otherwise |
| LibraryRoutes.Run | routes/libraryRoutes.ts:6-32 | the library controller handler each route reaches |
| LibraryRoutes.Serve | routes/libraryRoutes.ts:14-32 | the router: the route's handler behind `verifyJWT`, or nothing when no route matches |

## Left out

- `encryptAES` and `decryptAES` (authentication.ts:47-74) are not modelled. They are cryptography over random IVs, and no handler calls them. Decryption derives its key differently from encryption, so they are not a round trip either.
- `jwt.verify`, `jwt.sign`, bcrypt and the database services are uninterpreted collaborators. Token expiry, signatures, hashing strength and Prisma's queries and field masks are outside the model. The services, `server.ts` and `routes.ts` are not part of this model.
- Logging (`console.error`) is not modelled: it changes no response.
- Concurrency between requests and the async interleaving inside a handler are not modelled. Each handler runs as one sequence of awaited calls.
- Numbers are integers or `NaN`. Floating point, `-0`, values beyond 2^53 and exponent notation are not modelled, so `parseInt` never meets a fraction or an exponent.
- A query value is a single string. Repeated keys, which Express turns into arrays, and nested query objects are not modelled.
- BookController.Spread: `{ ...body }` copies an object's own fields. For a string or array body the model gives the empty object instead of the index-keyed copy.
- Js.StatusOr: a thrown value that is not an `Error` (a string, `undefined`) is not modelled. Every thrown value has a status and a message.
- UserController.Create: `userData.password = hash` mutates the request body in place. The model builds the changed value instead, so aliasing of `req.body` with the inserted object is not captured.
- The book and library routers are modelled as registered, although, as written, neither is reachable. `routes/bookRoutes.ts` ends at line 36 without `export default router`, and `routes/libraryRoutes.ts` has no export either; only `routes/adminRoutes.ts:58` exports its router. So `routes.ts:13` passes `undefined` to `router.use('/book', ...)`, which Express refuses with an error thrown inside an `async` callback that nothing awaits, and `/book` is never served. `routes.ts` does not mention the library router at all. This comes from reading the code; the model does not capture module exports or mounting.
- The routers do not model HEAD requests answered by GET routes, case-insensitive path matching or URL decoding. Each router is modelled on its own, with paths relative to the router; how `routes.ts` mounts them is not part of this model.
- The Next.js front end (`app/`, `components/`, `services/`) is not part of this model.

## Findings

| source | as written | input that shows it | evidently intended | confidence | as-written member | corrected member |
|---|---|---|---|---|---|---|
| routes/bookRoutes.ts:27-36 with database/controllers/bookController.ts:131 and 166-167 | PUT and DELETE are registered on `/:id(\d+)`, but `update` and `delete` read the id from `req.query.id` and never from `req.params.id` | on the book router as registered (not a reachable URL, see "## Left out"), `PUT /5` with a verified admin token, a body and no query string: answered 400 and book 5 is not updated; `PUT /5?id=7` updates book 7 | the id in the path selects the book to update or delete | medium; not executed | BookRoutes.PathIdIsIgnored | BookRoutes.PathIdSelectsTheBookToUpdate and BookRoutes.PathIdSelectsTheBookToDelete, over BookRoutes.ServeWithPathId |
