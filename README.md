# Book service: in-memory store and authentication gate

A Dafny model of a small Go web service built on Fiber. The service keeps a list of books in
memory and serves create, read, update and delete requests on it. All of these requests sit
behind two checks: a signed-token (JWT) middleware, then a middleware that logs the request and
admits only tokens whose `role` claim is `"admin"`. A token is obtained from `POST /login` with the
one built-in credential.

Modules, leaf to root:

- `Wrappers`: `Option` and `Result`.
- `Strconv`: `strconv.Atoi` as the handlers use it on the `:id` path segment (64-bit `int`), and
  decimal formatting, with the round trip between them.
- `Records`: the `Book` record (`main.go:19-23`).
- `Jwt`: the signed token, as a sealed claims record that verifies only with its signing key.
- `Http`: parsed request bodies, response bodies and responses.
- `Books`: each book handler's effect on the list and its response, as functions of the list
  before the request, with the properties that relate several requests.
- `Store`: the shared list as a class with one method per handler, each proved to agree with its
  `Books` function. Each method that takes an id runs the source's front-to-back scan with an
  early return.
- `Auth`: login against the built-in member, the issued claims, and the role test.
- `Server`: the middleware order as a function `Pipeline`, the `App` class whose `Handle` method
  runs it against the store and the access log, and an end-to-end scenario.

The clock is a parameter: `now` is a Unix time in seconds. Where a handler takes an id, the raw
path segment is the input. Where it decodes a body, the decoding outcome is the input:
`Parsed(value)`, or `Unparsable(message)`, whose message becomes the 400 body.

Points worth knowing about the code:

- A token whose role is not `"admin"` gets 401 (`fiber.ErrUnauthorized`, `main.go:123`).
- Create then get returns the created book only when no earlier book has that id. Creating never
  checks ids, so an earlier duplicate shadows the new book. `Books.CreateThenGet` and
  `Books.CreateDuplicateShadowed` prove the two cases.
- All token errors are answered by the token middleware's default handler, which answers only
  400 (missing or malformed bearer) or 401 (bad signature, expired, not a token). See
  `Server.TokenGate`.

## Model

| member | source | states |
|---|---|---|
| `Strconv.Atoi` | book.go:15-18 | Parsing succeeds exactly for an optional sign followed by one or more digits whose value fits in 64 bits. The result is that value. |
| `Strconv.AtoiItoa` | book.go:15 | Every 64-bit integer, written in decimal, parses back to itself, so every stored id can be addressed by a path segment. |
| `Strconv.AtoiDecimal` | book.go:15 | A plain digit string parses exactly when its value is at most 2^63-1. |
| `Strconv.AtoiExamples` | book.go:15-18 | The empty segment, `abc`, a lone `-` and `1x` are rejected. `+7`, `-12` and `007` parse to 7, -12 and 7. |
| `Jwt.VerifySigned` | main.go:160 | A signed token verifies with its signing key and yields its claims unchanged. |
| `Jwt.VerifyOtherKey` | main.go:59-61 | A token signed with any other key does not verify. |
| `Books.FirstIndex` | book.go:21-25 | The scan stops at the first book with the id. It finds nothing exactly when no book has the id. |
| `Books.FirstMatchUnique` | book.go:21-24 | A first match is unique. |
| `Books.Deleted` | book.go:83 | Removing element i closes the gap: the length drops by one, books before i stay in place, and books after i shift left by one in order. |
| `Books.Retitled` | book.go:60-61 | Only title and author of element i change. Its id stays, and the length and all other elements are unchanged. |
| `Books.ListResult` | book.go:9-11 | Listing answers 200 with the whole list in its current order and leaves the list unchanged. |
| `Books.GetResult` | book.go:13-28 | Lookup never changes the list. An unparsable id gives 400. A parsed id gives 200 with the first book with that id exactly when one exists, and 404 otherwise. |
| `Books.CreateResult` | book.go:30-42 | An unparsable body gives 400 and no change. Otherwise the book is appended verbatim: the length grows by one, earlier books are unchanged, and the answer is 200 with the book. |
| `Books.UpdateResult` | book.go:44-69 | The id is checked first (400), then the body (400), then the lookup (404). Every failure leaves the list unchanged. A hit gives 200 exactly when the id is present: only the first match's title and author change, and the answer is the updated book. |
| `Books.DeleteResult` | book.go:71-93 | An unparsable id gives 400 and an absent id gives 404, both with no change. A hit gives 204 exactly when the id is present, and removes exactly the first match. |
| `Books.GetIdempotent` | book.go:21-27 | Two lookups with no write in between give the same answer and leave the same list. |
| `Books.DeletedMultiset` | book.go:83 | Closing the gap at position i removes exactly one copy of that book from the multiset of books and keeps all others. |
| `Books.CreateThenGet` | book.go:38 | After creating a book whose id is new, looking up that id answers 200 with that book. |
| `Books.CreateDuplicateShadowed` | book.go:38 | After creating a book whose id is already present, looking up that id still answers with the earlier book. |
| `Books.CreateUniqueIds` | book.go:38 | On a list with unique ids, create keeps ids unique exactly when the new id is absent. |
| `Books.UpdateUniqueIds` | book.go:58-64 | Update never changes an id, so it preserves unique ids. |
| `Books.DeleteUniqueIds` | book.go:79-88 | Delete preserves unique ids. |
| `Books.DeleteThenGetNotFound` | book.go:79-92 | With unique ids, once a delete answers 204, looking the same id up again gives 404. |
| `Books.DeleteExample` | book.go:83-85 | Deleting id 2 from books 1, 2, 3 leaves 1, 3 and answers 204. |
| `Books.UpdateExample` | book.go:58-64 | Updating id 1 with title X, author Y and body id 7 yields book 1 with X and Y. |
| `Books.DuplicateExample` | book.go:58-59 | With two books of id 1, update and delete act only on the first. |
| `Store.BookStore.constructor` | main.go:46-48 | The list starts as exactly 1984 by George Orwell (id 1), then The Great Gatsby by F. Scott Fitzgerald (id 2). |
| `Store.BookStore.GetBooks` | book.go:9-11 | The list handler answers with the current list and changes nothing. |
| `Store.BookStore.GetBook` | book.go:13-28 | The scanning lookup answers exactly as `Books.GetResult` and changes nothing. |
| `Store.BookStore.CreateBook` | book.go:30-42 | The append leaves the list and answer of `Books.CreateResult`. |
| `Store.BookStore.UpdateBook` | book.go:44-69 | The scan with in-place assignment of title, then author, leaves the list and answer of `Books.UpdateResult`. |
| `Store.BookStore.DeleteBook` | book.go:71-93 | The scan with reslicing leaves the list and answer of `Books.DeleteResult`. |
| `Auth.IssuedClaims` | main.go:154-157 | Login's claims have exactly the keys email, role and exp. |
| `Auth.Login` | main.go:140-169 | An unparsable body gives 400 before any comparison. The answer is 200 exactly when both email and password equal the built-in member's, and 401 with no token otherwise. On success the token verifies with the middleware's key, with email set to the submitted one, role "admin" and exp equal to now plus 259200 seconds. |
| `Auth.RoleAdmits` | main.go:122-124 | The role test admits exactly claims whose role is present and is the string "admin". A missing role, another string or a number is refused. |
| `Auth.IssuedClaimsLifetime` | main.go:157 | An issued token is unexpired exactly before issue time plus 72 hours. |
| `Auth.LoginNeedsBothFields` | main.go:146-148 | One wrong field is enough for 401, even when the other is right. |
| `Auth.ReissueExtends` | main.go:157 | A later login issues a token that expires later. |
| `Server.TokenGate` | main.go:59-61 | The token middleware passes a request exactly when it presents a token signed with "JWT_SECRET" whose expiry has not passed, and hands on that token's claims. A missing bearer gives 400 and any other failure gives 401. |
| `Server.Dispatch` | main.go:56 | Each route runs the handler registered for it, login included. Only create, update and delete can change the list. |
| `Server.Admitted` | main.go:59-71 | A request other than the login reaches its handler only with an unexpired token, signed with the middleware's key, whose role is "admin". |
| `Server.Logged` | main.go:111-113 | A request gets exactly one access-log entry when its token verified and it is not the login. Otherwise it gets none. |
| `Server.Pipeline` | main.go:55-71 | Login runs without any token. Any other request that is not admitted leaves the books unchanged and answers 400 or 401. An admitted request runs its handler. |
| `Server.RoleRejectionLogged` | main.go:111-124 | A verified token without the admin role gets 401 with no change, yet the request is logged. |
| `Server.OnlyAdmittedWrites` | main.go:56-71 | Only an admitted create, update or delete can change the books. |
| `Server.IssuedTokenAdmitted` | main.go:56-64 | A token issued by login is admitted on every book route during the 72 hours after its issue, and the request is logged. |
| `Server.IssuedTokenExpires` | main.go:157 | From 72 hours after its issue, the same token gets 401 on every book route, changes nothing and is not logged. |
| `Server.NonAdminRefused` | main.go:122-124 | A correctly signed, unexpired token whose role claim is missing or not "admin" gets 401 on every book route, with no change. |
| `Server.App.constructor` | main.go:36-48 | The service starts with the seeded list and an empty access log. |
| `Server.App.Handle` | main.go:55-71 | Serving a request changes the books and answers as `Server.Pipeline` says, and appends to the access log what `Server.Logged` says. |
| `Server.ScenarioSteps` | main.go:67-71 | With an admin token on the seeded list: GET of id 99 gives 404, DELETE of id 1 gives 204 and leaves only The Great Gatsby, and a second GET of id 1 then gives 404. |
| `Server.LoginListDeleteScenario` | main.go:47-71 | Login, list, get 99, delete 1, get 1 answer 200, 200 (with the two seeded books), 404, 204, 404. |

## Left out

- `uploadFile`, `getEnv` (with `godotenv.Load`), the Swagger route and `app.Listen` are not modelled: they are file, environment and network I/O. `/upload` and `/config` sit behind the same two middlewares. The Swagger route `/swagger/*` is registered before `/login` and before both middlewares (`main.go:39`), so it also needs no token.
- Routing on method and path: a request arrives already routed (`Server.Route`). Requests that match no registered handler are not modelled. One example is `GET /login`, which is not the login route and so passes through the middlewares.
- HS256 signing and verification are library code: a token is a sealed record of claims and signing key.
- Expiry is modelled as the token library's rule (`Jwt.Unexpired`): no `exp` never expires, a numeric `exp` must be later than `now`, any other `exp` is refused. The library's other time claims (`nbf`, `iat`) and its special case of an `exp` of zero are not modelled; login's tokens carry neither.
- `Server.TokenGate`: its statuses and messages (400 "Missing or malformed JWT", 401 "Invalid or expired JWT") are the token middleware library's defaults, which are not part of the shown source.
- The 500 answer when signing fails (`main.go:161-163`) is not modelled: signing these claims with an HMAC byte key does not fail.
- Response bodies that Fiber fills in itself (the status text after `SendStatus`, the text of `fiber.ErrUnauthorized`) are modelled as `Empty`. The text of `strconv.Atoi`'s error is abstracted as `AtoiFailure(input)`, so the model does not say whether it reports a syntax or a range error.
- JSON decoding of request bodies is an input (`Http.Parsed`). JSON encoding of responses is represented by the typed body.
- The access-log line's formatting (`fmt.Printf`) is not modelled. The entry keeps URL, method and time. A request's login clock and logging clock are the same `now`.
- `Auth.IssuedClaims`: `exp` is an unbounded integer, so the int64 overflow of `Unix()` is ignored. `now` is whole seconds, as `Unix()` truncates.
- The runtime type assertions in `checkMiddleware` (`main.go:116-119`) are not modelled. They cannot fail because the token middleware always runs first and stores a map-claims token.
- Concurrent requests on the unlocked global list are not modelled: one request is served at a time.
