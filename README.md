# adl-gateway admission and query shaping, modelled in Dafny

The gateway is an Express application. It issues a JSON Web Token at
`POST /login`. It checks a `Bearer` token on every other request before
proxying it to the web backend. The repository also has two Express
router modules, `/boe-auctions` and `/pharma-medicines`. Each turns
query-string filters into a parameterised PostgreSQL query. `server.js`
does not import or mount either router. In the server as written, a request
to those paths is authenticated and proxied like any other. This project
models three parts of the repository:

- **Pagination and query building** (`pagination.dfy`, `sql.dfy`,
  `boe_auctions.dfy`, `pharma_medicines.dfy`). It covers the `limit` and
  `offset` sanitisers, the `conditions`/`params` arrays each handler grows
  with `push`, the `WHERE` text, the `LIMIT $n-1 OFFSET $n` placeholders,
  and the JSON response. The sanitisers are identical in both route files
  (`boe-auctions.js:22-32` and `pharma-medicines.js:22-32`), so one model
  serves both. Each handler is a method that appends to its two sequences
  one step at a time, as the source does. Each method is proved equal to a
  specification function, and lemmas state the positional agreement
  between the SQL text and `params`.
- **Admission decisions** (`auth.dfy`). These are the startup guard on
  `JWT_SECRET`, the hard-coded login and the claims it signs, `Bearer`
  header parsing, and the verify-or-401 decision of `authMiddleware`.
- **Dispatch** (`router.dfy`). An `App` class holds the layer stack that
  `app.post`, `app.use` and `app.get` append to. A `Request` class holds
  the `user` field that the auth middleware sets. `App.Dispatch` walks the
  stack first-match, in a loop proved against the function `Handle`.
  Lemmas about the stack that `server.js` registers show the following.
  Login is public. Every other request is gated by the middleware. A
  request is forwarded only with a verified payload. The `/health` layer
  can never run.

Token signing and verification belong to the `jsonwebtoken` library. They
are function parameters: `Signer` stands for `jwt.sign(payload, secret,
{expiresIn})` and returns `None` where the library throws. `Verifier` stands
for `jwt.verify(token, secret)` at the moment of the request and returns
`None` where verification fails. The database is a parameter too: `run:
Statement -> QueryOutcome<Row>`. Environment variables arrive as
`Option<string>`. What the library and the database return is left open,
and every outcome the gateway distinguishes is modelled.

`server.js` signs only `{sub, role: "admin"}` at login: the token carries no
`plan` claim. The gateway has no credential table beyond the hard-coded
`admin`/`admin` check. It has no `/healthz` or `/readyz` route, no role or
plan guard and no 403 answer. It registers `/health` after the catch-all
proxy, where it is unreachable (`Router.HealthLayerIsDead`).

## Model

| member | source | states |
|---|---|---|
| Pagination.SanitizeLimit | src/routes/api/v1/boe-auctions.js:22-26 | The result is always an integer in [1, 200]. Non-finite or non-positive input gives 50. A value in (0, 1) gives 1. A value in [1, 201) gives its integer part. A value of 200 or more gives 200. |
| Pagination.SanitizeOffset | src/routes/api/v1/boe-auctions.js:28-32 | The result is always at least 0. Non-finite or negative input gives 0. Otherwise the result is the integer part of the input. |
| Pagination.LimitIsDefaultIff | src/routes/api/v1/boe-auctions.js:24-25 | The limit is 50 exactly when the input is non-finite, at most 0, or in [50, 51). A fractional input below 1 never gives the default. |
| Pagination.OffsetIsZeroIff | src/routes/api/v1/boe-auctions.js:30-31 | The offset is 0 exactly when the input is non-finite or below 1. |
| Pagination.LimitIdempotent | src/routes/api/v1/boe-auctions.js:22-26 | Sanitising a sanitised limit again leaves it unchanged. |
| Pagination.OffsetIdempotent | src/routes/api/v1/boe-auctions.js:28-32 | Sanitising a sanitised offset again leaves it unchanged. |
| Pagination.OutOfRangeQueryIsClamped | src/routes/api/v1/boe-auctions.js:22-32 | `limit=9999` gives 200. `offset=-5` gives 0. `limit=0.5` gives 1. A non-numeric limit gives 50. |
| Text.Trim | src/routes/api/v1/boe-auctions.js:37-38 | `.trim()` is a contiguous slice of the input, with only ECMAScript white space before and after it. It neither starts nor ends with white space, and it is empty exactly when the input is all white space. |
| Text.TrimIdempotent | src/routes/api/v1/pharma-medicines.js:37 | Trimming trimmed text changes nothing. |
| Text.DecimalRoundTrip | src/routes/api/v1/boe-auctions.js:45 | The decimal text written after `$` reads back as the same number. |
| Text.DecimalInjective | src/routes/api/v1/boe-auctions.js:50 | Different positions give different placeholder texts. |
| Sql.PlaceholderNamesPosition | src/routes/api/v1/boe-auctions.js:45 | The digits of `$k` parse back to `k`. |
| Sql.WhereClause | src/routes/api/v1/boe-auctions.js:55 | The clause is empty exactly when there are no conditions. Otherwise it starts with `WHERE `. |
| Sql.WhereOfOne | src/routes/api/v1/pharma-medicines.js:49 | With one condition, the clause is `WHERE ` followed by that condition. |
| Sql.WhereOfTwo | src/routes/api/v1/boe-auctions.js:55 | With two conditions, the clause is `WHERE a AND b`, in push order. |
| Sql.NumberedConditions | src/routes/api/v1/boe-auctions.js:43-51 | There is one condition per applied filter. |
| Sql.PushKeepsNumbering | src/routes/api/v1/boe-auctions.js:43-51 | Push the value, then push a condition numbered by the new length of `params`. This step keeps every `$k` naming its own filter's value. |
| Sql.PushPageKeepsOrder | src/routes/api/v1/boe-auctions.js:53-54 | Pushing limit and then offset after the filter values puts them last, in that order. |
| Sql.PlaceholdersPointToValues | src/routes/api/v1/boe-auctions.js:40-54 | `params` has one entry per filter plus two. Condition i names `$(i+1)`, and `params[i]` holds filter i's value. `LIMIT $(n-1)` and `OFFSET $n` name the entries that hold limit and offset. |
| Sql.NoFilterNoWhere | src/routes/api/v1/boe-auctions.js:55 | The statement has no `WHERE` exactly when no filter applies. |
| Sql.Shape | src/routes/api/v1/boe-auctions.js:80-91 | Status is 200 exactly when the query returned rows. The data is those rows, the pagination echoes the sanitised limit and offset, and the count is the number of rows. A failed query gives 500 `{error: "internal_error"}` and no data. |
| BoeAuctions.BoeFilters | src/routes/api/v1/boe-auctions.js:43-51 | There is one filter per non-empty input. Auction status comes first and province last. |
| BoeAuctions.HandleBoeAuctions | src/routes/api/v1/boe-auctions.js:34-91 | The statement the handler builds with `push` equals the specification statement for the trimmed filters and the sanitised page. The response is `Shape` of the query's outcome. |
| BoeAuctions.StatementShape | src/routes/api/v1/boe-auctions.js:37-55 | An absent filter reads as empty text. There is no `WHERE` exactly when both filters trim to empty. `params` has one entry per non-empty filter, plus limit and offset. |
| BoeAuctions.BothFiltersWhere | src/routes/api/v1/boe-auctions.js:43-55 | With both filters the clause is `WHERE auction_status = $1 AND province = $2`. |
| BoeAuctions.ProvinceOnlyWhere | src/routes/api/v1/boe-auctions.js:48-55 | With only a province, the province becomes `$1`, and `params` is `[province, limit, offset]`. |
| PharmaMedicines.LikePattern | src/routes/api/v1/pharma-medicines.js:43 | The pattern is the search text, unescaped, between two `%`. |
| PharmaMedicines.SearchFilters | src/routes/api/v1/pharma-medicines.js:42-45 | There is no filter exactly when the search is empty. Otherwise there is one `nombre ILIKE` filter on the pattern. |
| PharmaMedicines.HandlePharmaMedicines | src/routes/api/v1/pharma-medicines.js:34-81 | The statement built with `push` equals the specification statement for the trimmed search and the sanitised page. The response is `Shape` of the query's outcome. |
| PharmaMedicines.BlankSearchIsUnfiltered | src/routes/api/v1/pharma-medicines.js:37-49 | A blank search gives no `WHERE`, `params == [limit, offset]`, and placeholders `$1`/`$2`. |
| PharmaMedicines.SearchBindsFirstParam | src/routes/api/v1/pharma-medicines.js:42-48 | A non-blank search gives `WHERE nombre ILIKE $1`, with `params == ["%"+search+"%", limit, offset]`, and `LIMIT $2 OFFSET $3`. |
| Auth.LoadConfig | server.js:8-13 | Startup fails with "JWT_SECRET is not defined" exactly when the secret is unset or empty. An unset or empty `JWT_EXPIRES_IN` gives the lifetime `1d`; any other value is kept. |
| Auth.Login | server.js:18-33 | Status 200 only when username and password are both the string `admin`; any other body gets 401 "Invalid credentials". For `admin`/`admin` the token is the signature of exactly `{sub: "admin", role: "admin"}` (no plan claim) under the configured secret and lifetime; if signing throws, the answer is the framework's 500. |
| Auth.BearerToken | server.js:37-42 | A token exists exactly when the header starts with the case-sensitive `Bearer `. The header is then `Bearer ` followed by the token. |
| Auth.BearerRoundTrip | server.js:42 | `header.slice(7)` applied to `Bearer ` + t gives back t. |
| Auth.BearerSchemeIsExact | server.js:38-40 | A lower-case `bearer `, a bare `Bearer` and a missing header all give no token. |
| Auth.Authenticate | server.js:36-51 | No token gives 401 "Missing or invalid Authorization header". A token the verifier rejects gives 401 "Invalid or expired token". Admission happens exactly when the verifier accepts, with exactly the verified payload. |
| Router.RunAuthMiddleware | server.js:36-51 | On admission, `req.user` is set to the payload and `next` is called. On denial, `req.user` is untouched and the 401 ends the request. |
| Router.App.Post | server.js:18 | `app.post` appends one POST layer for the path. |
| Router.App.UseEverywhere | server.js:54-61 | `app.use("/", auth, proxy)` appends one catch-all layer per handler, in order. |
| Router.App.Get | server.js:64 | `app.get` appends one GET layer for the path. |
| Router.App.Dispatch | server.js:18-66 | The loop's outcome and the final `req.user` equal first-match dispatch (`Handle`) over the registered stack. |
| Router.Boot | server.js:8-66 | A missing secret fails before any layer exists. Otherwise the stack is exactly login, auth, proxy, health, in that order. |
| Router.LoginIsPublic | server.js:18-33 | `POST /login` is answered by the credential check, with no token required. |
| Router.EveryOtherRequestIsGated | server.js:54-61 | Any other request gets the middleware's 401, or is forwarded to `http://adl-web:3000` with `req.user` set to the verified payload. |
| Router.ForwardOnlyVerified | server.js:44-50 | A forwarded request carried a `Bearer` token that the verifier accepted, and `req.user` is its payload. |
| Router.HealthLayerIsDead | server.js:54-66 | Dispatch is the same with or without the `/health` layer, and no request falls through to 404. |
| Router.HealthNeedsToken | server.js:64-66 | `GET /health` without a header gets 401 "Missing or invalid Authorization header". |

## Left out

- `buildPool` and `pool.query` (database connection, environment lookups and SQL execution) are not modelled. The query is the parameter `run`, which returns rows or a failure.
- The fixed SQL text (column list, `FROM`, `ORDER BY`) is not modelled. `Statement` keeps only the table and the dynamic parts: `WHERE`, the two placeholder numbers and `params`.
- Parsing with JavaScript's `Number(...)` is not modelled. The sanitisers receive `NonFinite` or `Finite(real)`. Floating-point rounding and negative zero are not modelled.
- `.toString()` on a repeated query parameter (an array) is not modelled. Filters arrive as text or absent.
- The `jsonwebtoken` library (signature, `expiresIn` parsing, clock-based expiry) is not modelled. It is the parameters `Signer` and `Verifier`, and no sign-then-verify round trip is claimed.
- The login handler assumes `req.body` is a parsed, possibly empty, object. The body parser sets `{}` for a request with no JSON body. A framework version that leaves `req.body` undefined would make the destructuring at `server.js:19` throw and answer 500; that case is not modelled.
- `express.json()` is not modelled, including its 400 answer to a malformed body. A login field that is absent or not a string is `None`.
- `createProxyMiddleware` is not modelled: byte forwarding, `changeOrigin`, and its own answer when the backend is unreachable. Dispatch ends at `Forward(target)`.
- Express routing is modelled only as far as ASCII case-insensitive paths, one optional trailing slash, and `GET` routes also answering `HEAD`. URL decoding and router options are not modelled.
- `app.listen`, `PORT` and console logging are not modelled; they are I/O.
- Express's default error page for a throwing handler is modelled only as its status 500 and an opaque `ErrorPage` body.
