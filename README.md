# posyanduku: a verified model of the session, gateway and request checks

posyanduku is the register of a posyandu, a community health post. It has a
Go/Gin API over PostgreSQL and a Next.js client. Kader (volunteers) log in,
then record mothers (ibu), children (anak), growth measurements
(perkembangan), vaccines (master imunisasi) and the vaccines given
(riwayat imunisasi), and pull date-ranged reports (laporan).

This project models the parts of the system that hold real decisions and
proves properties of them:

- **Session store** (`authcontext.dfy`). `AuthProvider` is a class with
  the four React state fields. Its storage is a `Storage` class over a
  `map<string, string>` whose operations may throw. The model has the
  mount-time rehydration, `login`, `logout` and `isLoggedIn`, and a concrete
  `parseInt(s, 10)`.
- **Entry gate** (`homepage.dfy`). The home page's redirect decision and
  the effect that performs it through `router.replace`.
- **Authenticated gateway** (`fetchgateway.dfy`). `fetchWithAuth` is a
  method over the provider and a `Router`. A ghost log records the fetch,
  logout and navigation events. A pure `Gateway` function specifies the method.
- **Login form** (`loginform.dfy`). `handleSubmit` as a method over the
  form state, plus the completeness check of the reply. A lemma connects
  the server's login route to what the client then does.
- **Bearer check and tokens** (`auth.dfy`, `jwt.dfy`). `AuthMiddleware`
  follows the bearer scheme of section 2.1 of RFC 6750. The model has the
  parse-error messages, the login route's outcomes and the claim set of
  `GenerateJWT`. The claims follow section 4.1 of RFC 7519 and are signed
  with HS256 (section 3.2 of RFC 7518). The JWT library is seen through what
  it decodes from a token.
- **Handlers** (`kader.dfy`, `ibu.dfy`, `anak.dfy`, `perkembangan.dfy`,
  `imunisasi.dfy`, `laporan.dfy`). Each handler is a function from its
  inputs to the reply it writes and the statements it sends:
  - the request inputs: the path id, the bound body, the caller's kader id
  - the outcome of the database call
  - the validation order, the NIK, password and age rules, and the
    `YYYY-MM-DD` date parsing
  - how a `(SQLSTATE, constraint)` pair becomes an HTTP status
- **Query builders** (`sql.dfy`, `listfilter.dfy`, `laporan.dfy`). The list
  and report builders append conditions and arguments while counting
  `argCounter`. The builders are methods with the same steps. The proofs
  show that placeholder `$k` of the query text always names `args[k-1]`,
  and that every argument is named.
- **Shared vocabulary:**
  - `text.dfy`: digits, Go's `strings.Split`, UTF-8 byte length
  - `dates.dfy`: Go's `time.Parse("2006-01-02")`, `AddDate(0,0,1)` and
    `IsZero`
  - `http.dfy`: replies, statements, pgx errors, `strconv.Atoi`
  - `rows.dfy`: the row loop of every list handler
  - `byid.dfy`: the get-by-id and plain delete handlers, which the
    resources share apart from table and messages

Several routes are written twice: once in `api/handlers/` and once inline in
`api/main.go`. Where the two copies of a modelled route differ, a `Variant`
parameter (`Handlers` or `MainRoute`) selects the copy, and the member's
contract or a lemma beside it states the difference:
- main.go classifies 23505/23503 by SQLSTATE alone.
- main.go checks the password and NIK at registration.
- main.go's get-by-id routes for ibu, anak and master-imunisasi answer 404
  for every database error, not only for "no rows".
- main.go's anak list searches three columns, without the mother's NIK.
- main.go's master-imunisasi list never hands over to the simple list.
- main.go's perkembangan report lacks `nik_ibu`.
- main.go adds a day to an end date that failed to parse.

Points where the client code behaves differently from what one might
expect:
- `Content-Type: application/json` is appended even when the caller set one,
  not defaulted.
- login takes an empty token or name without complaint, and the three
  storage writes are not atomic: a failing write leaves the earlier ones in
  place.
- Rehydration wipes storage only when a read throws. Partial or odd stored
  data is not wiped. A logged-in session may have no name, or a NaN id.
- `isLoggedIn` needs a non-empty token, not merely a present one.
- The catch of `fetchWithAuth` passes on unchanged any Error whose message
  contains "valid". This includes transport errors such as "Invalid URL",
  which therefore do not become the connection error.

## Model

| member | source | states |
|---|---|---|
| AuthContext.ParseInt | frontend/src/context/AuthContext.tsx:31 | parseInt(s, 10) is NaN exactly when no digit follows the leading white space and sign |
| AuthContext.ParseIntDecomposed | frontend/src/context/AuthContext.tsx:31 | for white space, an optional sign, a non-empty digit run and a rest that does not start with a digit, parseInt gives the digits' decimal value, negated after "-" |
| AuthContext.TrimStart | frontend/src/context/AuthContext.tsx:31 | the white space parseInt skips: the result is a suffix of the input, everything dropped before it is white space, and it does not start with white space |
| AuthContext.DigitPrefix | frontend/src/context/AuthContext.tsx:31 | the digits parseInt reads: a prefix made only of digits and as long as possible |
| AuthContext.ParseIntOfToString | frontend/src/context/AuthContext.tsx:51 | the id written as id.toString() is read back by parseInt as the same integer, negative ids included |
| AuthContext.IsLoggedIn | frontend/src/context/AuthContext.tsx:73 | isLoggedIn (!!authToken) holds exactly when a token is held and it is not the empty string |
| AuthContext.ParseIntNaN | frontend/src/context/AuthContext.tsx:31 | parseInt of "" and of "abc" is NaN; "12abc" gives 12 |
| AuthContext.Storage.GetItem | frontend/src/context/AuthContext.tsx:26-28 | getItem either throws (when that operation fails) or returns the stored value, null for a missing key, without changing storage |
| AuthContext.Storage.SetItem | frontend/src/context/AuthContext.tsx:51-53 | setItem either throws and changes nothing, or sets exactly that key |
| AuthContext.Storage.RemoveItem | frontend/src/context/AuthContext.tsx:38-40 | removeItem either throws and changes nothing, or removes exactly that key |
| AuthContext.Written | frontend/src/context/AuthContext.tsx:49-55 | the writes inside one try never drop a stored key, and a key that none of the pairs names keeps its stored value |
| AuthContext.Removed | frontend/src/context/AuthContext.tsx:63-69 | removals inside one try stop at the first one that throws: keys only disappear, and every value that remains is the stored one |
| AuthContext.RemovedIdempotent | frontend/src/context/AuthContext.tsx:63-69 | running the same removals again on their result changes nothing |
| AuthContext.RemovedAll | frontend/src/context/AuthContext.tsx:63-69 | when no removal throws, exactly the removed keys are gone and every other item is kept |
| AuthContext.Rehydrated | frontend/src/context/AuthContext.tsx:24-44 | after the mount effect loading is over on every path. When all reads succeed and both token and id are non-empty, the session is logged in with kaderId = parseInt(stored id), the stored token and the stored name (absent when not stored). Otherwise only loading changes |
| AuthContext.LoggedInWithoutNameOrNumber | frontend/src/context/AuthContext.tsx:29-33 | a stored token with an id that parseInt reads as NaN and no stored name rehydrates to a logged-in session with a NaN id and no name |
| AuthContext.RehydratedItems | frontend/src/context/AuthContext.tsx:34-40 | storage is unchanged when the reads succeed; otherwise keys can only disappear, and what remains keeps its stored value |
| AuthContext.AfterLogin | frontend/src/context/AuthContext.tsx:46-49 | login leaves the loading flag alone and logs in exactly when the token is non-empty |
| AuthContext.AfterLogout | frontend/src/context/AuthContext.tsx:59-62 | logout leaves the loading flag alone and is never logged in afterwards |
| AuthContext.ReadFailureWipes | frontend/src/context/AuthContext.tsx:35-40 | when a read throws and the removals work, the three keys are gone and the state stays empty with loading over |
| AuthContext.LoginRehydrateRoundTrip | frontend/src/context/AuthContext.tsx:26-34 | after a login whose writes succeed, rehydration from that storage yields the same id, token and name, given a non-empty token and working reads |
| AuthContext.LogoutIdempotent | frontend/src/context/AuthContext.tsx:59-70 | logging out twice leaves the same state and storage as logging out once |
| AuthContext.AuthProvider.constructor | frontend/src/context/AuthContext.tsx:18-21 | the initial state: three null fields and loading true |
| AuthContext.AuthProvider.Rehydrate | frontend/src/context/AuthContext.tsx:24-44 | the new state and storage are those of Rehydrated and RehydratedItems; an error escapes only when a read and then a removal throw |
| AuthContext.AuthProvider.Login | frontend/src/context/AuthContext.tsx:46-57 | the state becomes AfterLogin whatever storage does, and storage gets the three writes in order, up to the first that throws |
| AuthContext.AuthProvider.Logout | frontend/src/context/AuthContext.tsx:59-70 | the state becomes AfterLogout and the three keys are removed in order, up to the first removal that throws |
| HomePage.RedirectTarget | frontend/src/app/page.tsx:12-23 | no redirect while loading; after loading, /dashboard exactly when logged in and /login exactly when not |
| HomePage.RedirectAfterMount | frontend/src/app/page.tsx:14-21 | before rehydration nothing happens; after it the page goes to /dashboard exactly when a non-empty token and id were read back |
| HomePage.ReturningKader | frontend/src/app/page.tsx:15-17 | a kader who logged in with a non-empty token, with working storage, is sent back to the dashboard after a reload |
| HomePage.RedirectEffect | frontend/src/app/page.tsx:12-23 | the effect leaves the history alone while loading, otherwise replaces the current entry with the chosen target |
| FetchGateway.Router.Push | frontend/src/lib/utils.ts:19 | router.push appends the path to the history |
| FetchGateway.Router.Replace | frontend/src/app/page.tsx:17 | router.replace swaps the current entry for the path |
| FetchGateway.OutgoingHeaders | frontend/src/lib/utils.ts:23-28 | the caller's headers are kept as a prefix; Content-Type: application/json is appended unless the body is FormData; Authorization: Bearer token comes last |
| FetchGateway.HeadersAppended | frontend/src/lib/utils.ts:25-28 | exactly one Authorization entry is added, and exactly one Content-Type entry for non-FormData (even when the caller set one), none for FormData |
| FetchGateway.Caught | frontend/src/lib/utils.ts:41-48 | a caught Error whose message contains "valid" is rethrown unchanged; anything else becomes "Gagal terhubung ke server." |
| FetchGateway.NotLoggedInLacksValid | frontend/src/lib/utils.ts:20 | the no-token message does not contain "valid" |
| FetchGateway.SessionInvalidHasValid | frontend/src/lib/utils.ts:37 | the session-invalid message contains "valid", so the catch passes it on |
| FetchGateway.Gateway | frontend/src/lib/utils.ts:16-50 | a request is sent first, to the given url, exactly when the token is truthy; logout is called exactly for a 401; a status is returned exactly for a response other than 401, and it is that response's status |
| FetchGateway.NoTokenNoRequest | frontend/src/lib/utils.ts:17-21 | without a truthy token no fetch is made, /login is pushed once and the call fails with "Anda belum login."; that error, raised before the try, escapes the catch that would have replaced it |
| FetchGateway.UnauthorizedEndsSession | frontend/src/lib/utils.ts:33-38 | a 401 gives exactly fetch, one logout and one push of /login, in that order, and fails with the session-invalid message |
| FetchGateway.OtherResponsesPassThrough | frontend/src/lib/utils.ts:31-40 | any other status is returned as is after one fetch that forwards url, method, body and other options, with only the headers replaced |
| FetchGateway.RejectionsMasked | frontend/src/lib/utils.ts:41-48 | a rejected fetch ends in either the original error or the connection error; a non-Error gives the connection error, while "Invalid URL" is rethrown |
| FetchGateway.FetchWithAuth | frontend/src/lib/utils.ts:16-50 | the result and the event log are those of Gateway; the history grows by the pushed paths; the session is logged out and its keys removed exactly when a logout event occurs, otherwise unchanged |
| LoginForm.Message | frontend/src/components/forms/LoginForm.tsx:42-47 | a thrown Error shows its own message; a thrown non-Error shows "Tidak dapat terhubung ke server." |
| LoginForm.SubmitOutcome | frontend/src/components/forms/LoginForm.tsx:29-47 | login is called only for an ok, parsed, complete reply, and then with a non-zero id and a non-empty token and name |
| LoginForm.SignInCases | frontend/src/components/forms/LoginForm.tsx:29-47 | sign-in happens exactly for an ok, parsed, complete reply, with the reply's id, token and name; a non-ok reply shows data.error or "Login gagal"; a network failure shows the Error's own message, or the connection message for a non-Error; a body that fails to parse shows the message of what response.json() threw |
| LoginForm.ClientView | frontend/src/components/forms/LoginForm.tsx:29-30 | the client reads response.ok as a 2xx status and parses the API's JSON body |
| LoginForm.ServerLoginReachesClient | api/handlers/auth.go:35-60 | a login the API accepts signs the client in with the kader's id, token and name exactly when the id is non-zero and name and token are non-empty; otherwise it shows the incomplete-reply message; refused credentials show the API's message |
| LoginForm.Form.HandleSubmit | frontend/src/components/forms/LoginForm.tsx:18-51 | the request is a POST of the JSON credentials to /api/login; error is cleared and loading goes true then false; on sign-in login and the push to /dashboard follow; on failure only the message is set |
| Jwt.SecretKey | api/utils/jwt.go:16-20 | an empty JWT_SECRET_KEY falls back to the development key; a set one is used as is; the key is never empty |
| Jwt.IssueClaims | api/utils/jwt.go:22-30 | kader_id is the input, sub its decimal string, iss "posyanduku-api", exp the clock plus 24 hours, iat and nbf the clock |
| Jwt.GenerateJwt | api/utils/jwt.go:32-33 | the issued token is HS256, signed with the secret key, carrying exactly those claims |
| Jwt.SubjectRoundTrip | api/utils/jwt.go:29 | strconv.Atoi of sub gives kader_id back for every 64-bit id |
| Jwt.KeyFunc | api/handlers/auth.go:88-93 | the key function hands out the secret exactly for an HMAC signing method |
| Jwt.ParseWithClaims | api/handlers/auth.go:88-93 | a token parses exactly when it decodes, uses HMAC, was signed with the secret and is inside its exp/nbf window; an undecodable token is malformed |
| Jwt.IssuedTokenLifetime | api/utils/jwt.go:25-27 | a token the API issued is accepted from its issue second for 24 hours and not outside that window |
| Auth.BearerFormat | api/handlers/auth.go:74-81 | the format check accepts exactly "Bearer " followed by text without a space (possibly empty), case-sensitively, and hands that text to the parser |
| Auth.Decide | api/handlers/auth.go:65-118 | a request is admitted only with a non-empty header of the form "Bearer <token>"; every rejection carries one of the six messages of the middleware |
| Auth.DecisionCases | api/handlers/auth.go:65-118 | each rejection cause and its message in priority order; a request is admitted exactly when the token is HMAC, correctly signed and in time, with the token's kader id |
| Auth.IssuedTokenAdmitted | api/handlers/auth.go:81-113 | a token from the login route, sent as "Bearer token" within 24 hours, admits its kader |
| Auth.AuthMiddleware | api/handlers/auth.go:65-120 | every rejection writes 401 with its message and aborts without Next; only an admitted request sets kaderId and reaches Next |
| Auth.Login | api/handlers/auth.go:22-62 | a missing body is 400; unknown user and wrong password give the same 401; 200 exactly with a row, a matching password and a signed token, returning token and user without the password |
| Auth.LoginRevealsNothing | api/handlers/auth.go:35-46 | an unknown username and a wrong password get the same reply, and a success does not depend on the stored hash |
| Text.NatToString | api/utils/jwt.go:29 | decimal rendering: digits only, no leading zero, and its value is the number |
| Text.ContainsIffOccurs | frontend/src/lib/utils.ts:44 | String.includes holds exactly when the text occurs at some index |
| Text.SplitJoin | api/handlers/auth.go:74 | strings.Split leaves no separator inside a part, and joining the parts gives the input back |
| Text.SplitAtFirst | api/handlers/auth.go:74 | the first part of a split is the text before the first separator |
| Text.Utf8Len | api/handlers/ibu.go:32 | Go's len() of a string lies between its character count and four times it |
| Text.Utf8LenAscii | api/handlers/ibu.go:32 | for ASCII-only text, len() is the character count |
| Text.Utf8LenConcat | api/handlers/ibu.go:32 | len() of a concatenation is the sum of the lengths |
| Dates.ParseDate | api/handlers/laporan.go:28-37 | time.Parse with layout 2006-01-02 accepts only dddd-dd-dd shaped text whose month and day exist; the result can be written back |
| Dates.ParseFormat | api/handlers/laporan.go:28-37 | formatting a valid date and parsing it gives the date back |
| Dates.FormatParse | api/handlers/laporan.go:28-37 | a text the layout accepts is exactly the formatting of its date |
| Dates.NextDay | api/handlers/laporan.go:35 | AddDate(0, 0, 1) gives a valid date strictly after the input |
| Dates.NextDayIsSuccessor | api/handlers/laporan.go:35 | no valid date lies strictly between a date and its successor |
| Dates.NextDayZero | api/handlers/laporan.go:35 | the successor is Go's zero time exactly for 0000-12-31 |
| Dates.ParseLastDayOfYearZero | api/handlers/laporan.go:28-37 | 0000-12-31 is accepted by the layout |
| Http.OnConstraintCompared | api/main.go:595 | the SQLSTATE-only test of main.go accepts everything the handlers' constraint test does, and in addition exactly the same code on another constraint |
| Http.ValueOf | api/handlers/ibu.go:37-39 | the value a statement binds to a column exists exactly when the column is named, and is one of its columns |
| Http.ValueOfAppended | api/handlers/ibu.go:37-39 | a column appended after columns that do not name it is the one found |
| Http.Atoi | api/handlers/kader.go:104-105 | strconv.Atoi succeeds only on non-empty text and only with a 64-bit value |
| Http.AtoiItoa | api/handlers/kader.go:104 | Atoi reads back the decimal rendering of every 64-bit integer |
| Http.AtoiDecomposed | api/handlers/kader.go:104-105 | an optional sign followed by any non-empty digit run, with "+7" and leading zeros included, reads as its signed decimal value, accepted exactly when that value fits in 64 bits |
| Http.AtoiShape | api/handlers/kader.go:104-105 | only an optional sign followed by digits is accepted |
| Http.AtoiRejects | api/handlers/kader.go:106-109 | text without digits is refused |
| Sql.DigitRun | api/handlers/laporan.go:70 | the length of the leading digit run: all digits before it, and no digit right after it |
| Sql.PlaceholdersRef | api/handlers/laporan.go:70 | a rendered "$k" followed by a non-digit contributes exactly placeholder k |
| Sql.FillPlaceholders | api/handlers/perkembangan.go:74 | a template filled with k uses placeholder k once per gap and nothing else |
| Sql.Render | api/handlers/laporan.go:64-78 | the i-th rendered condition is its template filled with first + i |
| Sql.Args | api/handlers/laporan.go:64-78 | one argument per condition, in the same order |
| Sql.JoinPlaceholders | api/handlers/laporan.go:80-82 | the conditions joined with AND carry exactly the placeholders each condition expects, in order |
| Sql.WherePlaceholders | api/handlers/laporan.go:80-82 | the WHERE clause carries exactly the expected placeholders: condition i uses only i for every gap |
| Sql.ExpectedCoversArgs | api/handlers/laporan.go:64-78 | every expected placeholder is one of the condition numbers and every condition number is used |
| Sql.WhereMatchesArgs | api/handlers/laporan.go:64-82 | the query text numbers its placeholders 1 to the number of args and uses every one: $k names args[k-1] |
| Sql.SearchWhere | api/handlers/ibu.go:66-69 | a search term adds one condition using $1 once per searched column, bound to '%'-wrapped term; no term, no WHERE and no argument |
| Rows.ListReply | api/handlers/kader.go:74-97 | a list reply is 200 exactly when the query runs, every row scans and iteration ends cleanly, with all rows; a nil slice with no rows is null |
| Rows.CollectRows | api/handlers/kader.go:82-97 | the row loop stops at the first scan failure and writes the reply ListReply describes |
| Rows.EmptyListShape | api/handlers/imunisasi.go:62 | an empty make([]T, 0) list is written as [] and an empty nil slice as null |
| ById.GetRecord | api/handlers/ibu.go:132-157 | a bad id is 400 with no query; otherwise one SELECT by id; success is 200 with the record; the handlers copies answer 404 for no rows and 500 for other errors, the main.go routes 404 for every error. The same shape, with its own table and messages, is GetAnakByIdHandler (api/handlers/anak.go:142-169), GetPerkembanganByIdHandler (api/handlers/perkembangan.go:122-146), GetMasterImunisasiByIdHandler and GetRiwayatImunisasiByIdHandler (api/handlers/imunisasi.go:134-159, 358-402), and main.go's GET /ibu/:id, /anak/:id and /master-imunisasi/:id (api/main.go:667-682, 830-846, 1099-1113) |
| ById.GetCopiesCompared | api/main.go:677-679 | the two copies of a get-by-id route differ exactly on a database error other than no rows, and main.go never answers 500 there |
| ById.DeleteRecord | api/handlers/perkembangan.go:190-207 | a bad id is 400 with no statement; otherwise one DELETE by id; 200 with the success message, or 500 for any database error. DeleteRiwayatImunisasiHandler (api/handlers/imunisasi.go:458-475) is the same with its own table and message |
| ListFilter.BuildSearch | api/handlers/ibu.go:62-70 | the searched query is the select, the search WHERE and the order; the wrapped term is its only argument exactly when a term is given |
| ListFilter.IdFilter | api/handlers/perkembangan.go:79-86 | the id_anak filter applies exactly when the parameter parses to an integer above zero |
| ListFilter.RenderSnoc | api/handlers/perkembangan.go:79-86 | appending a condition appends its template filled with the next number |
| ListFilter.BuildFiltered | api/handlers/perkembangan.go:62-92 | the imperative builder with argCounter produces the query and args of the declared conditions: search, then id_anak |
| ListFilter.FilterPlaceholders | api/handlers/perkembangan.go:73-86 | the search uses $1 once per column; id_anak gets $2 after a search and $1 without; each number names the argument at that position |
| ListFilter.IgnoredIdFilter | api/handlers/perkembangan.go:79-86 | a malformed, zero or negative id_anak is ignored as if absent |
| KaderHandlers.RegisterConflict | api/handlers/kader.go:41-51 | 409 with the username message, the NIK message, or the constraint name embedded |
| KaderHandlers.HashAndInsert | api/handlers/kader.go:28-57 | a hash failure is 500 before any insert; otherwise 201 exactly on success and 409 exactly for 23505, by constraint |
| KaderHandlers.RegisterKader | api/handlers/kader.go:19-58 | the handlers copy refuses only an unbindable body, with no password or NIK check before hashing |
| KaderHandlers.RegisterKaderMain | api/main.go:400-446 | main.go refuses an empty password, then a non-empty NIK over 16 bytes, with 400 before hashing or inserting |
| KaderHandlers.RegisterRoutesCompared | api/main.go:406-413 | the two registration routes agree when main.go's checks pass; otherwise only the handlers copy hashes and inserts. The empty-password case is one neither route receives, since `binding:"required"` on Password (api/models/models.go:30, api/main.go:45) already refuses it at binding |
| KaderHandlers.UpdateConflict | api/handlers/kader.go:127-141 | 409 with a username or NIK message, or "Data unik sudah ada." for any other constraint |
| KaderHandlers.UpdateKader | api/handlers/kader.go:102-146 | a bad id, a bad body or a non-empty NIK over 16 bytes is 400 without an update; 409 exactly for 23505; 200 exactly when the update succeeds |
| KaderHandlers.ChangePassword | api/handlers/kader.go:149-183 | a bad id, a missing body or a password under 6 bytes is 400 before hashing; 200 exactly when hashing and the update succeed |
| KaderHandlers.DeleteKader | api/handlers/kader.go:186-207 | a bad id is 400; every 23503 is 409 whatever the constraint; 200 exactly on success |
| KaderHandlers.PasswordLengthExamples | api/handlers/kader.go:163-166 | five ASCII letters are refused, six pass the length rule |
| KaderHandlers.SearchPiecesValid | api/handlers/kader.go:68-71 | the kader search template is a valid single-placeholder template |
| KaderHandlers.GetKaderList | api/handlers/kader.go:61-99 | search over name, NIK and username through $1 with the wrapped term; no term, no WHERE; rows into a nil slice |
| IbuHandlers.CreateIbu | api/handlers/ibu.go:17-55 | no kader id is 401 before the body; a bad body or NIK over 16 bytes is 400; the insert records the caller; 409 exactly for 23505 on ibu_nik_key (any 23505 in main.go) |
| IbuHandlers.UpdateIbu | api/handlers/ibu.go:160-196 | a bad id, body or NIK is 400 without an update; 409 exactly for the NIK unique violation; 500 for the rest |
| IbuHandlers.DeleteIbu | api/handlers/ibu.go:199-222 | 409 exactly for 23503 on anak_id_ibu_fkey (any 23503 in main.go), 500 for other errors |
| IbuHandlers.PendaftarKept | api/handlers/ibu.go:37-39 | the insert binds id_kader_pendaftar to the caller and the update never writes that column |
| IbuHandlers.CreateCopiesCompared | api/main.go:576-603 | the two create copies differ only on a 23505 on another constraint: 500 in handlers, 409 in main.go |
| IbuHandlers.NoSessionNoWrite | api/handlers/ibu.go:19-24 | without a kader id the reply is 401 and nothing is read or written |
| IbuHandlers.SearchPiecesValid | api/handlers/ibu.go:67 | the ibu search template is a valid single-placeholder template |
| IbuHandlers.GetIbuList | api/handlers/ibu.go:58-97 | search over name and NIK through $1 with the wrapped term; rows into a nil slice |
| IbuHandlers.GetIbuSimple | api/handlers/ibu.go:100-129 | the fixed id and name query, rows into a nil slice |
| AnakHandlers.ValidateAnak | api/handlers/anak.go:27-35 | the birth date must parse, then a present NIK must be at most 16 bytes, each with its own 400 message |
| AnakHandlers.WriteError | api/handlers/anak.go:43-57 | 404 exactly for the parent FK, 409 exactly for the NIK key, 500 otherwise |
| AnakHandlers.CreateAnak | api/handlers/anak.go:19-62 | 400 exactly for a bad body, date or NIK, with no insert; otherwise one insert, then 201, 404 or 409 as the error says |
| AnakHandlers.UpdateAnak | api/handlers/anak.go:172-222 | the id is checked before the body and the same checks as create; 200, 404 or 409 as the error says |
| AnakHandlers.DeleteAnak | api/handlers/anak.go:225-249 | 409 exactly for the perkembangan or riwayat child FK (any 23503 in main.go), 500 for other errors |
| AnakHandlers.CreateCopiesCompared | api/main.go:734-766 | the copies agree except on 23503/23505 for other constraints, which main.go answers 404/409 and handlers 500 |
| AnakHandlers.DateCheckedBeforeNik | api/handlers/anak.go:27-35 | a payload with a bad date is refused for its date, whatever its NIK |
| AnakHandlers.NikRule | api/handlers/anak.go:32-35 | an absent nik_anak passes; a present one over 16 bytes is refused with no insert |
| AnakHandlers.SearchPiecesValid | api/handlers/anak.go:74-79 | the anak search templates of both copies are valid single-placeholder templates |
| AnakHandlers.GetAnakList | api/handlers/anak.go:65-107 | search through $1 with the wrapped term over four columns (three in main.go, api/main.go:768-801), ordered by child name; an empty result is null |
| AnakHandlers.GetAnakSimple | api/handlers/anak.go:110-139 | the fixed query, rows into a nil slice |
| PerkembanganHandlers.WriteError | api/handlers/perkembangan.go:46-53 | 404 exactly for 23503 on perkembangan_id_anak_fkey, 500 otherwise |
| PerkembanganHandlers.CreatePerkembangan | api/handlers/perkembangan.go:19-57 | no kader id is 401 before the body; a bad body or date is 400 without writing; the insert records the caller; 201, 404 or 500 |
| PerkembanganHandlers.UpdatePerkembangan | api/handlers/perkembangan.go:149-187 | id, body and date are checked in order; 200, 404 or 500 |
| PerkembanganHandlers.PencatatKept | api/handlers/perkembangan.go:40-42 | the insert binds id_kader_pencatat to the caller and the update never writes it |
| PerkembanganHandlers.TemplatesValid | api/handlers/perkembangan.go:73-86 | the search and id_anak templates are valid single-placeholder templates |
| PerkembanganHandlers.ListPlaceholders | api/handlers/perkembangan.go:73-86 | the search uses $1 four times; id_anak gets $2 after a search and $1 without |
| PerkembanganHandlers.GetPerkembanganList | api/handlers/perkembangan.go:60-119 | the list query and args are those of the declared conditions, with consecutive placeholders; rows into a nil slice |
| ImunisasiHandlers.MasterWriteError | api/handlers/imunisasi.go:38-47 | 409 only for the unique name constraint, 500 otherwise |
| ImunisasiHandlers.CreateMaster | api/handlers/imunisasi.go:22-51 | a bad body or negative usia_ideal_bulan is 400 before any insert; then 201, 409 or 500 |
| ImunisasiHandlers.UpdateMaster | api/handlers/imunisasi.go:162-198 | a bad id, body or negative age is 400 without an update; then 200, 409 or 500 |
| ImunisasiHandlers.DeleteMaster | api/handlers/imunisasi.go:201-224 | 409 exactly for the riwayat FK to the vaccine (any 23503 in main.go), 500 otherwise |
| ImunisasiHandlers.MasterCopiesCompared | api/main.go:1041-1062 | the create copies differ only on a 23505 on another constraint: 500 in handlers, 409 in main.go |
| ImunisasiHandlers.AgeBoundary | api/handlers/imunisasi.go:29-32 | age 0 is accepted and -1 refused before the database |
| ImunisasiHandlers.MasterPiecesValid | api/handlers/imunisasi.go:68-71 | the master search template is a valid single-placeholder template |
| ImunisasiHandlers.GetMasterSimple | api/handlers/imunisasi.go:102-131 | the fixed query, rows into make([]T, 0) |
| ImunisasiHandlers.GetMasterList | api/handlers/imunisasi.go:54-99 | in the handlers copy the simple path is delegated and ignores the search; otherwise, and always in main.go (api/main.go:1064-1097), search through $1; an OK reply is never null |
| ImunisasiHandlers.RiwayatWriteError | api/handlers/imunisasi.go:256-266 | 404 with distinct messages for the id_anak and id_master_imunisasi FKs, 500 for any other error |
| ImunisasiHandlers.CreateRiwayat | api/handlers/imunisasi.go:229-272 | no kader id is 401; a bad body or date is 400 without writing; the insert records the caller; then 201, 404 or 500 |
| ImunisasiHandlers.UpdateRiwayat | api/handlers/imunisasi.go:405-455 | no kader id is 401 before the id; then id, body and date in order; 200, 404 or 500 |
| ImunisasiHandlers.PencatatRecorded | api/handlers/imunisasi.go:250-252 | the insert binds id_kader_pencatat to the caller |
| ImunisasiHandlers.UpdaterRecorded | api/handlers/imunisasi.go:433-435 | the update binds id_kader_updater to the caller |
| ImunisasiHandlers.PencatatUntouched | api/handlers/imunisasi.go:433-435 | the update never writes id_kader_pencatat |
| ImunisasiHandlers.OtherRelationIs500 | api/handlers/imunisasi.go:256-266 | a 23503 on any other constraint is a 500 with the relation message |
| ImunisasiHandlers.RiwayatTemplatesValid | api/handlers/imunisasi.go:300-314 | the riwayat search and id_anak templates are valid |
| ImunisasiHandlers.RiwayatPlaceholders | api/handlers/imunisasi.go:300-314 | the search uses $1 three times; id_anak gets $2 after a search and $1 without |
| ImunisasiHandlers.GetRiwayatList | api/handlers/imunisasi.go:275-355 | the list query and args are those of the declared conditions, consecutive placeholders; rows into a nil slice |
| Laporan.ParseBound | api/handlers/laporan.go:28-37 | an empty value is Go's zero time; any other must parse |
| Laporan.ReportRange | api/handlers/laporan.go:28-42 | the range exists exactly when both values are empty or parse; a parsed end moves to the next day, an empty end stays zero |
| Laporan.MainReportRange | api/main.go:1302-1316 | main.go adds the day even to a failed parse, but the refusal comes first, so the range is the same |
| Laporan.ParseKind | api/handlers/laporan.go:45-56 | exactly wali, anak, perkembangan and imunisasi dispatch |
| Laporan.BoundColumnNoDollar | api/handlers/laporan.go:70 | the bound columns contain no '$' |
| Laporan.BoundTemplatesValid | api/handlers/laporan.go:69-77 | the >= and < bound templates are valid single-placeholder templates |
| Laporan.BuildReportQuery | api/handlers/laporan.go:61-109 | the imperative builder gives the select, the WHERE of the present bounds and the order, with args matching the conditions |
| Laporan.RangePlaceholders | api/handlers/laporan.go:64-78 | $1 for the first bound present, $2 for the upper after a lower; the start date comes before the end date in args |
| Laporan.ReportWindow | api/handlers/laporan.go:69-77 | a day passes exactly when it lies between start and end inclusive, an empty bound imposing nothing; the one exception is an end of 0000-12-31 |
| Laporan.GetLaporan | api/handlers/laporan.go:18-58 | dates are checked first (400), then the type (400); a query is sent exactly when both are accepted, built from the report's column; rows into a nil slice |
| Laporan.VariantsCompared | api/main.go:1408 | both copies send the same SELECT for every report but perkembangan, where only the handlers copy selects nik_ibu |

## Left out

- Database I/O. A pgx call is an input outcome (`DbError` or success), and a
  list query is a `QueryResult`. SQL semantics (ILIKE, joins, ordering of
  rows) are not modelled. A query is its text and its argument list.
- The base SELECT texts of the queries are kept with their whitespace
  normalised to single spaces. The source spreads them over several lines.
- bcrypt. Hashing success and the password comparison are boolean inputs
  (`hashOk`, `passwordOk`).
- JWT encoding and signing. A token's text is seen only through what the
  library decodes from it (a `decode` function parameter). HMAC is idealised:
  a signature verifies exactly under the key it was made with. `iat` is
  issued but not checked, as in golang-jwt's default validator.
  - The source reads the clock three times in `GenerateJWT`, and the model uses one reading (`now`, in seconds).
  - The unreachable branch after the claims assertion in `AuthMiddleware`, with the message "Token tidak dapat diproses.", is not modelled.
- Gin binding. `ShouldBindJSON` failures are a `None` body. Binding tags
  such as `required` and `oneof` are library behaviour. Float and
  pass-through fields (measurements, descriptions, notes) are carried as
  opaque values.
- Time zones and time of day. Dates are calendar dates at midnight UTC,
  which is what `time.Parse` with a date-only layout produces.
- The inline perkembangan and riwayat routes of `api/main.go`, lines
  909-1040 and 1165-1297. They are not modelled separately from their
  handlers copies.
- Environment loading, CORS, router wiring, logging, server start-up and
  `api/db/database.go`.
- Concurrency. The client is modelled as single-threaded, sequential calls.
- JavaScript numbers. An id is an unbounded integer, and no floats are
  modelled. The model misses ids above 2^53, non-integer ids and "-0"
  (`AuthContext.ParseInt` and `AuthContext.ParseIntOfToString`).
- `AuthContext.IsJsSpace`: covers the ASCII and Latin-1 white space and
  U+FEFF. It leaves out the other Unicode space separators and line
  terminators that ECMAScript's parseInt also skips.
- Header names are compared case-sensitively in `FetchGateway.HeadersAppended`.
  A real `Headers` object lowercases names, and that is not modelled.
- `FetchGateway.FetchWithAuth`: the fetch outcome is an input, independent
  of the request sent.
- `FetchGateway.Gateway` and `FetchGateway.FetchWithAuth` always send the
  request once a token is present. In the source, `new Headers(...)` and
  its `append` calls run before the `try` (frontend/src/lib/utils.ts:23-28).
  A malformed caller header, or a stored token with CR, LF, NUL or a
  character above U+00FF, makes them throw a TypeError that escapes the
  function, and no request is sent. The validation of the `Headers`
  implementation is not modelled.
- `LoginForm.Form.HandleSubmit`: a JSON body that is `null`, is not an
  object, or has a non-string `data.error` is not modelled. The body is its
  four optional fields.
- `AuthContext.Storage`: which localStorage operations throw is fixed per
  store (`failing`). An operation either always throws or never does.
  Intermittent failures, where the same call throws once and succeeds later,
  are not modelled. The storage half of `AuthContext.LogoutIdempotent`
  relies on this.
- The selected column lists of the SELECT-by-id statements. A `SelectById`
  names only the table and the id. So the difference between main.go's
  anak get-by-id, which leaves out `i.nik AS nik_ibu` (api/main.go:838),
  and the handlers copy is not shown.
- React scheduling and rendering: `useEffect`/`useCallback` timing, render
  batching, and the stale-closure token of `useCallback`. The gateway reads
  the provider's token at call time.
- Other parts of the client are not part of this model:
  - the `useAuth` throw outside a provider
  - `cn()`
  - every page other than `app/page.tsx`
