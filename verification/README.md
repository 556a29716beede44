# Broker onboarding: a Dafny model of the validation, authorization and session core

This project models the core of a customer-onboarding web application for brokers.
The backend is an Express API over two tables, users and customers. The frontend is
a React client that keeps a session in two cookies. The model covers:

- the request-validation chains (`registerValidation`, `loginValidation`,
  `customerValidation`), as error lists over the sanitized strings
  (`Validators`, with the JavaScript string operations in `Text`);
- the bearer-token middleware `authenticate` and the role check `authorizeAdmin`
  (`AuthGate`);
- `POST /customers` and `GET /customers/stats` over an in-memory customer table
  (`CustomerRoutes`). The newest-first, take-five query shape lives in `Ordering`;
- `POST /auth/register` and `POST /auth/login` over an in-memory user table
  (`AuthRoutes`);
- `GET /admin/overview` (`AdminRoutes`);
- the client session of `AuthProvider`: mount and rehydration, `login`, `register`,
  `logout` and `useAuth` (`Session`). The error shape the client receives, and the
  message precedence both forms use, are in `ClientApi`;
- the onboarding form's schema and `onSubmit` (`OnboardForm`), and the login form's
  schema, role redirect and `onSubmit` (`LoginForm`).

Code that changes state in place is written as classes:

- `CustomerTable` and `UserTable` for the database tables;
- `AuthRequest` for the request the middleware decorates;
- `AuthProvider` for the React state and cookies;
- `OnboardPage` and `LoginPage` for the pages' own state.

Each method is proved against a pure function of the old state. The properties are
lemmas about those functions. Library calls are values passed as parameters:
`EmailLib` (`isEmail`/`normalizeEmail`), `Bcrypt`, `Jwt`, `Json` (`JSON.parse` /
`JSON.stringify`), zod's e-mail test, and the `api.post` requests. Database ids,
timestamps and the bcrypt salt are parameters too. The only thing assumed of bcrypt is
that a password matches its own hash (`AuthRoutes.CompareAcceptsHash`), and it appears
only as a lemma precondition.

Three points of the code that are easy to misread:

- The thirteenth GSTIN character is `[1-9A-Z]`, so `0` is rejected there.
- The customer routes apply only `authenticate`; any signed-in identity is served,
  keyed by its `userId`, whatever its role.
- The onboarding form checks the untrimmed name length in UTF-16 code units. The
  backend checks the trimmed length as validator.js's `isLength` counts it: characters
  other than the presentation selectors U+FE0E and U+FE0F.

## Model

| member | source | states |
|---|---|---|
| Text.TrimSpec | backend/src/middleware/validators.ts:5 | the result is a contiguous slice of the input, with no `\s` character at either end, and only `\s` characters are removed |
| Text.ToUpper | backend/src/routes/customers.ts:59 | same length; each character is its ASCII upper-case form |
| Text.ToUpperIdempotent | backend/src/routes/customers.ts:74 | upper-casing twice equals upper-casing once |
| Text.Split | backend/src/middleware/auth.ts:23 | `split(' ')` yields at least one piece, and no piece contains the separator |
| Text.JoinSplit | backend/src/middleware/auth.ts:23 | joining the pieces with the separator gives back the original string |
| Text.IsLengthCount | backend/src/middleware/validators.ts:8 | the length `isLength` compares is at most the character count, and equals it when no U+FE0E or U+FE0F occurs |
| Text.Utf16Length | frontend/src/app/dashboard/onboard/page.tsx:14 | `.length` is between the character count and twice it, and is 0 only for the empty string |
| Ordering.SortDescSorted | backend/src/routes/customers.ts:23 | `orderBy createdAt desc` yields a newest-first sequence |
| Ordering.NewestSpec | backend/src/routes/customers.ts:21-25 | `take: 5` after the sort returns min(5, n) elements of the input, each at most as often as in the input, newest first; no element left out is newer than one returned |
| Ordering.ImageSubMultiset | backend/src/routes/admin.ts:16-43 | projecting rows drawn from a table without repetition gives projections drawn from the table's projections without repetition |
| Validators.FirstLine | backend/src/middleware/validators.ts:22 | a regex lookahead `.*` sees the longest prefix without a line terminator |
| Validators.NameAccepted | backend/src/middleware/validators.ts:4-9 | a full name passes iff its trimmed value has 2 to 100 characters as `isLength` counts them |
| Validators.BlankNameErrors | backend/src/middleware/validators.ts:4-9 | a blank name reports both the required and the length message (no bail) |
| Validators.CustomerNameIsRegisterName | backend/src/middleware/validators.ts:40-45 | the customer chain and the register chain report the same full-name errors first |
| Validators.ShortPasswordRejected | backend/src/middleware/validators.ts:17-21 | a password under 6 counted characters gets the length error; an empty one also gets the required error |
| Validators.PasswordAcceptedHasClasses | backend/src/middleware/validators.ts:22-23 | an accepted password has at least 6 counted characters, a lower-case letter, an upper-case letter and a digit |
| Validators.SingleLinePasswordAccepted | backend/src/middleware/validators.ts:17-23 | on a single-line password, acceptance is exactly a counted length >= 6 plus the three character classes |
| Validators.SelectorsNotCounted | backend/src/middleware/validators.ts:17-21 | "Aa1" with three U+FE0F is six characters yet too short, and a letter with one U+FE0F is too short a name |
| Validators.FirstLineWhole | backend/src/middleware/validators.ts:22 | on text without a line break, the lookahead sees all of it |
| Validators.PatternStopsAtLineBreak | backend/src/middleware/validators.ts:22-23 | "\nPassw0rd" fails the pattern, because the lookaheads stop at the line break |
| Validators.LoginPasswordRule | backend/src/middleware/validators.ts:26-37 | given a valid e-mail, login validation passes iff the password is non-empty (no strength rule) |
| Validators.RegisterImpliesLogin | backend/src/middleware/validators.ts:3-37 | every request register validation accepts is also accepted by login validation |
| Validators.GstinAcceptedLength | backend/src/middleware/validators.ts:53-58 | an accepted GSTIN is 15 characters once trimmed |
| Validators.GstinPositions | backend/src/middleware/validators.ts:57 | the sample GSTIN passes in either case; `0` at position 13, a non-Z at position 14, and "12345" all fail |
| Validators.GstinCaseInsensitive | backend/src/middleware/validators.ts:57 | a GSTIN and its upper-cased form are accepted or rejected together |
| Validators.EntityTypeAccepted | backend/src/middleware/validators.ts:59-63 | accepted iff exactly "EXPORTER" or "IMPORTER"; "exporter" fails |
| Validators.CustomerAccepted | backend/src/middleware/validators.ts:39-64 | the customer chain passes iff the name, e-mail, GSTIN and entity-type rules all hold |
| AuthGate.PrefixedSplit | backend/src/middleware/auth.ts:18-23 | a header beginning "Bearer " splits into "Bearer" followed by the pieces of the rest |
| AuthGate.BearerTokenShape | backend/src/middleware/auth.ts:23 | the token is the text after "Bearer " up to the next space or the end |
| AuthGate.DoubleSpaceGivesEmptyToken | backend/src/middleware/auth.ts:23 | "Bearer  x" yields the empty token |
| AuthGate.LowerCaseSchemeRejected | backend/src/middleware/auth.ts:18 | the prefix test is case-sensitive: "bearer abc" carries no token |
| AuthGate.AuthenticateSpec | backend/src/middleware/auth.ts:15-32 | `next` runs with payload p iff the header has the prefix and its token verifies to p; a missing header or wrong scheme gives 401 "no token"; a failed verify gives 401 "invalid or expired" |
| AuthGate.SignedTokenAccepted | backend/src/middleware/auth.ts:25-28 | a space-free token that the library signed and still verifies passes with its own payload |
| AuthGate.AuthorizeAdminSpec | backend/src/middleware/auth.ts:34-40 | rejected iff there is no identity or its role is not exactly "ADMIN"; the role "admin" is rejected |
| AuthGate.AuthRequest.Authenticate | backend/src/middleware/auth.ts:15-32 | on success: `req.user` is the payload, `next` is called exactly once, and no reply is sent; on failure: `req.user` is unchanged, `next` is not called, and the 401 is sent |
| AuthGate.AuthRequest.AuthorizeAdmin | backend/src/middleware/auth.ts:34-40 | `next` is called once iff the role is "ADMIN"; otherwise 403 and no `next` |
| CustomerRoutes.HasKeyAppend | backend/src/routes/customers.ts:55-62 | after an append, the (broker, gstin) key is present iff it was before or the new row carries it |
| CustomerRoutes.CreateInvalid | backend/src/routes/customers.ts:44-49 | the reply is 400 with the error list iff validation fails, and then the table is unchanged |
| CustomerRoutes.CreateDuplicate | backend/src/routes/customers.ts:54-67 | the reply is 409 iff the body is valid and (broker, upper(gstin)) exists; it then carries the duplicate-GSTIN error and nothing is inserted |
| CustomerRoutes.CreateAppends | backend/src/routes/customers.ts:69-82 | the success message is "Customer onboarded successfully."; on success exactly one row is appended: the caller's id, the upper-cased well-formed GSTIN, the sanitized fields, and a key not present before |
| CustomerRoutes.AppendPreservesInvariant | backend/src/routes/customers.ts:54-77 | appending a well-formed row with a free key keeps the unique (brokerId, gstin) index and the row invariants |
| CustomerRoutes.CreatePreservesInvariant | backend/src/routes/customers.ts:43-87 | every create reply keeps the table invariant |
| CustomerRoutes.SameGstinOtherCaseConflicts | backend/src/routes/customers.ts:54-74 | after a create, the same GSTIN in another letter case for the same broker is 409 |
| CustomerRoutes.OtherBrokerMayReuse | backend/src/routes/customers.ts:55-61 | another broker can still onboard the same GSTIN |
| CustomerRoutes.LowerCaseGstinStoredUpper | backend/src/routes/customers.ts:74 | "27aaaaa0000a1z5" is stored as "27AAAAA0000A1Z5" |
| CustomerRoutes.MalformedGstinRejected | backend/src/middleware/validators.ts:53-58 | "12345" gets the GSTIN format error |
| CustomerRoutes.Owned | backend/src/routes/customers.ts:18-22 | `where: { brokerId }` keeps exactly the caller's rows |
| CustomerRoutes.StatsTotalSplits | backend/src/routes/customers.ts:17-20 | when every stored entity type is one of the two values, total == exporters + importers |
| CustomerRoutes.StatsRecent | backend/src/routes/customers.ts:21-25 | `recentCustomers` has min(5, total) of the caller's rows, none repeated, newest first, and none of the caller's other rows is newer |
| CustomerRoutes.OtherBrokersInvisible | backend/src/routes/customers.ts:15-22 | another broker's new row leaves the caller's stats unchanged |
| CustomerRoutes.CreatedCounts | backend/src/routes/customers.ts:17-20 | a create adds one to the total and one to its entity type's count |
| CustomerRoutes.EmptyStats | backend/src/routes/customers.ts:13-35 | a broker without customers sees zeros and an empty list |
| CustomerRoutes.CustomerTable.FindUnique | backend/src/routes/customers.ts:55-62 | finds a row iff one with that (brokerId, gstin) exists, and returns it |
| CustomerRoutes.CustomerTable.Create | backend/src/routes/customers.ts:43-87 | the reply and the new table are those of the handler's specification; the invariant is kept |
| Records.FindUser | backend/src/routes/auth.ts:24 | `findUnique` by e-mail (and, for the admin join, by id) finds a user with that value iff one exists |
| AuthRoutes.RegisterInvalidSpec | backend/src/routes/auth.ts:15-19 | 400 with the error list iff validation fails, and then no user is created |
| AuthRoutes.RegisterTakenSpec | backend/src/routes/auth.ts:24-28 | 409 iff valid and a user has the sanitized address; it then carries "An account with this email already exists." and the table is unchanged |
| AuthRoutes.RegisterAppends | backend/src/routes/auth.ts:31-51 | the message is "Registration successful. Please log in."; success appends exactly one BROKER whose password is the bcrypt hash; the reply carries id, name, e-mail and role and has no password field; status 201 |
| AuthRoutes.RegisterPreservesUnique | backend/src/routes/auth.ts:24-41 | registration keeps e-mail addresses unique |
| AuthRoutes.RegisterTwiceConflicts | backend/src/routes/auth.ts:24-28 | registering the same sanitized address again is 409 |
| AuthRoutes.LoginRejectsAlike | backend/src/routes/auth.ts:70-81 | the one 401 "Invalid email or password." is given iff the input is valid and the address is unknown or the password does not match |
| AuthRoutes.LoginSignsStoredUser | backend/src/routes/auth.ts:84-99 | a successful login matched the stored hash, signs {userId, email, role} of the stored user, and returns its public projection with 200 and "Login successful." |
| AuthRoutes.LoginInvalidSpec | backend/src/routes/auth.ts:61-65 | 400 iff login validation fails |
| AuthRoutes.RegisterThenLogin | backend/src/routes/auth.ts:31-88 | given compare(p, hash(p)), logging in right after a registration succeeds with the new broker's token and projection |
| AuthRoutes.FindAfterAppend | backend/src/routes/auth.ts:70 | a user appended behind others with different addresses is found by its address |
| AuthRoutes.RegisteredBrokerPassesGate | backend/src/middleware/auth.ts:23-28 | the token of that login passes `authenticate` with {id, email, "BROKER"} when the token library verifies what it signed |
| AuthRoutes.UserTable.FindUnique | backend/src/routes/auth.ts:24 | the loop returns the lookup's answer |
| AuthRoutes.UserTable.Register | backend/src/routes/auth.ts:13-56 | the reply and the new table are those of the specification; e-mail addresses stay unique |
| AuthRoutes.UserTable.Login | backend/src/routes/auth.ts:59-104 | the reply is the specification's, and the table is not modified (no modifies clause) |
| AdminRoutes.UsersAreAdminsAndBrokers | backend/src/routes/admin.ts:14 | the user count is the number of admins plus the number of brokers |
| AdminRoutes.OwnedAtMostAll | backend/src/routes/admin.ts:15 | a broker's own customers are no more than all customers |
| AdminRoutes.OverviewTotals | backend/src/routes/admin.ts:14-15 | `totalUsers` counts every role; `totalCustomers` counts every broker's customers and bounds each broker's own total |
| AdminRoutes.RecentUsersSpec | backend/src/routes/admin.ts:16-25 | min(5, n) projections (id, fullName, email, createdAt) of stored users, none repeated, newest first, and no user left out is newer |
| AdminRoutes.RecentCustomersSpec | backend/src/routes/admin.ts:26-43 | min(5, n) projections of stored customers across all brokers, none repeated, newest first, and no customer left out is newer |
| AdminRoutes.SummaryNamesOwner | backend/src/routes/admin.ts:36-41 | with unique ids, each customer summary carries its owner's fullName and email |
| AdminRoutes.OverviewGate | backend/src/routes/admin.ts:8-11 | served iff `authenticate` passes, whatever the role (a BROKER is served); the content does not depend on the caller; otherwise 401 |
| ClientApi.ServerMessage | frontend/src/app/dashboard/onboard/page.tsx:63-65 | the server's message, when there is one, is never empty |
| ClientApi.ErrorMessagePrecedence | frontend/src/app/dashboard/onboard/page.tsx:63-66 | a non-empty `error` wins, else a non-empty first `errors[].msg`, else the fallback |
| ClientApi.ErrorMessageNonEmpty | frontend/src/app/login/page.tsx:46 | the toast is never empty |
| ClientApi.PagesShareServerMessage | frontend/src/app/login/page.tsx:45-47 | the two pages' messages agree exactly when the server supplied one |
| Session.UseAuth | frontend/src/lib/auth-context.tsx:73-78 | outside a provider the result is the error "useAuth must be used within an AuthProvider"; inside, it is the context |
| Session.MountEndsLoading | frontend/src/lib/auth-context.tsx:29-42 | `isLoading` is false after the mount effect, whatever the cookies hold |
| Session.MountFromInitial | frontend/src/lib/auth-context.tsx:30-40 | a token is adopted iff both cookies are stored and non-empty; a user only if the cookie also parses; otherwise nothing but `isLoading` changes |
| Session.CorruptUserCookie | frontend/src/lib/auth-context.tsx:33-39 | a user cookie that does not parse: both cookies are removed and the user stays null, but the token state is already set; a later reload is anonymous |
| Session.LoginSpec | frontend/src/lib/auth-context.tsx:44-53 | both cookies are set for 7 days, token and user are the server's, and other cookies and `isLoading` are untouched |
| Session.LoginThenReload | frontend/src/lib/auth-context.tsx:29-53 | a reload after login restores the same user and token, given a JSON round trip |
| Session.LogoutSpec | frontend/src/lib/auth-context.tsx:59-64 | both values are null and exactly the two cookies are gone; logout is idempotent; a reload after it is anonymous |
| Session.LogoutUndoesLogin | frontend/src/lib/auth-context.tsx:44-64 | logout after login leaves the same state as logout alone |
| Session.AuthProvider.constructor | frontend/src/lib/auth-context.tsx:25-27 | the initial state: no user, no token, loading |
| Session.AuthProvider.Mount | frontend/src/lib/auth-context.tsx:29-42 | the new state is the mount specification of the old one |
| Session.AuthProvider.Login | frontend/src/lib/auth-context.tsx:44-53 | on success the new state is the login specification; on rejection the state is unchanged and the error propagates |
| Session.AuthProvider.Register | frontend/src/lib/auth-context.tsx:55-57 | only the request's outcome; the session is not modified |
| Session.AuthProvider.Logout | frontend/src/lib/auth-context.tsx:59-64 | the new state is the logout specification of the old one |
| OnboardForm.GstinRegexOnUpper | frontend/src/app/dashboard/onboard/page.tsx:11-22 | the upper-case pattern applied after upper-casing accepts exactly what the backend's case-insensitive pattern accepts, on ASCII input (see Text.ToUpper below) |
| OnboardForm.FormGstinCaseInsensitive | frontend/src/app/dashboard/onboard/page.tsx:16-22 | the form gives the same verdict on a GSTIN and on its upper-cased form |
| OnboardForm.FormGstinShape | frontend/src/app/dashboard/onboard/page.tsx:11 | an accepted GSTIN is 15 characters, matches the pattern once upper-cased, and has no lower-case letter |
| OnboardForm.FormEntityAgrees | frontend/src/app/dashboard/onboard/page.tsx:23-25 | the form accepts an entity type iff one of the two names was chosen, which is the backend's rule |
| OnboardForm.SubmittedPayloadAccepted | frontend/src/app/dashboard/onboard/page.tsx:52-57 | the posted GSTIN is upper-case, passes the backend's GSTIN and entity-type chains, and is stored as sent |
| OnboardForm.UntrimmedNamePassesForm | frontend/src/app/dashboard/onboard/page.tsx:14 | " a " passes the form (no trim) but not the backend |
| OnboardForm.AstralNamePassesForm | frontend/src/app/dashboard/onboard/page.tsx:14 | one character outside the Basic Multilingual Plane passes the form (2 code units) but not the backend |
| OnboardForm.OnboardPage.OnSubmit | frontend/src/app/dashboard/onboard/page.tsx:49-71 | `isSubmitting` is true during the request and false after; success gives the success toast, a reset and "/dashboard"; failure gives the precedence message toast and no navigation |
| OnboardForm.OnboardPage.Submit | frontend/src/app/dashboard/onboard/page.tsx:81 | a form with issues shows them and changes nothing; a valid one posts the upper-cased payload and then toasts, resets and navigates exactly as `onSubmit` does |
| LoginForm.LoginSchemaSpec | frontend/src/app/login/page.tsx:12-15 | the form submits iff the address passes zod and the password is non-empty |
| LoginForm.PasswordRuleMatchesBackend | frontend/src/app/login/page.tsx:14 | the form and the backend's login chain both flag the password exactly when it is empty |
| LoginForm.RedirectByRole | frontend/src/app/login/page.tsx:33-36 | a signed-in ADMIN goes to "/admin", any other role to "/dashboard"; with no user the form renders |
| LoginForm.RejectedLoginMessage | frontend/src/app/login/page.tsx:45-47 | bad credentials show "Invalid email or password."; a malformed request shows the first validation message |
| LoginForm.AcceptedLoginRedirects | frontend/src/app/login/page.tsx:33-43 | after an accepted login the session holds the token, and the redirect follows the stored role |
| LoginForm.LoginPage.OnSubmit | frontend/src/app/login/page.tsx:38-51 | `isSubmitting` is true during the request and false after; the session is updated only on success; the success or precedence-message toast |

## Left out

- Cryptography: bcrypt and jwt are parameters. Only `compare(p, hash(p, 10, salt))` is assumed. Signature checks and token expiry are inside `verify`.
- `isEmail`, `normalizeEmail` and zod's e-mail check are parameters. Their rules belong to the libraries.
- Persistence: each table is one sequential in-memory sequence. The database generates the ids and the `createdAt` timestamps; bcrypt generates the salt. All three are parameters.
- Concurrency: concurrent requests are not modelled. Nor is the unique-constraint failure that settles a check-then-insert race in the database.
- The 500 "Internal server error." replies are not modelled. They come from exceptions in the database or libraries.
- Ordering of ties: the database does not fix the order of equal `createdAt` values. The model keeps table order, and its lemmas rely only on newest-first.
- Text.ToUpper: it maps ASCII letters only. JavaScript also maps characters such as `ı` to `I`, `ſ` to `S` and `ß` to `SS`. The result is exact on GSTINs, which are ASCII once validated. The form's verdict on input containing those characters is not captured.
- Session.AfterMount: `JSON.parse` is modelled as throwing, yielding `null`, or yielding a user object. Other JSON values (numbers, strings, arrays) are not.
- Session.AuthProvider: the client `User` interface declares no `role`. The model's `ClientUser` carries the role the server sends, because the login page reads it.
- Cookie lifetimes are recorded (7 days), but time passing is not. The jar is taken as the browser presents it at mount.
- React re-rendering and state batching are not modelled. The login page's redirect is a function of the current user.
- The axios instance (`frontend/src/lib/api.ts`) is not part of this model. That covers its base URL, its header attachment and any 401 response handler. Requests are parameters.
- Express wiring, CORS, helmet, the rate limiter, configuration defaults and the seed script are not modelled.
- The presentational pages and layouts, the sidebar and `ProtectedRoute` are not modelled.
- The routes `/admin/stats`, `/admin/brokers` and `/admin/customers` are called by the admin page but do not exist in `backend/src/routes/admin.ts`.
- Toasts and navigations are recorded as sequences on the page objects. Date formatting is not modelled.
- Validation errors keep only `path` and `msg`. express-validator's `type`, `value` and `location` fields are dropped.
