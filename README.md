# Jogamos account lifecycle, in Dafny

This project models the account and authentication lifecycle of the Jogamos
sports app and states what it guarantees. The app is a Kivy/KivyMD client
backed by two FastAPI servers.

- **Verification server** (`backend/app.py`). Holds an account table keyed by
  the lower-cased, stripped e-mail and an append-only table of e-mailed
  six-digit codes. Each account moves Unregistered → Pending → Verified
  through `signup`, `verify-email` and `resend-token`. `login` answers 401,
  403 or 200 in a fixed order.
- **Mock token server** (`server.py`). Holds an in-memory `USERS` table and
  issues HS256 JSON Web Tokens (RFC 7519, claims `sub`, `iat` and `exp`). The
  access-token secret differs from the refresh-token secret. `/me` reads the
  bearer header (section 2.1 of RFC 6750).
- **Client token layer** (`services/session.py`, `services/api.py`). Stores
  the token bundle in the keyring or in a fallback JSON file. The HTTP wrapper
  answers a 401 with one refresh and one replay.
- **Client screens** (`screens/auth.py`, `main.py`, `screens/sports.py`,
  `screens/dashboard.py`):
  - the e-mail pattern;
  - field checks in a fixed order;
  - the loader shown around every request;
  - navigation that only follows a registered screen;
  - single-slot dialogs;
  - the three-sports rule;
  - the hour-based greeting.

One module corresponds to each source file: `Backend`, `MockServer`, `Session`,
`Api`, `AuthScreens`, `AppShell`, `Sports` and `Dashboard`. `Text` holds the
Python string operations they share (`lower`, `strip`, `rstrip`, `split`,
`join`). `Hashing` holds the idealised password hasher. `EmailPattern` holds
`EMAIL_REGEX`.

Some code is stateful: the two server tables, the token store, the API
client, the screen manager, the app's dialog slots and the sport checkboxes.
It is modelled as classes whose methods change their fields, proved against
specification functions such as `Judge`, `SaveTo`, `LoadFrom`, `ClearFrom`,
`Merge` and `ActiveTexts`. Pure decisions are modelled as functions with
lemmas relating them. Examples: token verification, bearer parsing, refresh,
the field checks and the greeting.

The outside world is passed in as parameters:

- clocks are passed as `now` (whole seconds) or as a `Clock`;
- the outcome of SMTP delivery is a `Delivery`;
- HTTP responses are `Exchange` or `Outcome` values;
- token decoding is a `decode` function;
- random code digits are chosen nondeterministically.

The two servers are kept apart on purpose:

- the auth screens post to the verification server;
- the API client talks to the mock token server.

Kivy's `add_widget` puts each new child at the front of `children`. So after
`on_pre_enter` the sports sit in `children` in reverse list order, and
`confirmar_escolhas` lists the ticked ones in that order. The model keeps
this order: `Sports.PickThreeScenario` yields "Esgrima, Hóquei, Golfe".

The request schemas bound the password to 6..128 characters
(backend/app.py:180) and the code to 1..64 (backend/app.py:184). A request
outside these bounds is answered 422 before the endpoint runs. The model
handles this as a 422 path in `Backend.AuthApi.Signup` and
`Backend.AuthApi.VerifyEmail`, not as a precondition.

## Model

| member | source | states |
|---|---|---|
| Text.Lower | backend/app.py:215 | `str.lower()` maps every character independently and keeps the length |
| Text.Strip | backend/app.py:252-253 | the stripped text neither starts nor ends with whitespace and is no longer than the input |
| Text.StripIsSlice | backend/app.py:252-253 | what strip keeps is one contiguous slice of the input |
| Text.StripIdempotent | backend/app.py:253 | stripping twice is the same as stripping once |
| Text.StripOfBlank | screens/auth.py:96-97 | a string made only of whitespace strips to the empty string |
| Text.RStripChar | services/api.py:8 | `rstrip("/")` leaves a prefix with no trailing "/" and drops only "/" characters |
| Text.IndexOf | server.py:55 | finds the first occurrence of the separator, or reports that there is none |
| Text.SplitOnce | server.py:55 | `split(" ", 1)` gives the text before the first space and the text after it, which rejoin to the input |
| Text.Join | screens/sports.py:72 | `", ".join` of no items is "" and of one item is that item |
| Text.JoinSnoc | screens/sports.py:72 | appending an item to a non-empty list appends the separator and the item to the joined text |
| Hashing.Hash | backend/app.py:134-135 | the stored hash of a password under one salt; properties in `Hashing.VerifyHash` |
| Hashing.Verify | backend/app.py:137-138 | the check of a password against a stored hash; properties in `Hashing.VerifyHash` |
| Hashing.VerifyHash | backend/app.py:134-138 | a stored hash accepts the password it was made from and no other, whatever the salt |
| EmailPattern.Body | screens/auth.py:6 | the part the pattern must cover is the input without at most one final newline |
| EmailPattern.FullMatchFromValid | screens/auth.py:6 | the computed check implies a full match of `[^@\s]+@[^@\s]+\.[^@\s]+` |
| EmailPattern.ValidFromFullMatch | screens/auth.py:6 | a full match of the pattern implies the computed check |
| EmailPattern.IsEmail | screens/auth.py:6 | the computed form of `EMAIL_REGEX.match`; `EmailPattern.IsEmailIffRegexMatches` proves it equal to the regex |
| EmailPattern.IsEmailIffRegexMatches | screens/auth.py:6 | `EMAIL_REGEX.match(s)` succeeds exactly when there is one "@", a non-empty local part, no whitespace, and a "." in the domain with a character on each side |
| EmailPattern.TrailingNewline | screens/auth.py:6 | `$` lets exactly one trailing newline through |
| Backend.NormalizeEmail | backend/app.py:215 | `email.lower().strip()` is lower-case, has no surrounding whitespace and is no longer than the input |
| Backend.NormalizeIdempotent | backend/app.py:215 | normalising a normalised address changes nothing, so case and space variants land on one key |
| Backend.NormalizeFixesNormal | backend/app.py:215 | a lower-case address without surrounding whitespace is its own key |
| Backend.StripOfCode | backend/app.py:253 | a six-digit code survives the strip applied to the typed code |
| Backend.GenerateToken | backend/app.py:140-142 | `generate_token(n)` yields n characters, all decimal digits |
| Backend.Latest | backend/app.py:257-262 | the chosen row belongs to the address, and there is none exactly when the address has no rows |
| Backend.LatestHasHighestId | backend/app.py:257-262 | the last appended row is the one with the highest id for that address, as `order_by(id.desc()).first()` picks it |
| Backend.Judge | backend/app.py:257-266 | the verdict on a code: no newest row, that row expired (`expires_at < now`), a code different from its code, or accepted; its properties are `Backend.AcceptedIff`, `Backend.NewRowSupersedes`, `Backend.IssuedCodeVerifies` and `Backend.OtherAddressesUnaffected` |
| Backend.VerifyResponse | backend/app.py:263-266 | verification answers 200 exactly on acceptance and 400 otherwise |
| Backend.AcceptedIff | backend/app.py:263-266 | a code is accepted if and only if it is the newest row's code and `now <= expires_at`, so the expiry instant still counts |
| Backend.IssuedCodeVerifies | backend/app.py:232-234 | a freshly issued code verifies up to and at `now + TOKEN_TTL_MINUTES`, and is expired one second later |
| Backend.NewRowSupersedes | backend/app.py:257-266 | after a new row, any other code is refused, even one of an older unexpired row |
| Backend.OtherAddressesUnaffected | backend/app.py:257-262 | a row for one address does not change the verdict for another |
| Backend.AuthApi.constructor | backend/app.py:73-119 | both tables start empty |
| Backend.AuthApi.AddToken | backend/app.py:232-234 | appends exactly one row with a six-digit code and `expires_at = now + TTL`, and keeps the table invariants |
| Backend.AuthApi.PutPending | backend/app.py:220-229 | creates the unverified account, or overwrites only the hash and `created_at` of the unverified one |
| Backend.AuthApi.Signup | backend/app.py:213-248 | a verified account gives 400 and nothing changes; otherwise one upsert and one new row are committed before sending, and a failed send is a 500 that keeps them; accounts never disappear or lose verification |
| Backend.AuthApi.MarkVerified | backend/app.py:271-272 | sets `is_verified` on that account only |
| Backend.AuthApi.VerifyEmail | backend/app.py:250-274 | the stripped code is judged against the newest row only; success verifies the account without consuming the row; the 404 branch is unreachable because of the foreign key |
| Backend.AuthApi.ResendToken | backend/app.py:276-301 | unknown gives 404 and verified gives 400, with nothing changed; otherwise exactly one new row, committed before sending; accounts untouched |
| Backend.AuthApi.Login | backend/app.py:303-319 | unknown gives 401, unverified gives 403 whatever the password, wrong password gives 401, otherwise 200 |
| Backend.SampleNormal | backend/app.py:215 | "a@x.com" is its own key |
| Backend.SignupTwice | backend/app.py:213-248 | both signups answer 200; the second, before verification, overwrites the hash and appends a second row |
| Backend.JudgeTwoRows | backend/app.py:257-266 | with two rows, only the newer row's code is accepted |
| Backend.VerifyTwoRows | backend/app.py:250-266 | the same, through normalisation and stripping |
| Backend.SignupRetryScenario | backend/app.py:213-319 | both signups answer 200, a stale code is refused (unless it was drawn again), the newest verifies again and again, and only the new password logs in |
| MockServer.MakeToken | server.py:39-41 | a token with `sub = email`, `iat = now` and `exp = now + ttl`, signed HS256 with `secret`; its properties are `MockServer.MadeTokenVerifies`, `MockServer.MadeTokenExpires` and `MockServer.WrongSecretInvalid` |
| MockServer.IssuePair | server.py:67-70 | the access token (900 s, access secret) and the refresh token (7 days, refresh secret) for one subject |
| MockServer.IsExpired | server.py:45-48 | PyJWT's `exp` check: a token without `exp` never expires, one past `exp` has expired, and `exp == now` follows the clock's flag |
| MockServer.VerifyToken | server.py:43-50 | yields the subject only for an unexpired HS256 token made with this secret; "Token inválido" exactly when algorithm or secret is wrong; "Token expirado" exactly when the signature checks and the token has expired |
| MockServer.MadeTokenVerifies | server.py:39-50 | a made token yields its subject under its own secret until `iat + ttl` |
| MockServer.MadeTokenExpires | server.py:39-50 | after `iat + ttl` it is reported "Token expirado" |
| MockServer.WrongSecretInvalid | server.py:43-50 | under any other secret it is invalid, at any instant |
| MockServer.SecretsSeparate | server.py:10-11 | an access token is never accepted as a refresh token, and a refresh token never as an access token |
| MockServer.BearerUser | server.py:52-57 | missing, empty or non-"bearer " headers (case-insensitive) give 401 "Credenciais ausentes"; otherwise the text after the first space is verified |
| MockServer.BearerSplit | server.py:55 | when the prefix check passes, the first space is the seventh character |
| MockServer.BearerPrefix | server.py:53-55 | any spelling that lowers to "bearer " hands the rest of the header to verification |
| MockServer.BearerSchemeCaseInsensitive | server.py:53 | "Bearer ", "BEARER " and "bearer " are handled alike |
| MockServer.SchemeSpellings | server.py:53 | the three spellings lower to "bearer " |
| MockServer.BearerWithoutSpaceRefused | server.py:53-54 | "Bearer" without a space and other schemes are refused before any token is read |
| MockServer.Refresh | server.py:82-88 | succeeds exactly when the token verifies under the refresh secret, and then returns a new pair for the same subject issued now; otherwise passes the failure on |
| MockServer.RefreshRotates | server.py:82-88 | the returned refresh token itself refreshes, for the same subject |
| MockServer.RefreshDoesNotRevoke | server.py:82-88 | the presented refresh token keeps working until it expires |
| MockServer.RefreshRefusesAccessTokens | server.py:84 | an access token never refreshes |
| MockServer.Server.constructor | server.py:23 | `USERS` starts empty |
| MockServer.Server.Signup | server.py:59-70 | a taken address gives 400 and `USERS` stays the same; otherwise exactly that key is added and a fresh pair issued |
| MockServer.Server.Login | server.py:72-80 | tokens exactly for a registered address with the right password; every failure is the same 401 |
| MockServer.Server.Forgot | server.py:90-96 | `{"status": "ok"}` on both branches |
| MockServer.Server.Me | server.py:98-101 | a profile exactly when the bearer subject is registered; bearer failures pass through; otherwise a 500 |
| MockServer.Server.ForgotDoesNotEnumerate | server.py:90-96 | a known and an unknown address get the same "ok" |
| MockServer.Server.LoginDoesNotEnumerate | server.py:74-76 | an unknown address and a wrong password get the identical 401 |
| MockServer.Server.LoginIssuesRegistered | server.py:77-80 | login only mints tokens whose subject is registered |
| MockServer.Server.RefreshKeepsRegistered | server.py:82-88 | a refresh of a registered subject's token mints tokens of a registered subject |
| MockServer.Server.MeNeverMisses | server.py:98-101 | for a registered subject's bearer token, `/me` is 200 or 401, never the 500 of a missed lookup |
| MockServer.SignupThenMe | server.py:59-101 | `USERS` only grows, so a signed-up subject keeps being found by `/me` after others sign up |
| Session.OrEmpty | services/session.py:24-25 | `None` is written to the keyring as "" |
| Session.Password | services/session.py:35-36 | a missing keyring entry reads as `None` |
| Session.Field | services/session.py:44 | a missing name and `null` in the file both read as `None` |
| Session.SaveTo | services/session.py:21-30 | writes both keyring entries, or rewrites the whole file, and leaves the other backend alone |
| Session.LoadFrom | services/session.py:32-44 | the two keyring entries, or the file's two fields, or the empty bundle without a file; its properties are the round-trip and clear lemmas below |
| Session.ClearFrom | services/session.py:46-60 | removes both keyring entries when the keyring is in use, and always removes the file |
| Session.EntriesDiffer | services/session.py:24-25 | the two entry names differ, so the writes do not clobber each other |
| Session.KeyringRoundTrip | services/session.py:21-37 | on the keyring, load after save returns the bundle with `None` turned into "" |
| Session.FileRoundTrip | services/session.py:28-44 | on the file, load after save returns the same bundle |
| Session.ClearEmpties | services/session.py:32-60 | after clear, load returns the empty bundle on either backend, and clear is idempotent |
| Session.ClearRemovesFallback | services/session.py:54-60 | the file is removed even while the keyring is in use |
| Session.SaveTouchesOneBackend | services/session.py:21-30 | a save changes only the backend in use |
| Session.TokenStore.constructor | services/session.py:14-19 | the stores as given |
| Session.TokenStore.SetKeyringAvailable | services/session.py:14-19 | each call decides the backend again |
| Session.TokenStore.Save | services/session.py:21-30 | the new stores are `SaveTo` of the old |
| Session.TokenStore.Load | services/session.py:32-44 | returns `LoadFrom` of the stores, with the empty bundle when there is no file |
| Session.TokenStore.Clear | services/session.py:46-60 | the new stores are `ClearFrom` of the old, with the loop over the two entries |
| Api.StringField | services/api.py:33 | `data.get(name)` for a token field: a string field yields that string, and anything else reads as absent (see "Left out") |
| Api.Merge | services/api.py:20-23 | a field is replaced only by a truthy value |
| Api.MergeKeeps | services/api.py:20-24 | falsy values never erase a token, saving is idempotent, and a held access token stays held |
| Api.RefreshAccepted | services/api.py:26-38 | the refresh succeeds when a refresh token is held and the answer is a 2xx whose body is a JSON object |
| Api.Deliver | services/api.py:49-54 | a transport error becomes `(0, {"error": "Falha de rede: ..."})`, a parsed body is returned as is, and only unparsable JSON raises |
| Api.ApiClient.constructor | services/api.py:7-9 | trailing "/" characters are cut from the base URL, and the bundle is what the store loads |
| Api.ApiClient.Authorized | services/api.py:11-13 | `authorized`: the access token is present and non-empty; `Api.ApiClient.AuthHeaders` ties it to the header |
| Api.ApiClient.AuthHeaders | services/api.py:11-18 | the bearer header is present exactly when authorized (non-empty access token), and is then "Bearer " + access |
| Api.ApiClient.Save | services/api.py:20-24 | truthy values are merged, and the store is written exactly when one was truthy |
| Api.ApiClient.RefreshIfNeeded | services/api.py:26-38 | no refresh token means no call; success saves what came back; any failure clears the store and empties the bundle |
| Api.ApiClient.Request | services/api.py:40-54 | headers only with `require_auth`; a 401 on such a request causes at most one refresh and one replay; without a refresh token there is no further call and nothing changes; a failed refresh returns the original 401 after clearing the store and emptying the bundle; any other answer is returned unchanged with the state untouched |
| Api.ApiClient.SaveIssued | services/api.py:58-60 | only a 200 with a JSON object saves tokens |
| Api.ApiClient.Login | services/api.py:57-61 | tokens are kept only from a 200 with a JSON object; a 200 with any other body raises and keeps the state |
| Api.ApiClient.Signup | services/api.py:63-67 | tokens are kept only from a 200 with a JSON object; a 200 with any other body raises and keeps the state |
| Api.ApiClient.Forgot | services/api.py:69-70 | one unauthenticated call with the e-mail as a query parameter; nothing saved |
| Api.ApiClient.Me | services/api.py:72-73 | the authenticated call, with the refresh-and-replay rule and the new state on every path: replay after a good refresh, cleared store after a failed one, untouched state without a 401 or a refresh token |
| Api.ApiClient.Logout | services/api.py:75-77 | the store is cleared and the client is no longer authorized |
| Api.LoginAuthorizes | services/api.py:57-61 | a login answer carrying both tokens replaces the bundle with them |
| Api.ExpiredAccessScenario | services/api.py:40-54 | an expired access token plus a working refresh: three calls, the replay carries the new token, and the new pair is persisted |
| AppShell.Toggled | main.py:312-314 | "Light" goes to "Dark" and everything else goes to "Light" |
| AppShell.ToggleTwice | main.py:312-314 | toggling twice restores exactly "Light" and "Dark" |
| AppShell.RootManager.Build | main.py:100-122 | exactly the nine screens, in order, with current "login" |
| AppShell.RootManager.AddScreen | main.py:105-116 | appends a new, unique screen name; the first one added becomes current |
| AppShell.RootManager.SetCurrent | main.py:120 | current becomes a registered name |
| AppShell.RootManager.SetVerifyEmail | screens/auth.py:80-81 | sets the verify screen's address and nothing else |
| AppShell.MyApp.constructor | main.py:63-64 | no root and both dialog slots empty |
| AppShell.MyApp.Start | main.py:69-98 | light theme and a freshly built root on "login" |
| AppShell.MyApp.SwapRoot | main.py:204-216 | the new root keeps the previous screen if registered, else "login", so current is always registered |
| AppShell.MyApp.Reload | main.py:190-193 | a rebuilt root stays on the screen being shown |
| AppShell.MyApp.Toast | main.py:222-248 | the message is shown and nothing else changes |
| AppShell.MyApp.NotifyError | main.py:251-272 | the old error dialog is dismissed before the new one opens, so at most one is open |
| AppShell.MyApp.TapOutsideError | main.py:259-272 | a dialog closed by a tap outside it leaves the slot set |
| AppShell.MyApp.DismissErrorDialog | main.py:275-278 | nothing happens on an empty slot; otherwise the dialog is dismissed and the slot cleared |
| AppShell.MyApp.ShowLoader | main.py:280-305 | an open loader only changes its label; never two loaders |
| AppShell.MyApp.HideLoader | main.py:307-310 | nothing happens on an empty slot; otherwise the loader is dismissed and the slot cleared |
| AppShell.MyApp.ToggleTheme | main.py:312-314 | the theme becomes `Toggled` of the old one |
| AppShell.MyApp.Goto | main.py:323-334 | a registered name is shown; an unknown name, or no root, opens a "Navegação" dialog and keeps the screen |
| AppShell.EsportesUnregistered | main.py:112 | "esportes" is not among the registered screens |
| AppShell.NavigationScenario | main.py:323-334 | going to "esportes" does not leave "home", and a reload keeps "dashboard" |
| AuthScreens.LoginProblem | screens/auth.py:31-33 | a complaint exactly when the e-mail or the password is empty |
| AuthScreens.SignupProblem | screens/auth.py:58-66 | the first failing check in the order pattern, length, confirmation, and only that one |
| AuthScreens.TypedCode | screens/auth.py:96 | `(token or "").strip()` has no surrounding whitespace |
| AuthScreens.VerifyProblem | screens/auth.py:96-102 | the code is checked before the address, both before any request |
| AuthScreens.BlankCodeIsMissing | screens/auth.py:96-99 | a whitespace-only code is refused as missing |
| AuthScreens.Conclude | screens/auth.py:45-54 | a success status toasts and navigates; another status or an exception opens one error dialog; the loader is hidden on every path |
| AuthScreens.DoLogin | screens/auth.py:30-54 | empty fields send nothing; only a 200 goes to "home"; the loader is hidden afterwards |
| AuthScreens.CreateAccount | screens/auth.py:57-89 | a failing check sends nothing; a 200 or 201 toasts, hands the address to "verify" and shows it; another status or an exception opens its error dialog and keeps the screen; the loader is hidden |
| AuthScreens.VerifyToken | screens/auth.py:95-123 | sends the stripped code with the screen's address; only a 200 toasts and goes to "login"; another status or an exception opens its error dialog; the loader is hidden |
| AuthScreens.ResendToken | screens/auth.py:125-148 | needs the screen's address, never navigates, and hides the loader |
| AuthScreens.SendReset | screens/auth.py:152-159 | an invalid address is refused; a valid one gets the same notice and goes to "login", with no request |
| AuthScreens.SampleAddress | screens/auth.py:6 | "a@x.com" passes the pattern |
| AuthScreens.SampleCode | screens/auth.py:96 | "123456" has nothing to strip |
| AuthScreens.SignupFlowScenario | screens/auth.py:57-89 | a mismatched confirmation sends nothing, and the corrected form reaches "verify" with the address |
| AuthScreens.VerifyFlowScenario | screens/auth.py:95-123 | a refused code keeps the screen and an accepted one goes to "login" |
| Sports.CheckboxItem.constructor | components/checkbox_item.py:7-10 | a new row starts unticked |
| Sports.CheckboxItem.OnActive | components/checkbox_item.py:25-26 | the row follows its checkbox |
| Sports.Container.constructor | screens/sports.py:47 | an empty `lista_esportes` |
| Sports.Container.ClearWidgets | screens/sports.py:52 | the container is emptied |
| Sports.Container.AddWidget | screens/sports.py:54 | the new child goes to the front of `children` |
| Sports.ActiveTexts | screens/sports.py:64-67 | the selection is never longer than the list |
| Sports.ActiveTextsAppend | screens/sports.py:64-67 | the selection of a concatenation is the concatenation of the selections |
| Sports.NoneTickedSelectsNothing | screens/sports.py:64-67 | nothing ticked selects nothing |
| Sports.ActiveTextsAreTicked | screens/sports.py:64-67 | every selected text belongs to a ticked row |
| Sports.FirstThreeSelected | screens/sports.py:64-67 | with exactly the first three rows ticked, the selection is their three texts |
| Sports.Populate | screens/sports.py:52-54 | the container holds exactly one new, unticked, distinct row per name, in reverse of the added order |
| Sports.ChooseSportsScreen.constructor | screens/sports.py:47 | the screen's container, or none |
| Sports.ChooseSportsScreen.OnPreEnter | screens/sports.py:9-56 | without a container, only the error toast; with one, exactly the 28 sports, unticked, then the prompt |
| Sports.ChooseSportsScreen.Selected | screens/sports.py:64-67 | the loop collects exactly `ActiveTexts` of the children |
| Sports.ChooseSportsScreen.ConfirmarEscolhas | screens/sports.py:58-73 | no container never navigates; fewer than three gives only a toast; three or more toasts the joined names and goes to "home" |
| Sports.Tick | components/checkbox_item.py:25-26 | ticking one row leaves every other row as it was |
| Sports.JoinThree | screens/sports.py:72 | joining three names puts the separator between each pair |
| Sports.BottomThreeJoined | screens/sports.py:72 | the three bottom sports join to "Esgrima, Hóquei, Golfe" |
| Sports.NothingTickedScenario | screens/sports.py:9-70 | right after entering, confirming stays on the screen |
| Sports.ConfirmUnticked | screens/sports.py:64-70 | with nothing ticked, confirming says too few and keeps the screen |
| Sports.TickBottomThreeAndConfirm | screens/sports.py:64-73 | ticking three rows and confirming lists them in `children` order and goes to "home" |
| Sports.PickThreeScenario | screens/sports.py:9-73 | after entering, ticking the bottom three rows is enough |
| Dashboard.Greeting | screens/dashboard.py:13-19 | "Bom dia" exactly for 5..11, "Boa tarde" exactly for 12..17, "Boa noite" for every other hour |
| Dashboard.GreetingChangesAt | screens/dashboard.py:14-19 | over a day the greeting changes only at 5, 12 and 18 |
| Dashboard.SearchQuery | screens/dashboard.py:67-70 | the reported query is the stripped text, or "vazio" when there is no field or only whitespace; it is never empty |
| Dashboard.SearchIgnoresPadding | screens/dashboard.py:68 | surrounding whitespace does not change the query |
| Dashboard.BlankSearchIsEmpty | screens/dashboard.py:68-70 | a whitespace-only field reads like no field at all |
| Dashboard.DashboardScreen.constructor | screens/dashboard.py:8-9 | greeting "Olá" and name "Carol" |
| Dashboard.DashboardScreen.OnPreEnter | screens/dashboard.py:11-24 | the greeting follows the hour; the name changes only for a non-empty `current_user_name` |
| Dashboard.DashboardScreen.OpenSearch | screens/dashboard.py:33-64 | the dialog is open, or reopened |
| Dashboard.DashboardScreen.ConfirmSearch | screens/dashboard.py:66-72 | toasts "Buscando por: " with the query, then closes the dialog |

## Left out

- SMTP delivery (`send_email`) is left out as network I/O. Only its outcome, delivered or failed after the commit, is an input.
- The SQLAlchemy engine, sessions, transactions and schema creation are left out as database plumbing, along with `backend/test_mysql.py` and `backend/test_smtp.py`. The tables are a map and a sequence, and a commit is the assignment.
- Environment configuration (`getenv_*`, `.env`): `TOKEN_TTL_MINUTES` is its default of 10.
- passlib bcrypt and bcrypt_sha256 are idealised as salted and collision-free. The 72-byte limit and the real digests are not modelled.
- PyJWT and HMAC-SHA256 are left out as foreign crypto. Tokens are decoded records, and a signature checks against exactly the key that made it.
- The text-to-record decoding of tokens is a `decode` parameter. PyJWT's checks on `iat` and on malformed claim types are not modelled.
- The expiry boundary (`exp == now`) is a `Clock` flag because it depends on the PyJWT version.
- Pydantic's `EmailStr` validation and normalisation of addresses are not modelled. Addresses reach the endpoints as given.
- On both servers, the schema bounds and the resulting 422 are modelled only for the password and code lengths of the verification server.
- httpx and requests transport, timeouts, content-type sniffing and JSON decoding are left out. Each response is an input: its status and parsed body, or the detail text the screen shows.
- The JSON request payloads of `services/api.py` (`json=...`) and the `name` field of the client's signup are not part of `Call`. Only the verb, URL, query and headers are recorded.
- Keyring and file I/O errors are left out. The keyring and the file are abstract stores.
- The hot-reload watcher (`_start_hot_reload`, `_scan_py_mtime`, `_poll_changes`) is left out: it polls file modification times on a Kivy clock. Only its effect, rebuilding and swapping the root (`AppShell.MyApp.Reload`), is modelled.
- KV file loading, widget rendering, snackbars, the Android toast, dialog widgets, spinners, icons, theme palettes and debug logging are left out as UI rendering. A toast is a message appended to what the user has seen.
- The unreachable lines after the `return` in `_build_root` (main.py:124-128) are not modelled.
- `screens/esportes.py`, `screens/home.py` and `screens/shell.py` are not part of this model. They duplicate the sports rule or only wire kv ids, and the esportes screen is not registered.
- FastAPI routing, CORS and the startup logs are left out.
- The `Clock.schedule_once` prompt in `on_pre_enter` is modelled as shown immediately after the refill.
- The search dialog's text field and buttons are not modelled. The field is an optional text.
- The local hour and the app's `current_user_name` are inputs: `MyApp` defines no such attribute.
- Text.Lower covers only the ASCII and Latin-1 upper-case letters. Python's full Unicode case mapping is not modelled.
- Backend.AuthApi.Valid does not state that account keys are normalised. The endpoints only ever store normalised keys, but the invariant does not record it.
- Backend.SignupRetryScenario is stated for any address that is already normal, not for every address.
- Text.Strip states only the shape of its result. That it is a slice of the input is the separate lemma `Text.StripIsSlice`.
- Api.StringField reads a token field that is not a JSON string as absent. In the source, `data.get` hands back any JSON value, and `_save` would keep a truthy number, boolean, list or object and pass it to `save_tokens`. Both servers only ever send the tokens as strings, and the bundle holds only strings.
