# DamaFashion admin panel: session, gateway, guards and page logic in Dafny

This project models the logic core of a browser-based inventory admin panel
written in Next.js/TypeScript. Most of the panel moves data between forms,
tables and a REST server. The part with real behaviour is modelled here:

- **Session** (`session.dfy`, from `src/context/AuthContext.tsx`): the
  `AuthProvider` state. It holds the `user` and `loading` cells and shares the
  browser's `'token'` storage slot (`credential_store.dfy`) with the gateway.
  It has three operations: start-up restore (`checkAuth`), `login` and
  `logout`. `isAuthenticated` is derived as "a user is present".
- **Request gateway** (`gateway.dfy`, from `src/services/api.ts`). The request
  interceptor attaches `Authorization: Bearer <token>` when a non-empty token
  is stored. The response interceptor clears the token on HTTP 401 and sends
  the browser to `/auth/login`. Every error is still rejected. The session's
  calls to `/auth/login` and `/users/me` go through this gateway.
- **Route guards** (`protected_layout.dfy`, `protected_admin_layout.dfy`):
  total decision functions from (`loading`, `isAuthenticated`, role) to a view
  and an optional redirect. The view is the spinner, nothing, or the children
  inside the navigation shell.
- **Form validators** (`validators.dfy`, from `src/utils/validators.ts`): the
  patterns of `isAlphanumeric` and `isStrongPassword` are written as matchers
  that follow the pattern, each proved equal to a rule stated over the
  characters of the input. The e-mail pattern is stated as a predicate on the
  positions of its `@` and `.`; `isValidEmail` is computed by locating them
  and is proved to accept exactly the strings of that predicate.
- **Toast list** (`toasts.dfy`, from `src/hooks/useToast.ts`): append by id and
  remove by id, as a class over a sequence.
- **Pages**: the users page's admin gate, form schema, list updates and
  handlers (`users_page.dfy`). The stock page's status badge and product-name
  lookup (`stock_page.dfy`). The dashboard's statistics (`dashboard.dfy`).

Server answers are parameters (`Gateway.Reply`): either a value, or a failure
carrying the HTTP status (no status when no response arrived). Router
navigation is recorded in `AuthProvider.route`. Assignments to
`window.location.href` are recorded in `ApiClient.location`.

Two behaviours of the code are worth knowing:

- Login does not discard a token it already stored. If `/auth/login` succeeds
  and `/users/me` then fails with anything but 401, the new token stays
  stored. A 401 is cleared by the gateway, not by `login`.
- "Authenticated implies a token is stored" is not kept by the code. A server
  that returns an empty token still leads to a signed-in user, with a token
  that every later check treats as absent. A 401 on any later call clears the
  token, but `user` stays set until the page reloads.

## Model

| member | source | states |
|---|---|---|
| `CredentialStore.TokenSlot.GetItem` | src/context/AuthContext.tsx:25 | reading the slot returns the stored token and changes nothing |
| `CredentialStore.TokenSlot.SetItem` | src/context/AuthContext.tsx:43 | storing a token overwrites the single slot |
| `CredentialStore.TokenSlot.RemoveItem` | src/context/AuthContext.tsx:55 | removing empties the slot, whatever it held |
| `Gateway.Bearer` | src/services/api.ts:18 | the header is 7 characters longer than the token; it starts with `Bearer ` and dropping those 7 characters gives the token back |
| `Gateway.WithBearer` | src/services/api.ts:16-21 | with a non-empty token, Authorization is added with exactly `Bearer <token>` and nothing else changes; with no token or an empty one, the headers are returned as they were |
| `Gateway.OnRequestError` | src/services/api.ts:23-25 | a request-stage error is rejected unchanged |
| `Gateway.ApiClient.constructor` | src/services/api.ts:5-10 | the client is bound to the shared storage slot, and no navigation has happened |
| `Gateway.ApiClient.OnRequest` | src/services/api.ts:14-22 | the same config comes back; its headers are `WithBearer` of the token stored at that moment, and its URL is unchanged |
| `Gateway.ApiClient.OnResponse` | src/services/api.ts:30-32 | a successful response passes through unchanged; nothing is modified |
| `Gateway.ApiClient.OnResponseError` | src/services/api.ts:33-42 | every error is rejected unchanged; on 401 the token is removed and the location becomes `/auth/login`; any other error, or one with no response, leaves the token and the location alone |
| `Gateway.ApiClient.Send` | src/services/api.ts:13-43 | a whole call: the Authorization header sent reflects the token stored at dispatch; the caller gets the server's outcome unchanged; the storage effect of a 401 is as in `OnResponseError` |
| `Gateway.BearerRoundTrip` | src/services/api.ts:18 | the header a request carries starts with the prefix, and the token is recovered by dropping it |
| `Gateway.BearerInjective` | src/services/api.ts:18 | different tokens give different headers |
| `Session.AuthProvider.constructor` | src/context/AuthContext.tsx:18-21 | a fresh provider has no user, is loading, has navigated nowhere and is not authenticated |
| `Session.AuthProvider.IsAuthenticated` | src/context/AuthContext.tsx:67 | `!!user`: authenticated iff a user is present |
| `Session.AuthProvider.CheckAuth` | src/context/AuthContext.tsx:23-38 | `/users/me` is called iff a non-empty token is stored, and then carries `Bearer <token>`; with no call no header is returned. With no call, user, token and location are unchanged. After a successful fetch the user is the fetched one and the token is kept. After a failed fetch the token is removed, the user is unchanged and nothing is rethrown; a 401 also goes to the login location. Loading is false on every path |
| `Session.AuthProvider.Login` | src/context/AuthContext.tsx:40-52 | loading never changes. If `/auth/login` fails, the error is rethrown and user and route are unchanged; a 401 clears the token and sets the location to `/auth/login`, any other failure leaves both alone. On success the token is stored before `/users/me`, which carries `Bearer <token>` (no header for an empty token). If that fetch then fails, the error is rethrown and user and route are unchanged; on a 401 the token is cleared and the location becomes `/auth/login`, otherwise the new token stays stored and the location is unchanged. If both succeed, the user is set, the token kept, the location unchanged and the route becomes `/dashboard` |
| `Session.AuthProvider.Logout` | src/context/AuthContext.tsx:54-58 | the token is removed, the user is absent, the route is `/auth/login` and loading is unchanged, from any state |
| `Session.LogoutTwice` | src/context/AuthContext.tsx:54-58 | two logouts leave the same state as one |
| `Session.RestoreWithoutToken` | src/context/AuthContext.tsx:24-35 | start-up with no stored token makes no call and ends anonymous and no longer loading |
| `Session.RestoreWithToken` | src/context/AuthContext.tsx:24-35 | start-up with a token ends as the fetched user with the token kept, or anonymous with the token removed (and at the login location on a 401) |
| `Session.LoginThenReload` | src/context/AuthContext.tsx:23-52 | after a successful login the first provider holds the logged-in user at `/dashboard`; a reloaded provider over the same storage sends `/users/me` with `Bearer <login token>` and ends as the user the server returns (token kept), or anonymous with the token removed on failure; when the server answers as at login, the restored user is the logged-in user |
| `ProtectedLayout.Decide` | src/components/ProtectedLayout.tsx:11-40 | while loading, only the spinner and no redirect; not loading and not authenticated, nothing plus a redirect to `/auth/login`; the children render iff not loading and authenticated, and then with no redirect |
| `ProtectedAdminLayout.Decide` | src/components/ProtectedAdminLayout.tsx:13-46 | while loading, the spinner and no redirect. Not loading and not authenticated: redirect to `/auth/login`. Authenticated with a role other than ADMIN, missing role included: redirect to `/dashboard`. Children render iff not loading, authenticated and role ADMIN, which is exactly when no redirect and no spinner occur; the login redirect takes precedence |
| `ProtectedAdminLayout.AdminGuardRefinesPlainGuard` | src/components/ProtectedAdminLayout.tsx:17-33 | the admin guard shows the content only when the plain guard would; it decides like the plain guard for an ADMIN, and keeps any redirect the plain guard issues |
| `ProtectedAdminLayout.RoleDecides` | src/components/ProtectedAdminLayout.tsx:21-33 | a USER is sent to the dashboard and an ADMIN is let in; with no user the content is never shown |
| `Validators.HasMinLength` | src/utils/validators.ts:16-18 | holds iff the length is at least the minimum, so always for a minimum of 0 or less |
| `Validators.IsInRange` | src/utils/validators.ts:38-40 | holds iff `min <= value <= max`, both bounds inclusive; never when `min > max` |
| `Validators.MatchAlnumRun` | src/utils/validators.ts:46 | the matcher for `[a-zA-Z0-9]+$` accepts exactly the non-empty strings of ASCII letters and digits |
| `Validators.IsAlphanumeric` | src/utils/validators.ts:45-48 | holds iff the text is non-empty and every character is an ASCII letter or digit |
| `Validators.Lookahead` | src/utils/validators.ts:55 | the lookahead `(?=.*[x])` succeeds iff a character of the class occurs with no line terminator before it |
| `Validators.DotsToEnd` | src/utils/validators.ts:55 | `.{n,}$` matches iff at least `n` characters remain and none is a line terminator |
| `Validators.IsStrongPassword` | src/utils/validators.ts:54-57 | holds iff the password has at least 8 characters, a lower-case letter, an upper-case letter and a digit, and no line terminator |
| `Validators.StrongPasswordHasMinLength` | src/utils/validators.ts:54-57 | a strong password passes `hasMinLength(p, 8)` |
| `Validators.IndexOf` | src/utils/validators.ts:9 | the first position of a character, or none when it does not occur |
| `Validators.NoWhitespace` | src/utils/validators.ts:9 | holds iff no character is in JavaScript's `\s` |
| `Validators.HasInnerDot` | src/utils/validators.ts:9 | holds iff some `.` is neither the first nor the last character |
| `Validators.AcceptedMatchesPattern` | src/utils/validators.ts:8-11 | every address the check by position accepts is `a@b.c` with non-empty runs of `[^\s@]` |
| `Validators.PatternIsAccepted` | src/utils/validators.ts:8-11 | every `a@b.c` of that form is accepted by the check by position |
| `Validators.EmailByIndexMatchesPattern` | src/utils/validators.ts:8-11 | the check by position accepts exactly the strings the regular expression matches |
| `Validators.IsValidEmail` | src/utils/validators.ts:8-11 | holds iff the address matches `/^[^\s@]+@[^\s@]+\.[^\s@]+$/`: `a@b.c` with `a`, `b`, `c` non-empty runs of characters that are neither white space nor `@` |
| `Validators.IsValidEmailCharacterized` | src/utils/validators.ts:8-11 | an address is valid iff it has no white space, no second `@`, a non-empty local part, and a `.` after the `@` that is neither first nor last in the domain |
| `Toasts.WithoutId` | src/hooks/useToast.ts:41 | the filter never grows the list; every toast left has another id and came from the list; every toast with another id is kept |
| `Toasts.WithoutIdConcat` | src/hooks/useToast.ts:41 | filtering distributes over concatenation, so kept toasts stay in order |
| `Toasts.WithoutIdCounts` | src/hooks/useToast.ts:41 | each toast with another id is kept as often as it occurred; none with the id remains |
| `Toasts.WithoutAbsentId` | src/hooks/useToast.ts:41 | removing an id no toast has leaves the list unchanged |
| `Toasts.WithoutIdIdempotent` | src/hooks/useToast.ts:41 | removing twice equals removing once |
| `Toasts.ShowThenRemove` | src/hooks/useToast.ts:30-41 | for a fresh id, showing then removing restores the earlier list |
| `Toasts.ToastList.constructor` | src/hooks/useToast.ts:24 | the list starts empty |
| `Toasts.ToastList.ShowToast` | src/hooks/useToast.ts:26-38 | exactly one toast `{message, type, id}` is appended at the end; earlier toasts are unchanged and in order; the id is returned |
| `Toasts.ToastList.RemoveToast` | src/hooks/useToast.ts:40-42 | the list becomes the filtered list and never grows |
| `UsersPage.RoleOrUser` | src/app/users/page.tsx:226 | `role \|\| 'USER'`: a non-empty role is kept, a missing or empty one becomes USER |
| `UsersPage.UserSchemaAccepts` | src/app/users/page.tsx:17-21 | an accepted form has the role USER or ADMIN; a present empty password is always rejected |
| `UsersPage.CreatePrefill` | src/app/users/page.tsx:73-79 | the create form is an empty name, an empty password and the role USER, and does not pass the schema as it stands |
| `UsersPage.EditPrefill` | src/app/users/page.tsx:84-92 | the edit form carries the user's name, an empty password, and the user's role or USER when it has none (`RoleOrUser`) |
| `UsersPage.PrefilledFormsRejected` | src/app/users/page.tsx:17-21 | neither the create form nor the edit form passes the schema as pre-filled: the empty password is present and shorter than 6 |
| `UsersPage.SchemaByParts` | src/app/users/page.tsx:17-21 | accepted forms have a username of at least 3 and a role in {USER, ADMIN}; a present password under 6 rejects; an absent password never rejects |
| `UsersPage.ToggledRole` | src/app/users/page.tsx:151 | the result is USER or ADMIN, and USER exactly when the current role is ADMIN |
| `UsersPage.ToggleInvolutive` | src/app/users/page.tsx:151 | toggling a USER or ADMIN role twice gives it back |
| `UsersPage.ReplaceById` | src/app/users/page.tsx:115 | same length; every entry with the id is the server's user, every other entry is unchanged |
| `UsersPage.ReplaceByIdProperties` | src/app/users/page.tsx:154 | replacing by an absent id changes nothing; replacing twice with a user of that id equals once |
| `UsersPage.RemoveById` | src/app/users/page.tsx:138 | no user with the id is left; every other user is kept; all kept users come from the list |
| `UsersPage.RemoveByIdConcat` | src/app/users/page.tsx:138 | removal distributes over concatenation, so the kept users stay in order |
| `UsersPage.PageGate` | src/app/users/page.tsx:163-165 | the page renders iff the current user's role is ADMIN; a signed-in non-admin (effect at lines 47-51) is sent to `/dashboard` and nothing renders |
| `UsersPage.PageRendersOnlyInsideAdminGuard` | src/app/users/page.tsx:163-168 | whenever the page renders, the admin guard around it lets the same user through |
| `UsersPage.UsersPageState.constructor` | src/app/users/page.tsx:28-35 | the page starts with the given list, no messages and no open dialog |
| `UsersPage.UsersPageState.HandleCreateUser` | src/app/users/page.tsx:73-81 | opens the form empty, with no user being edited |
| `UsersPage.UsersPageState.HandleEditUser` | src/app/users/page.tsx:84-92 | opens the form pre-filled for that user |
| `UsersPage.UsersPageState.HandleDeleteClick` | src/app/users/page.tsx:95-98 | records the pending id and opens the confirmation |
| `UsersPage.UsersPageState.Submit` | src/app/users/page.tsx:101-130 | a form the schema rejects makes no call and changes nothing. A successful edit replaces by id; a successful create appends at the end; both close the form. A failed save leaves the list, the success message and the form as they were and sets the error message |
| `UsersPage.UsersPageState.ConfirmDelete` | src/app/users/page.tsx:133-146 | with no pending id, or id 0, no call and no change. A successful delete removes every user with the id and closes the dialog. A failure only sets the error message |
| `UsersPage.UsersPageState.HandleToggleRole` | src/app/users/page.tsx:149-161 | the requested role is USER iff the user's role was ADMIN. On success the server's user replaces by id and the message names the new role. On failure the list is unchanged and the error message is set |
| `StockPage.Status` | src/app/stock/page.tsx:183-195 | above 10 is "Em estoque", above 0 up to 10 "Estoque baixo" (1 to 10 for whole quantities), 0 or below "Sem estoque"; exactly one applies |
| `StockPage.StatusMonotone` | src/app/stock/page.tsx:183-195 | a larger quantity never gets a worse status |
| `StockPage.FindProduct` | src/app/stock/page.tsx:127 | none iff no product has the id; otherwise the first product with the id |
| `StockPage.GetProductName` | src/app/stock/page.tsx:125-129 | "N/A" for a missing or zero id and for an id no product has; otherwise the name of the first product with that id |
| `StockPage.ShowsLoadingScreen` | src/app/stock/page.tsx:131-137 | the full-screen spinner shows iff loading and the stock list is empty |
| `Dashboard.LowStockItems` | src/app/dashboard/page.tsx:53 | the count never exceeds the number of records; it is positive iff some quantity is below 10, and equal to the length iff all are |
| `Dashboard.LowStockItemsConcat` | src/app/dashboard/page.tsx:53 | the count of a concatenation is the sum of the counts |
| `Dashboard.LowStockItemsSingle` | src/app/dashboard/page.tsx:53 | one record counts 1 iff its quantity is below 10; with `LowStockItemsConcat` the count is the number of records below 10 |
| `Dashboard.TotalStockItems` | src/app/dashboard/page.tsx:54 | 0 for an empty list, and non-negative when every quantity is; with `TotalStockItemsSingle` and `TotalStockItemsConcat` the total is the sum of the quantities |
| `Dashboard.TotalStockItemsSingle` | src/app/dashboard/page.tsx:54 | a single record totals its own quantity |
| `Dashboard.TotalStockItemsConcat` | src/app/dashboard/page.tsx:54 | the total of a concatenation is the sum of the totals |
| `Dashboard.LowStockCandidates` | src/app/dashboard/page.tsx:58 | every product kept has a stock below 10 and comes from the list, and every such product of the list is kept; never longer than the list |
| `Dashboard.LowStockCandidatesConcat` | src/app/dashboard/page.tsx:58 | the filter of a concatenation is the concatenation of the filters, so order and multiplicity are kept |
| `Dashboard.LowStockCandidatesSingle` | src/app/dashboard/page.tsx:58 | one product is kept iff it has a stock below 10; with `LowStockCandidatesConcat` this pins the filter |
| `Dashboard.Insert` | src/app/dashboard/page.tsx:59 | inserting into a sorted list keeps it sorted, adds exactly that product (one more entry, same multiset plus it) and nothing else |
| `Dashboard.SortByKey` | src/app/dashboard/page.tsx:59 | the result is sorted by quantity, has the input's length and members, and is a permutation of it |
| `Dashboard.Take` | src/app/dashboard/page.tsx:60 | a prefix of length `min(n, \|s\|)` |
| `Dashboard.LowStockProducts` | src/app/dashboard/page.tsx:57-60 | at most five entries and never more than the products |
| `Dashboard.PrefixOfSortedIsSmallest` | src/app/dashboard/page.tsx:59-60 | in a sorted list, nothing after a prefix is smaller than anything in it |
| `Dashboard.LowStockProductsShape` | src/app/dashboard/page.tsx:57-60 | `lowStockProducts` has `min(5, candidates)` entries, each a low-stock product of the list, in non-decreasing quantity |
| `Dashboard.LowStockProductsAreSmallest` | src/app/dashboard/page.tsx:57-60 | the entries come from the candidates, and every candidate left out has a quantity at least that of every one shown |
| `Dashboard.RecentProducts` | src/app/dashboard/page.tsx:161 | the first `min(5, n)` products in original order |
| `Dashboard.SupplierIds` | src/app/dashboard/page.tsx:121 | the distinct supplier ids, a missing one counting as one value; never more than the products, and at least one for a non-empty list |
| `Dashboard.ComputeStats` | src/app/dashboard/page.tsx:51-129 | the product count is the list length; the stock total is `TotalStockItems`, the low-stock count `LowStockItems` and the supplier count the size of `SupplierIds`; the low-stock count is at most the stock count and the supplier count at most the product count; the alert shows iff some quantity is below 10; an empty stock list gives total 0 and no alert |
| `Dashboard.ThresholdsDiffer` | src/app/dashboard/page.tsx:53 | a quantity of exactly 10 is "Estoque baixo" on the stock page but is not counted as low on the dashboard |

## Left out

- Asynchronous timing: each async handler is one atomic step. Overlapping logins or restores, `Promise.all` fan-out and stale closures over `users` are not modelled.
- Timers and the clock: the toast auto-dismiss and the clearing of success messages after 3 seconds (`setTimeout`) are left out. `Date.now()` as toast id becomes a parameter.
- `typeof window !== 'undefined'` in the gateway is taken as true: the browser case. Server-side rendering is out of scope.
- `useAuth` throwing outside a provider is left out. It is an error in how components are wired, not session logic.
- The HTTP service wrappers (`authService`, `userService`, …) are left out; only their outcomes appear, as `Reply` parameters. Joining the base URL `http://192.168.68.105:8080/api` with each path is not modelled.
- The users page's calls also go through the gateway. Their 401 effect on the token is modelled only inside `Gateway.ApiClient.Send`, not composed into the page handlers.
- The page-load fetches (`fetchUsers`, the stock and dashboard `fetchData`) and their `loading`/`error` cells are I/O and are left out. The stock page's save and delete handlers and its `stockSchema` are form plumbing and are left out too.
- `isNumber` and `isPositiveInteger` rely on JavaScript number coercion, NaN, Infinity and floating point, so they are left out.
- Product prices (`toFixed`) and the category-name lookup in the recent-products table are left out.
- JSX, styling, icons, React rendering, the Next router and the hard page load caused by `window.location.href` are left out. Navigation is recorded as a value only. A reload is modelled by building a new provider over the same storage, in `Session.LoginThenReload`.
- Validators.HasMinLength: the minimum is a JavaScript number and is modelled as an integer; a fractional or NaN minimum (NaN makes the test false) is not modelled.
- Validators.IsInRange: the value and both bounds are JavaScript numbers and are modelled as integers; fractions and NaN (which makes the test false) are not modelled.
- StockPage.Status: stock quantities are JavaScript numbers and are modelled as integers (`Types.Stock`), so a fractional quantity such as 0.5, which the page shows as "Estoque baixo", is outside the model; the same holds for the dashboard's sums and counts.
- Session.AuthProvider.CheckAuth: a `localStorage` that throws is not modelled. In the code a throw from `getItem`, or from `removeItem` inside the `catch`, ends `checkAuth` before `setLoading(false)`, leaving `loading` true; the model's storage never fails, so loading always ends.
- Validators: JavaScript's `length` counts UTF-16 code units. A character outside the Basic Multilingual Plane counts as two there and as one here.
- UsersPage.UserSchemaAccepts, UsersPage.SchemaByParts: zod's `min(3)` and `min(6)` also count UTF-16 code units, while the model counts characters, so a username such as "a😀" (length 3 in JavaScript) passes the source's rule and fails the model's.
- Dashboard.SortByKey: proved sorted and a permutation. It is a stable insertion sort, as JavaScript's `sort` is, but stability is not stated as a property.
