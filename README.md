# Admin console session and form logic, in Dafny

This project models the logic of an administrative console for user accounts
and wallet transactions, a React application. It covers:

- **The session lifecycle** (`AuthProvider`, module `AuthContext`). On mount the provider verifies
  the stored access token with GET `/test-token`. If that fails and a refresh
  token is stored, it calls POST `/refresh-token` once, stores the returned pair
  and verifies again. The outcome either navigates (to `/dashboard` or
  `/login`) or ends the loading state. The module also has `handleAuthFailure`,
  `login`, `logout` and the loading gate in front of the children. Browser
  state is fields: the two `localStorage` tokens, the current path and the last
  navigation target. Every request the provider sends is appended to a request
  log. The outcome of each request is a parameter, so every branch can be
  stated.
- **The transaction list** (module `UserTransactions`): the sign filter, 30 items per page,
  the previous/next handlers, the page reset when the filter changes, and the
  "Showing a-b of n" label.
- **The user forms** (modules `FieldRules`, `Forms`, `AddUser`, `EditUser`, `ChangePassword`,
  `ChangePin`): field validators with their exact messages and precedence, the
  e-mail pattern written out by hand, whole-form validation, field edits, the
  submit guards and the request bodies.
- **The dashboard search** (module `Dashboard`): a case-insensitive filter on username or e-mail,
  and the "N/A" placeholder.

Each pure decision (a filter, a validator, a payload) is a function, with
lemmas about what it means. Each page's state that the source changes in place
is a class. Its methods follow the source statement by statement. Their
`ensures` clauses give the new state, either directly or as a step function of
the old state (`State() == MountEffect(old(State()), ...)`). The lemmas about
those step functions state the properties of the protocol.

Some behaviour of the code differs from what one might expect. The model
follows the code:

- `login` stores both returned tokens before it checks the status. A resolved
  response with a status other than 200 throws with the new tokens already
  stored (`AuthContext.LoginStoresBeforeStatusCheck`).
- On the login page, suppose the refresh succeeds and the second verification
  fails. The refreshed pair stays stored, and the login page renders
  (`AuthContext.MountPublicKeepsUnverifiedPair`).
- The second verification always sends `Bearer <token>`. The first sends an
  empty header when no token is stored. An empty stored token counts as
  missing, because of JavaScript truthiness.
- A 100-character username passes although its message says "less than 100".
  A PIN is any four characters: there is no digit check.
- An ADMIN role whose id is 0 blocks the submit, as a missing role does.
- The page reset runs only when the filter actually changes. A refetch does not
  reset the page. If the list shrinks, the current page can lie past the last
  one: it shows nothing, its label reads "Showing 31-10 of 10", and there are
  no buttons to go back (`UserTransactions.RefetchCanStrandPage`).

## Model

| member | source | states |
|---|---|---|
| `AuthContext.AuthorizationHeaderRoundTrip` | src/context/AuthContext.tsx:32-34 | `AuthorizationHeader`, the first verification's header, carries the stored token in the bearer scheme (section 2.1 of RFC 6750) and is empty exactly when no non-empty token is stored |
| `AuthContext.BearerCredential` | src/context/AuthContext.tsx:63 | a credential read back from a bearer header is what follows the `Bearer ` prefix |
| `AuthContext.MountFirstVerifyAccepted` | src/context/AuthContext.tsx:36-42 | first verification accepted (the step `Verified`): on a public path, navigation to `/dashboard` with `loading` still true and not authenticated; elsewhere `loading` false and authenticated; tokens untouched, one request sent |
| `AuthContext.MountRefreshesAtMostOnce` | src/context/AuthContext.tsx:44-79 | the mount effect `MountEffect` sends one to three requests, verification first; refresh is called exactly once when the first verification failed and a non-empty refresh token is stored, with that token, and otherwise never |
| `AuthContext.MountRefreshRotatesTokens` | src/context/AuthContext.tsx:55-72 | after a successful refresh, the stored pair is exactly the returned pair and the re-verification carries the new access token; a failed re-verification on a protected path clears both tokens and navigates to `/login` |
| `AuthContext.MountPublicKeepsUnverifiedPair` | src/context/AuthContext.tsx:44-91 | on `/login`, a refresh that succeeded followed by a failed re-verification leaves the new pair stored, stops loading, and neither authenticates nor navigates |
| `AuthContext.AuthFailurePolicy` | src/context/AuthContext.tsx:83-91 | `AuthFailure`, the model of `handleAuthFailure`: on a public path only `loading` becomes false; on a protected path both tokens are removed and the target is `/login`, with `loading` and `isAuthenticated` unchanged |
| `AuthContext.MountDecidedByOutcomes` | src/context/AuthContext.tsx:26-91 | from a fresh page load, for every combination of request results: the session is authenticated exactly when the results confirm it (first verification accepted, or a refresh that succeeded followed by an accepted re-verification) on a protected path; a confirmed session on a public path navigates to `/dashboard`; every other combination (no refresh token, rejected refresh, failed re-verification) runs `handleAuthFailure`, which on a protected path clears both tokens and navigates to `/login` and on a public path renders in place; the tokens change only after a successful refresh, to the returned pair |
| `AuthContext.MountOutcomes` | src/context/AuthContext.tsx:26-91 | from a fresh page load a mount ends in one of four outcomes; the two successful ones are reached exactly when the request results confirm the session; children render exactly when no navigation was issued; on a protected path they render only when authenticated |
| `AuthContext.MountStaleTokenWithoutRefresh` | src/context/AuthContext.tsx:26-91 | stale token, no refresh token, on `/dashboard`: one verification with `Bearer stale`, no refresh, storage cleared, navigation to `/login` |
| `AuthContext.MountNoTokensOnLogin` | src/context/AuthContext.tsx:26-91 | no tokens on `/login`: one verification with an empty header, and the login page renders in place without navigation |
| `AuthContext.LoginRejectsEmptyCredentials` | src/context/AuthContext.tsx:93-106 | an empty phone or password throws "Invalid credentials", sends nothing and changes nothing |
| `AuthContext.LoginStoresBeforeStatusCheck` | src/context/AuthContext.tsx:93-106 | `LoginStep`, the model of `login`: with both credentials, one request is sent; a resolved response stores both returned tokens whatever its status; only status 200 authenticates; another status throws; a rejected request throws and stores nothing |
| `AuthContext.LogoutClearsAndIsIdempotent` | src/context/AuthContext.tsx:108-113 | `LogoutStep`, the model of `logout`, de-authenticates, removes both tokens even if only one was stored, and navigates to `/login`; a second logout changes nothing |
| `AuthContext.AuthProvider.constructor` | src/context/AuthContext.tsx:22-24 | a page load starts with `loading` true, not authenticated, storage as found |
| `AuthContext.AuthProvider.ShowsChildren` | src/context/AuthContext.tsx:115-132 | children are rendered exactly when `loading` is false |
| `AuthContext.AuthProvider.OnVerified` | src/context/AuthContext.tsx:37-42 | a successful verification updates the state as `Verified` says |
| `AuthContext.AuthProvider.HandleAuthFailure` | src/context/AuthContext.tsx:83-91 | the state after `handleAuthFailure` is `AuthFailure` of the state before |
| `AuthContext.AuthProvider.Mount` | src/context/AuthContext.tsx:26-80 | the state after the mount effect, request log included, is `MountEffect` of the state before and the request outcomes |
| `AuthContext.AuthProvider.Login` | src/context/AuthContext.tsx:93-106 | the state after `login` and whether it threw are `LoginStep` of the state before |
| `AuthContext.AuthProvider.Logout` | src/context/AuthContext.tsx:108-113 | the state after `logout` is `LogoutStep` of the state before |
| `Seqs.Filter` | src/pages/UserTransactions.tsx:89-98 | `filter` keeps exactly the elements satisfying the predicate, each as many times as it occurs in the source, and drops the others entirely; the list never grows |
| `Seqs.FilterIsSubsequence` | src/pages/Dashboard.tsx:66-70 | a filtered list is an order-preserving subsequence of its source |
| `Seqs.FilterKeepsAll` | src/pages/UserTransactions.tsx:95-96 | a predicate true of every element gives the list back unchanged |
| `FieldRules.LengthMessage` | src/pages/AddUser.tsx:72-74 | a length check accepts exactly `min..max` inclusive; the too-short message takes precedence over the too-long one |
| `FieldRules.IndexOf` | src/pages/AddUser.tsx:77 | the position of the first occurrence of a character, or the length when it does not occur |
| `FieldRules.EmailRuleMatchesRegex` | src/pages/AddUser.tsx:76-80 | the e-mail rule in words `IsValidEmail` (no white space, one `@` not first, then a dot with characters on both sides) accepts exactly what `^[^\s@]+@[^\s@]+\.[^\s@]+$` matches |
| `FieldRules.EmailRuleImpliesRegex` | src/pages/AddUser.tsx:77-78 | the rule in words implies a match |
| `FieldRules.RegexImpliesEmailRule` | src/pages/AddUser.tsx:77-78 | a match implies the rule in words |
| `FieldRules.EmailAcceptsExamples` | src/pages/AddUser.tsx:77-78 | `a@b.co` and `a@b.c.d` pass |
| `FieldRules.EmailRejectsExamples` | src/pages/AddUser.tsx:77-79 | a missing local part, a host without a dot, a dot right after `@`, a second `@` and a space each fail |
| `Forms.CollectErrors` | src/pages/AddUser.tsx:120-134 | the validation loop returns true exactly when every field passes, which is exactly when the errors are empty; the errors map every failing field to its message and nothing else |
| `AddUser.ValidateField` | src/pages/AddUser.tsx:69-107 | a field's message is empty exactly when the value is in the field's accept set; an unknown field name is accepted |
| `AddUser.UsernameRule` | src/pages/AddUser.tsx:71-75 | a username passes exactly when 3 to 100 characters long, 100 included; short names get the too-short message |
| `AddUser.PhoneAndPasswordRules` | src/pages/AddUser.tsx:81-94 | a phone passes exactly when 5 to 30 characters long, a password exactly when 5 to 100, each with its too-short message first |
| `AddUser.PinRule` | src/pages/AddUser.tsx:87-89 | a PIN passes exactly when it has 4 characters of any kind |
| `AddUser.WalletIdAndApiKeyRules` | src/pages/AddUser.tsx:95-104 | a wallet id and an API key each pass exactly when 10 to 50 characters long |
| `AddUser.EmailAndUnknownFields` | src/pages/AddUser.tsx:76-106 | an e-mail passes exactly when it follows the e-mail rule, else gets its message; names outside the form yield "" |
| `AddUser.FormErrorsAreFailingFields` | src/pages/AddUser.tsx:120-134 | the stored errors name exactly the fields whose values fail, each with its own message |
| `AddUser.FirstAdmin` | src/pages/AddUser.tsx:52 | `find` returns the first role named "ADMIN", or none |
| `AddUser.AdminRoleId` | src/pages/AddUser.tsx:48-55 | the kept id is that of the first ADMIN role, and there is none exactly when no role is named ADMIN |
| `AddUser.EmptyForm` | src/pages/AddUser.tsx:33-41 | the form starts with the seven fields, all empty |
| `AddUser.AddUserForm.constructor` | src/pages/AddUser.tsx:33-43 | empty form, no errors, no role id |
| `AddUser.AddUserForm.ReceiveRoles` | src/pages/AddUser.tsx:48-55 | a roles response sets the id of the first ADMIN role, and leaves the id alone when there is none |
| `AddUser.AddUserForm.HandleChange` | src/pages/AddUser.tsx:109-118 | an edit changes only the named field and that field's error entry |
| `AddUser.AddUserForm.ValidateForm` | src/pages/AddUser.tsx:120-134 | stores the errors of every failing field and returns true exactly when there are none |
| `AddUser.AddUserForm.HandleSubmit` | src/pages/AddUser.tsx:136-165 | without a usable role id (missing or 0), nothing is validated or sent; otherwise errors are stored, and the form data with the role id is posted exactly when every field passes |
| `EditUser.ValidateField` | src/pages/EditUser.tsx:83-107 | a field's message is empty exactly when the value is acceptable; username, e-mail and phone use the add-user rules and messages |
| `EditUser.OptionalPinRule` | src/pages/EditUser.tsx:101-103 | an empty PIN passes; a non-empty one passes exactly when it has 4 characters |
| `EditUser.FormErrorsAreFailingFields` | src/pages/EditUser.tsx:120-134 | the stored errors name exactly the failing fields with their messages |
| `EditUser.FormFromUser` | src/pages/EditUser.tsx:59-64 | a fetched user fills the four fields, and a missing PIN becomes "" |
| `EditUser.UpdatePayload` | src/pages/EditUser.tsx:151-155 | the PUT body is the form data without `pin` exactly when the PIN is missing or empty; no other key or value changes |
| `EditUser.FetchedUserPayload` | src/pages/EditUser.tsx:59-157 | saving a fetched user unchanged sends its fields, and its PIN only if it has a non-empty one |
| `EditUser.EditUserForm.constructor` | src/pages/EditUser.tsx:42-48 | four empty fields, no errors |
| `EditUser.EditUserForm.ReceiveUser` | src/pages/EditUser.tsx:54-64 | the user details response replaces the form data |
| `EditUser.EditUserForm.HandleChange` | src/pages/EditUser.tsx:109-118 | an edit changes only the named field and that field's error entry |
| `EditUser.EditUserForm.ValidateForm` | src/pages/EditUser.tsx:120-134 | stores the errors of every failing field and returns true exactly when there are none |
| `EditUser.EditUserForm.HandleSubmit` | src/pages/EditUser.tsx:136-157 | an invalid form sends no PUT; a valid one sends the payload built from the form data |
| `ChangePassword.PasswordError` | src/pages/ChangePassword.tsx:26-41 | the form is accepted (message "") exactly when the password has 5 to 100 characters and equals its confirmation |
| `ChangePassword.LengthBeforeMismatch` | src/pages/ChangePassword.tsx:27-38 | a password of the wrong length gets the length message even when the entries differ; "Passwords do not match" only for an acceptable length |
| `ChangePassword.ChangePasswordForm.constructor` | src/pages/ChangePassword.tsx:17-22 | empty entries, no error, not submitting |
| `ChangePassword.ChangePasswordForm.ValidatePassword` | src/pages/ChangePassword.tsx:26-41 | stores the message, reset to "" on acceptance, and returns acceptance |
| `ChangePassword.ChangePasswordForm.HandleSubmit` | src/pages/ChangePassword.tsx:43-72 | a rejected form sends nothing; an accepted one sends only the password to `/users/<id>/password` and ends not submitting |
| `ChangePin.PinError` | src/pages/ChangePin.tsx:26-37 | the form is accepted exactly when the PIN has 4 characters and equals its confirmation |
| `ChangePin.LengthBeforeMismatch` | src/pages/ChangePin.tsx:27-34 | the length message takes precedence over the mismatch; any four characters are accepted |
| `ChangePin.ChangePinForm.constructor` | src/pages/ChangePin.tsx:17-22 | empty entries, no error, not submitting |
| `ChangePin.ChangePinForm.ValidatePin` | src/pages/ChangePin.tsx:26-37 | stores the message, reset to "" on acceptance, and returns acceptance |
| `ChangePin.ChangePinForm.HandleSubmit` | src/pages/ChangePin.tsx:39-68 | a rejected form sends nothing; an accepted one sends only the PIN to `/users/<id>/pin` and ends not submitting |
| `Dashboard.LowerChar` | src/pages/Dashboard.tsx:68 | an upper-case ASCII letter is lowered; every other character is kept |
| `Dashboard.Lower` | src/pages/Dashboard.tsx:68-69 | lowering keeps the length and lowers each character |
| `Dashboard.IncludesEmptyAndSelf` | src/pages/Dashboard.tsx:68-69 | every string includes "" and itself |
| `Dashboard.FilteredUsersSpec` | src/pages/Dashboard.tsx:66-70 | `FilteredUsers`, the model of `filteredUsers`: a user is listed exactly when the lowered query occurs in the lowered username or e-mail; the list keeps the users' order |
| `Dashboard.EmptyQueryKeepsAll` | src/pages/Dashboard.tsx:66-70 | the empty query lists every user |
| `Dashboard.QueryCaseInsensitive` | src/pages/Dashboard.tsx:68-69 | queries that differ only in letter case list the same users |
| `Dashboard.DisplayOrNA` | src/pages/Dashboard.tsx:211-222 | a wallet id or API key is shown as itself when non-empty and as "N/A" when null or empty |
| `UserTransactions.FilterBySign` | src/pages/UserTransactions.tsx:89-98 | `FilteredTransactions`, the model of `filteredTransactions`: "deposit" keeps exactly positive amounts, "withdraw" exactly negative ones, "all" everything; zero amounts appear only under "all" |
| `UserTransactions.FilterPreservesOrder` | src/pages/UserTransactions.tsx:89-98 | the filtered list is an order-preserving subsequence of the fetched one |
| `UserTransactions.TotalPages` | src/pages/UserTransactions.tsx:101 | the page count is the least number of 30-item pages that holds all items, and 0 exactly for an empty list |
| `UserTransactions.Slice` | src/pages/UserTransactions.tsx:104 | `slice` clamps both bounds to the list |
| `UserTransactions.PageWindow` | src/pages/UserTransactions.tsx:102-104 | `PageItems`, the model of `currentTransactions`: page p shows `filtered[(p-1)*30 .. min(p*30, n))`, at most 30 items, and nothing past the end |
| `UserTransactions.ItemOnExactlyOnePage` | src/pages/UserTransactions.tsx:101-104 | item i lies on page `i/30+1`, which is within `1..totalPages`, and on no other page |
| `UserTransactions.FirstPagesArePrefix` | src/pages/UserTransactions.tsx:102-104 | pages 1 to k together show the first `30k` items in order |
| `UserTransactions.PagesCoverFilteredList` | src/pages/UserTransactions.tsx:101-104 | pages 1 to totalPages together show the whole filtered list, in order |
| `UserTransactions.LabelMatchesPage` | src/pages/UserTransactions.tsx:250-256 | `Label`, the model of the range label: on a page within range, the label's `startIndex+1` to `min(endIndex, n)` of n counts exactly the items shown |
| `UserTransactions.PageControlsIffMoreThanOnePage` | src/pages/UserTransactions.tsx:286 | `ShowsPageControls`, the guard on the page buttons: after a successful load, the buttons show exactly when more than 30 items pass the filter |
| `UserTransactions.RefetchCanStrandPage` | src/pages/UserTransactions.tsx:101-116 | a page kept across a refetch that shrank the list shows nothing, is mislabelled and has no buttons |
| `UserTransactions.TransactionsView.constructor` | src/pages/UserTransactions.tsx:50-55 | no transactions, filter "all", page 1, loading |
| `UserTransactions.TransactionsView.FetchData` | src/pages/UserTransactions.tsx:57-82 | a response replaces the transactions; a failure keeps them and sets the error message; page and filter unchanged; loading ends |
| `UserTransactions.TransactionsView.HandlePreviousPage` | src/pages/UserTransactions.tsx:106-110 | one page back, never below 1, no-op on page 1 |
| `UserTransactions.TransactionsView.HandleNextPage` | src/pages/UserTransactions.tsx:112-116 | one page forward, never past totalPages, no-op at the last page |
| `UserTransactions.TransactionsView.SetFilter` | src/pages/UserTransactions.tsx:118-121 | choosing a different filter resets the page to 1; choosing the same one changes nothing |

## Left out

- HTTP is not modelled: the backend base URL, axios and the `api` service are left out. Each request is a log entry, and its outcome is a parameter of the method that sends it.
- `localStorage` and `window.location` are fields. A navigation only records its target. The reload that follows it is a new `AuthProvider`.
- Concurrency is left out: `Promise.all` in `fetchData`, async interleaving, in-flight cancellation and React's effect scheduling. Each handler runs to completion. The mount effect runs once, after the first render.
- Presentation is left out: rendering, toasts, skeletons and spinners. So are the `isLoading` flags of the add-user and edit-user pages; the edit page never sets its flag to true anyway.
- The `navigate` calls after a form request has been sent are left out. The model stops at the request that is sent.
- Wallet balances and `amount.toFixed(3)` are left out. Amounts are whole numbers, since only their sign matters.
- A missing `access_token` or `refresh_token` in a response body is left out. Storing it would write the text "undefined"; response tokens are strings here.
- A failed roles request only shows a toast, so it is `ReceiveRoles` not being called.
- `AddUser.AddUserForm.ValidateForm`: loops over the seven field names, not `Object.keys(formData)`. The inputs only ever edit these names, and an unknown name always passes.
- `EditUser.EditUserForm.ValidateForm`: loops over the four field names, not `Object.keys(formData)`, for the same reason.
- `Dashboard.Lower`: lowers the ASCII letters only. JavaScript's `toLowerCase` uses the full Unicode case mapping.
- `FieldRules.LengthMessage`: counts characters, not UTF-16 code units as JavaScript's `length` does. Strings outside the Basic Multilingual Plane therefore have different lengths.
- `src/pages/Login.tsx`, `src/pages/UserDetails.tsx` and `src/App.tsx` are not part of this model: they only call `login`, fetch and delete with toasts, or declare routes. `ProtectedRoute` is not part of this model either.
