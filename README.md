# Fleet management front end: a Dafny model

This project models the client side of a fleet-management web application
(vehicles, interventions, users). It covers the following parts:

- **The shared HTTP client** (`src/api/api.js`):
  - the request interceptor, which adds the bearer token read from
    `localStorage` and drops a duplicated `page` query parameter;
  - the response interceptor, which clears the session and goes to `/login`
    on a 401;
  - the `Auth` service: register, login, logout, me, isAuthenticated and
    getUser;
  - the endpoint paths of the resource services.
- **The route guard** `ProtectedRoute`.
- **The three list screens**: users, interventions and vehicles.
- **The four account forms**: user create/edit, reset password, register
  and forgotten password.

How the model is built:

- The browser state the code touches lives in one `Api.Browser` object:
  `localStorage`, `window.location`, the events dispatched on `window`, and
  the requests sent.
- Each network call takes its settled outcome as a parameter (`Http.Outcome`).
  Every success and failure path of a handler is covered by its contract.
- React components whose handlers update state step by step are classes whose
  methods modify their fields and the browser. Each method states its whole new
  state in terms of pure functions, for example `UsersList.AfterFetch`,
  `UserForm.Payload` and `Forms.PasswordProblem`.
- The pure functions carry their own contracts and lemmas.
- JavaScript semantics are written out where the code depends on them:
  - truthiness of optional strings (`Common.Truthy`);
  - `parseInt`, with whitespace, sign, `0x` prefix and a trailing garbage
    stop (`Common.ParseInt`);
  - number-to-text in template literals (`Common.IntText`);
  - `String.prototype.includes` (`Common.Contains`);
  - `Array.prototype.join` (`Common.Join`);
  - `length` in UTF-16 code units (`Forms.Utf16Length`).

Three consequences of the code are easy to miss:

- `Auth.getUser()` calls `JSON.parse` unguarded (`src/api/api.js:107-110`), so a
  stored user that does not parse makes it throw. `Session.GetUser` returns
  `ParseError` for it, and `RouteGuard.ProtectedRoute` returns `None`, meaning
  the render throws.
- `Auth.logout` goes through the shared client (`src/api/api.js:72-92`), so a
  401 on it also applies the client's 401 rule. So do `register`, `login` and
  `me`.
- The interventions screen fetches with a bare `axios` call
  (`src/component/InterventionList.jsx:22-27`), so a 401 there does not end the
  session.

## Model

| member | source | states |
|---|---|---|
| Session.GetUser | src/api/api.js:107-110 | a missing or empty stored user reads as null; a serialised profile reads back as itself; any other text is a parse error |
| Session.Cleared | src/api/api.js:35-36 | after both keys are removed, the session is not authenticated and no user is read |
| Session.WithLogin | src/api/api.js:59-60 | after login, the stored user reads back as the returned user, and the session is authenticated exactly when the token is non-empty |
| Session.WithProfile | src/component/UserForm.jsx:98-106 | rewriting the stored profile keeps the token and the authentication status, and the new profile is what is read back |
| Session.LoginThenLogout | src/api/api.js:55-92 | a login followed by a logout leaves no session, whatever the store held before |
| Session.IsAuthenticated | src/api/api.js:103-105 | signed in exactly when the stored token is present and non-empty |
| Session.AuthenticationIgnoresUser | src/api/api.js:103-105 | authentication depends on the token alone |
| Session.Decorated | src/api/api.js:12-15 | with a stored non-empty token, the Authorization header is `Bearer <token>` and every other header is kept; without one, the headers are unchanged |
| Session.WithoutDuplicatePage | src/api/api.js:18-20 | when the URL carries `?page=`, a truthy `page` parameter is removed and the other parameters are kept; otherwise the parameters are unchanged; afterwards no truthy `page` remains |
| Api.StorageAfterError | src/api/api.js:33-36 | a 401 removes both the token and the user, so the session is not authenticated and no user is read; any other error leaves the store unchanged |
| Api.LocationAfterError | src/api/api.js:33-37 | a 401 sets the location to `/login`; any other error keeps it |
| Api.Browser.InterceptRequest | src/api/api.js:10-27 | the config's headers become the decorated headers, its params lose a duplicated page, and its URL is unchanged |
| Api.Browser.InterceptResponseError | src/api/api.js:30-43 | the store and the location follow the 401 rule, and the same error is rejected on |
| Api.Browser.Send | src/api/api.js:5-43 | one logged request decorated from the store at send time; the outcome is passed through; a failure applies the 401 rule |
| Api.Browser.SendDirect | src/component/InterventionList.jsx:22-27 | a request with exactly the given headers; the store, the location and the events are unchanged |
| Api.Browser.Register | src/api/api.js:46-53 | posts to `api/register` and writes nothing to the store itself |
| Api.Browser.Login | src/api/api.js:55-70 | on success, stores token and user, then dispatches `storage` and `auth-change(true)`, each seeing the new store; on failure, only the 401 rule applies and nothing is dispatched |
| Api.Browser.Logout | src/api/api.js:72-92 | on success or failure, the store is cleared and `storage` and `auth-change(false)` are dispatched after the clear; a failure is returned unchanged |
| Api.Browser.Me | src/api/api.js:94-101 | a GET of `api/me` that writes nothing to the store itself |
| Api.ClientRequest | src/api/api.js:5-15 | the logged request keeps the verb, the path and the body; its headers are exactly `Authorization: Bearer <token>` with a stored non-empty token, and empty otherwise |
| Api.CollectionPath | src/api/api.js:114-268 | every collection path lies under `api/`: `api/vehicules`, `api/interventions` and `api/users` |
| Api.CollectionPathsDistinct | src/api/api.js:114-268 | two different resources never share a collection path |
| Api.ListPath | src/api/api.js:118 | a list path is the collection path, then `?page=`, then the page number's text |
| Api.ItemPathOf | src/api/api.js:129 | an entity path built from the id's text as given, as in the user form's PUT |
| Api.ItemPathOfParts | src/api/api.js:129 | an entity path is the collection path and a slash, followed by exactly the id text |
| Api.ItemPath | src/api/api.js:129-159 | an entity path built from a numeric id |
| Api.ListPathCarriesPage | src/api/api.js:114-118 | a list path contains `?page=`, and the text after it parses back to the requested page |
| Api.ItemPathCarriesId | src/api/api.js:127-133 | an entity path is the collection path and a slash, followed by text that parses back to the id |
| Api.ListRequestSendsOnePage | src/api/api.js:18-20 | a list request never also carries a truthy `page` parameter |
| Http.Flatten | src/component/UserForm.jsx:121-123 | no fields give no messages; one field gives exactly its own messages; every message appears and the length is the total message count |
| Http.FlattenAppend | src/component/UserForm.jsx:121-123 | flattening two runs of fields is flattening each in turn; with the one-field case this fixes the result as every field's messages, in field order |
| Http.ErrorsFirst | src/component/UserForm.jsx:121-128 | field errors win over the message; the fallback is used only when neither is present |
| Http.MessageFirst | src/component/ResetPasswordForm.jsx:68-75 | the message wins over field errors; the fallback is used only when neither is present |
| Http.ServerTexts | src/component/RegisterForm.jsx:41-49 | the texts the server supplied: the message when present, the joined field errors when present |
| Http.FallbackOnlyWithoutServerText | src/component/RegisterForm.jsx:41-49 | when the server sent a message or field errors, both orders show one of the server's texts; when it sent neither, both show the fallback |
| Http.OrdersDisagreeOnlyWithBoth | src/component/UserForm.jsx:121-128 | the two orders differ only when both a message and field errors are present; then one shows the field errors and the other the message |
| Http.Classify | src/component/UsersList.jsx:20-26 | a failed call, a body without data, rows with a meta, and rows without a meta (reading `meta` then throws) are told apart exactly |
| Pagination.RowsOf | src/component/UsersList.jsx:20-26 | a successful fetch shows the page's rows, or none when the body has no data |
| Pagination.PageNumbers | src/component/UsersList.jsx:196 | one button per page, numbered 1 to `totalPages` |
| Pagination.PreviousDisabled | src/component/UsersList.jsx:190 | "Previous" is disabled exactly on page 1 |
| Pagination.NextDisabled | src/component/UsersList.jsx:214 | "Next" is disabled exactly on the last page |
| Pagination.EnabledTargets | src/component/UsersList.jsx:186-216 | every page from 1 to the total is reachable; with the current page in range, no enabled control leads outside it |
| RouteGuard.Guard | src/component/ProtectedRoute.jsx:9-20 | not signed in redirects to login; the role is enforced only when a role is required and a user is stored; otherwise the children render |
| RouteGuard.ProtectedRoute | src/component/ProtectedRoute.jsx:4-21 | a stored user that does not parse makes the render throw, even when signed out; otherwise it returns the guard's verdict on the stored session |
| RouteGuard.AdminDoesNotSatisfyManager | src/component/ProtectedRoute.jsx:14 | roles have no hierarchy: an administrator is sent home from a manager-only page |
| RouteGuard.NoRoleRendersEverySession | src/component/ProtectedRoute.jsx:4-20 | without a required role, every signed-in session renders |
| RouteGuard.ClearedSessionRedirects | src/component/ProtectedRoute.jsx:9-11 | after logout or a 401, every protected page redirects to login |
| RouteGuard.MatchingRoleRenders | src/component/ProtectedRoute.jsx:14-20 | a signed-in user with the required role is let through, whatever the role text |
| UsersList.AfterFetch | src/component/UsersList.jsx:15-35 | success replaces the rows (it never appends) and takes the current page and page count from the server; a failure keeps the rows and sets the load error; the error is cleared exactly when the fetch succeeds with a meta or without data |
| UsersList.RoleBadge | src/component/UsersList.jsx:86-97 | unknown roles get the grey style and are shown as they are; `admin`, `manager` and `user` get the danger, warning and info styles with the labels `Administrateur`, `Gestionnaire` and `Utilisateur`, each distinct from the other known roles' labels |
| UsersList.UsersList.constructor | src/component/UsersList.jsx:6-12 | no rows, page 1, no pages, loading, no messages |
| UsersList.UsersList.IsSelf | src/component/UsersList.jsx:44 | the row belongs to the signed-in user; `HandleDelete` refuses exactly these ids |
| UsersList.UsersList.ShowPagination | src/component/UsersList.jsx:182 | the page controls render when there is more than one page; after a fetch with a meta, exactly when the server reports more than one page |
| UsersList.UsersList.FetchUsers | src/component/UsersList.jsx:15-35 | a GET of the page's list path through the client; the shown state becomes `AfterFetch`; loading ends; after a fetch with a meta, the page controls show exactly when the server's last page is above 1, otherwise they are as before; when the server's page lies within its page count, no enabled control leads outside the pages (`Pagination.EnabledTargets`) |
| UsersList.UsersList.HandleDelete | src/component/UsersList.jsx:42-73 | one's own account is refused before any confirmation or request; a declined confirmation changes nothing; success shows the message and refetches the current page; failure shows the delete error and keeps the rows |
| UsersList.UsersList.HandlePageChange | src/component/UsersList.jsx:37-39 | a new page number fetches that page; the same page does nothing |
| InterventionList.DirectHeaders | src/component/InterventionList.jsx:23-27 | always exactly one Authorization header, `Bearer` followed by the stored token or by the text `null` |
| InterventionList.DirectHeadersMatchClientWhenSignedIn | src/component/InterventionList.jsx:25 | signed in, the direct request carries the credential the client would add |
| InterventionList.DirectHeadersDifferWhenSignedOut | src/component/InterventionList.jsx:25 | signed out, the client would add no header but the direct request sends `Bearer null` |
| InterventionList.AfterFetch | src/component/InterventionList.jsx:18-43 | success replaces the rows and takes the page count from the server but never the current page; a failure, a 401 included, changes nothing but the load error; the error is cleared exactly when the fetch succeeds with a meta or without data |
| InterventionList.OnlyUsersFollowServerPage | src/component/InterventionList.jsx:29-32 | on the same response, the users screen moves to the server's page and the interventions screen does not |
| InterventionList.PageUrl | src/component/InterventionList.jsx:22 | the absolute URL is the fixed list prefix followed by the page number's text |
| InterventionList.PageUrlCarriesPage | src/component/InterventionList.jsx:22 | the text after the prefix parses back to the requested page |
| InterventionList.PaginationShownAsWritten | src/component/InterventionList.jsx:212 | the guard as written: indexing a number yields `undefined`, which is never above 1 |
| InterventionList.PaginationShown | src/component/InterventionList.jsx:212 | the corrected guard: pagination shows exactly when there is more than one page |
| InterventionList.PaginationHiddenForEveryCount | src/component/InterventionList.jsx:212 | for every page count the guard as written hides pagination, and with more than one page it disagrees with the corrected guard |
| InterventionList.StatusStyle | src/component/InterventionList.jsx:164-169 | completed, in-progress and scheduled statuses get their own styles; any other status gets the grey style |
| InterventionList.StatusText | src/component/InterventionList.jsx:170 | a present, non-empty status is shown as it is; a missing or empty one shows `Non défini` |
| InterventionList.InterventionList.constructor | src/component/InterventionList.jsx:9-15 | no rows, page 1, loading, and a retry counter that is not yet set |
| InterventionList.InterventionList.ShowPagination | src/component/InterventionList.jsx:212 | the screen renders the page controls under the guard as written |
| InterventionList.InterventionList.ShowsRetryCount | src/component/InterventionList.jsx:132 | the attempt number is shown only when the retry counter is set and positive |
| InterventionList.InterventionList.FetchInterventions | src/component/InterventionList.jsx:18-43 | a direct GET of the absolute URL with `DirectHeaders`; the shown state becomes `AfterFetch`; the store and the location are never touched; the page controls stay hidden |
| InterventionList.InterventionList.Mount | src/component/InterventionList.jsx:46-53 | the retry counter is reset to 0, then the current page is fetched; no event is dispatched |
| InterventionList.InterventionList.HandleDelete | src/component/InterventionList.jsx:55-78 | acts only after confirmation; a delete through the client; success shows the message and refetches the same page directly; failure shows the delete error |
| InterventionList.InterventionList.HandlePageChange | src/component/InterventionList.jsx:46-53 | a new page resets the retry counter and fetches that page; the same page does nothing |
| InterventionList.InterventionList.HandleRefresh | src/component/InterventionList.jsx:90-93 | the retry counter is reset, no attempt number is shown, and the current page is fetched again |
| VehicleList.AfterFetch | src/component/VehicleList.jsx:11-14 | the list is replaced only by a non-empty array; any other result, a paginated `{ data, meta }` body included, keeps it; so a fetch never empties a non-empty list |
| VehicleList.WithoutId | src/component/VehicleList.jsx:27 | no remaining vehicle has the id; every vehicle with another id is kept as many times as it occurred; nothing is added |
| VehicleList.WithoutIdKeepsOrder | src/component/VehicleList.jsx:27 | the remaining vehicles keep their relative order |
| VehicleList.WithoutAbsentId | src/component/VehicleList.jsx:27 | deleting an id that is not present leaves the list unchanged |
| VehicleList.WithoutIdIdempotent | src/component/VehicleList.jsx:27 | deleting the same id twice equals deleting it once |
| VehicleList.VehicleList.constructor | src/component/VehicleList.jsx:6 | the list starts empty |
| VehicleList.VehicleList.ShowsPlaceholder | src/component/VehicleList.jsx:62 | the "none found" row renders exactly when the list is empty |
| VehicleList.VehicleList.FetchVehicule | src/component/VehicleList.jsx:9-23 | a GET of page 1 through the client; the list becomes `AfterFetch`; a failure leaves it; a fetch never brings the placeholder back |
| VehicleList.VehicleList.HandleDelete | src/component/VehicleList.jsx:26-28 | local only, with no request: no remaining vehicle has the id, and the rest keep their order; the placeholder appears exactly when every vehicle had that id |
| Forms.Utf16Length | src/component/UserForm.jsx:71 | one character counts 2 code units beyond the basic plane and 1 otherwise; the length is between the number of characters and twice that, and equals it for basic-plane text |
| Forms.Utf16LengthAppend | src/component/UserForm.jsx:71 | the length of joined text is the sum of the lengths; with the one-character case this fixes the count for every text |
| Forms.PasswordProblem | src/component/UserForm.jsx:66-75 | a mismatch is reported before a short password; a password is accepted exactly when it matches its confirmation and is at least 8 code units long |
| Forms.AcceptedPasswordIsNonEmpty | src/component/ResetPasswordForm.jsx:46-54 | an accepted password is never empty; any matching 8 characters are accepted |
| Forms.FourAstralCharactersPass | src/component/ResetPasswordForm.jsx:51 | four characters from beyond the basic plane meet the length rule |
| UserForm.FormOf | src/component/UserForm.jsx:33-39 | a loaded user fills name, email and role (role defaults to `user`) and clears both passwords |
| UserForm.SetField | src/component/UserForm.jsx:53-56 | the named input takes the value and every other input is kept |
| UserForm.SetFieldLastWins | src/component/UserForm.jsx:53-56 | editing the same input twice keeps only the last value |
| UserForm.Payload | src/component/UserForm.jsx:79-89 | the payload always sends name, email and role; it sends both passwords exactly when creating, or when changing to a non-empty password |
| UserForm.NeedsPasswordCheck | src/component/UserForm.jsx:65 | the password is checked when creating, or when editing with the password change on |
| UserForm.SendsPassword | src/component/UserForm.jsx:86 | the password is sent when creating, or when changing to a non-empty password |
| UserForm.PasswordSentIffChecked | src/component/UserForm.jsx:65-89 | among submissions that pass validation, the password is sent exactly when it was checked |
| UserForm.IsOwnProfile | src/component/UserForm.jsx:98 | a user is signed in and the page's id parses to that user's id |
| UserForm.OwnIdIsOwnProfile | src/component/UserForm.jsx:98 | the form opened at the signed-in user's own id is recognised as their profile |
| UserForm.OtherIdIsNotOwnProfile | src/component/UserForm.jsx:98 | another user's id is never taken for one's own |
| UserForm.UpdatedProfile | src/component/UserForm.jsx:99-104 | the stored profile keeps its id and every other field, with the new name, email and role |
| UserForm.OwnEditIsReadBack | src/component/UserForm.jsx:98-106 | after an edit of one's own profile, the store reads back the edited profile and authentication is unchanged |
| UserForm.UserForm.constructor | src/component/UserForm.jsx:6-23 | an empty form with role `user`, nothing loading, no messages, and the password change off |
| UserForm.UserForm.RoleLocked | src/component/UserForm.jsx:184 | the role select is disabled while saving and on one's own profile |
| UserForm.UserForm.ShowsPasswordInputs | src/component/UserForm.jsx:211 | the password inputs render when creating, or when the password change is on |
| UserForm.UserForm.LoadUser | src/component/UserForm.jsx:26-51 | with an id, a GET of the user; a body with data fills the form; a failure shows the load error; loading ends, so the role is locked exactly on one's own profile; without an id nothing happens |
| UserForm.UserForm.HandleChange | src/component/UserForm.jsx:53-56 | the form becomes `SetField`; nothing else changes |
| UserForm.UserForm.ToggleChangePassword | src/component/UserForm.jsx:202 | the password-change flag flips; when editing, the password inputs appear or disappear with it; when creating they stay shown |
| UserForm.UserForm.HandleSubmit | src/component/UserForm.jsx:58-132 | a password problem is shown without a request; otherwise the payload is sent (PUT when editing, POST when creating); success shows the message, rewrites one's own stored profile after an edit, and schedules the return to `/users`; failure shows `ErrorsFirst`; loading ends, so the role is locked exactly on one's own profile; the password inputs are as before |
| ResetPasswordForm.SetField | src/component/ResetPasswordForm.jsx:35-38 | the named password input takes the value; the token and the email are kept |
| ResetPasswordForm.ResetBody | src/component/ResetPasswordForm.jsx:59 | the whole form is posted: email, both passwords and the token |
| ResetPasswordForm.ResetPasswordForm.constructor | src/component/ResetPasswordForm.jsx:6-15 | an empty form, nothing loading, no messages |
| ResetPasswordForm.ResetPasswordForm.ShowForm | src/component/ResetPasswordForm.jsx:100 | the form renders only when the form holds both a token and an email |
| ResetPasswordForm.ResetPasswordForm.ApplyLink | src/component/ResetPasswordForm.jsx:20-33 | with both a token and an email, they fill the form with the email decoded, and the form shows exactly when the decoded email is non-empty; otherwise the link is reported invalid and what is shown does not change |
| ResetPasswordForm.ResetPasswordForm.HandleChange | src/component/ResetPasswordForm.jsx:35-38 | the form becomes `SetField`; nothing else changes |
| ResetPasswordForm.ResetPasswordForm.HandleSubmit | src/component/ResetPasswordForm.jsx:40-79 | a password problem is shown without a request and without touching loading; otherwise the form is posted; success shows the message and schedules the way to `/login`; failure shows `MessageFirst`; whether the form shows does not change |
| RegisterForm.RegisterBody | src/component/RegisterForm.jsx:27-32 | the account sent is the four inputs |
| RegisterForm.Credentials | src/component/RegisterForm.jsx:35 | the sign-in sends only the email and the password |
| RegisterForm.RegisterForm.constructor | src/component/RegisterForm.jsx:6-11 | empty inputs, no error, nothing loading |
| RegisterForm.RegisterForm.HandleSubmit | src/component/RegisterForm.jsx:14-53 | a mismatch is shown without a request and with no length rule; sign-in is attempted only after registration succeeds; the form goes home only if both succeed; the first failure is shown with `MessageFirst` |
| ForgotPasswordForm.ForgotPasswordForm.constructor | src/component/ForgotPasswordForm.jsx:6-10 | an empty email, nothing loading, no messages, not submitted |
| ForgotPasswordForm.ForgotPasswordForm.ShowForm | src/component/ForgotPasswordForm.jsx:56 | the form renders until a request has succeeded |
| ForgotPasswordForm.ForgotPasswordForm.HandleSubmit | src/component/ForgotPasswordForm.jsx:12-35 | posts `{ email }`; success shows the message and replaces the form by the confirmation for good; failure shows `MessageFirst` and keeps what is shown |
| Common.IntText | src/api/api.js:116 | the text of an integer below 10^21 in magnitude is non-empty and starts with `-` exactly for negatives |
| Common.ParseInt | src/component/UserForm.jsx:98 | text without a single digit gives `NaN` (`None`) |
| Common.ParseIntText | src/component/UserForm.jsx:98 | `parseInt` reads back every safe integer (below 2^53 in magnitude) from its text |
| Common.Contains | src/api/api.js:18 | `includes`: the text is a prefix here or occurs in the rest; `Common.ContainsIffOccurs` ties it to an occurrence at some position |
| Common.ContainsInfix | src/api/api.js:18 | text placed between any two texts is found by `includes` |
| Common.ContainsIffOccurs | src/api/api.js:18 | `includes` holds exactly when the text occurs at some position |
| Common.Join | src/component/UserForm.jsx:123 | no words give empty text and one word gives itself; the length is the words' lengths plus one separator between each pair of words, and it starts with the first word |
| Common.JoinAppend | src/component/UserForm.jsx:123 | joining two non-empty runs of words is the first run joined, the separator, and the second run joined; with the one-word case this fixes where every word and separator sits |

## Left out

- Console logging and `alert` are left out. They have no effect on state.
- The `setTimeout` calls that clear the success and error messages after 3 seconds are left out. Their clearing happens outside any handler. The navigations scheduled by a timer are kept as the `scheduled` field.
- `BASE_URL` is left out: `src/config` is not part of this model. Client paths are relative to it. The interventions screen's absolute URL is kept as written.
- Asynchronous interleaving is not modelled. Each handler runs to completion with the outcomes of its calls given as parameters. A fetch that is not awaited is modelled as completing in order.
- JSON parsing is not modelled beyond the shapes the screens read. The model restricts a stored user to a profile this application serialised or to other text, and treats every non-empty other text as a parse error. `JSON.parse` accepts some such texts (`null`, `{}`, `1`), and what `getUser` then returns is not modelled.
- `decodeURIComponent` is a parameter of `ApplyLink`. `ResetPasswordForm.ResetPasswordForm.ApplyLink` does not model it throwing on a malformed escape.
- Rendering is left out except for the conditions that decide what is shown: pagination, the placeholder row, the password inputs, the role lock, the badges and the form/confirmation switch. Date formatting, table cells and the form and navigation components outside the listed screens are left out.
- The plain `setName`/`setEmail`-style input setters of `RegisterForm` and `ForgotPasswordForm` are left out. They are field assignments on the class, and its fields are public.
- A stored user that does not parse makes the list screen and the user form throw at render. Their classes take the already-read current user as a constructor argument, so that crash is captured only by `RouteGuard.ProtectedRoute`.
- Common.IntText, Common.ParseIntText: JavaScript numbers are modelled as unbounded integers. Two things are not modelled: the exponent form `${n}` takes from 10^21 in magnitude up (`"1e+21"`, which `parseInt` reads as 1), and the precision lost above 2^53. The round trips in `Api.ListPathCarriesPage`, `Api.ItemPathCarriesId`, `InterventionList.PageUrlCarriesPage` and `UserForm.OwnIdIsOwnProfile` hold in the program only for safe integers; the ids and page numbers the screens handle are far below that bound.
- `parseInt` on text with a fractional part or an exponent is not modelled separately. It stops at the first non-digit, as `Common.ParseInt` does.
- The users screen's own effect on `currentPage` (`src/component/UsersList.jsx:37-39`) fetches again whenever a fetch moves `currentPage` to a `meta.current_page` that differs from the page requested (line 23). That second fetch is left out of `UsersList.UsersList.FetchUsers`, `UsersList.UsersList.HandleDelete` and `UsersList.UsersList.HandlePageChange`: each models one request, and the state after it holds the server's page.
- The resource services' create, get-by-id and update calls for vehicles and interventions are not modelled as separate operations. Only their paths (`Api.CollectionPath`, `Api.ItemPath`) are modelled, and the screens that use them are outside this model.

## Findings

| source | as written | input that shows it | evidently intended | confidence | as-written member | corrected member |
|---|---|---|---|---|---|---|
| src/component/InterventionList.jsx:212 | the pagination block is guarded by `totalPages[0] > 1`; indexing a number gives `undefined`, so the guard is always false | `totalPages = 3`: the page buttons never appear and pages after the first are unreachable | `totalPages > 1`, as on the users screen | high, not executed | InterventionList.PaginationHiddenForEveryCount | InterventionList.PaginationShown |
