# Admin dashboard: pagination, users-page state, session gate and sign-in

A Dafny model of the few pieces of logic in an admin-dashboard front-end
written in TypeScript/React. Everything else in that front-end either calls a
remote REST API or draws the screen. The model covers four things:

- **Pagination** (`pagination.dfy`, module `Pagination`). The users list shows
  a sliding window of at most five page numbers, kept inside
  `[1, totalPages]` and slid back near the last page. The footer has a
  previous control, one button per page in the window and a next control,
  plus the "Showing X to Y of Z users" label.
- **The users page** (`users_page.dfy`, module `UsersPage`):
  - the defaults the page applies to the list response;
  - the choice of table body: skeleton rows, user rows or the empty state;
  - the avatar initials (`split(" ")`, first characters, `join`, `toUpperCase`);
  - the component state. `UsersPageState` is a class holding `currentPage`,
    `deleteUserId` and the deletion's pending flag. Its methods are the click
    and mutation handlers.
- **The dashboard shell** (`dashboard_layout.dfy`, module `DashboardLayout`):
  - the three-way session gate (loading screen, nothing, or the shell with the
    page inside) and the redirect to `/login`;
  - the navigation items and their `current` flags;
  - the mobile sidebar's open flag, updated by the `LayoutState` class.
- **Credential sign-in** (`auth.dfy`, module `Auth`):
  - `authorize`. It rejects a form with no email or password. It maps an
    accepted login answer to the user record. The login request is a function
    parameter.
  - the `jwt` and `session` callbacks. They assign fields on `Token`,
    `Session` and `SessionUser` objects in place.
  - `SignIn`, which chains the three steps as the authentication library runs
    them.

`wrappers.dfy` holds the `Option` type. It stands for JavaScript's
`undefined`/`null`.

Two behaviours of the code are worth knowing before reading the contracts:

- One might expect the previous and next controls to be disabled on the first
  and last page. The code disables them only from the server's `hasPrevPage` and
  `hasNextPage` flags. `Pagination.EnabledControlsStayInRange` therefore proves
  "no enabled control leads outside `[1, totalPages]`" only when those flags
  agree with the current page. `Pagination.InconsistentFlagsLeavePage` shows
  the other case: on page 1 with `hasPrevPage` set, prev is enabled and leads
  to page 0.
- `totalPages` is `pagination?.totalPages || 1`. A reported count of 0 becomes
  1, but a negative count is kept. The window is then empty, and the footer is
  hidden anyway because it needs `totalPages > 1`.

## Model

| member | source | states |
|---|---|---|
| `Pagination.PageWindow` | app/dashboard/users/page.tsx:72-78 | Start ≥ 1 and end ≤ totalPages. The width is min(5, totalPages) for totalPages ≥ 1 and empty otherwise. A current page in range lies in the window. Away from both ends the window is exactly current−2 … current+2. With at most five pages it ends at the last page. For currentPage ≤ 3 it starts at page 1; for currentPage ≥ totalPages−2 it ends at the last page (the re-anchoring). |
| `Pagination.Controls` | app/dashboard/users/page.tsx:80-123 | Window width + 2 controls. Prev comes first and is disabled iff !hasPrevPage. Next comes last and is disabled iff !hasNextPage. In between, position k is the button of page start+k−1, i.e. consecutive ascending page numbers. |
| `Pagination.RenderPaginationButtons` | app/dashboard/users/page.tsx:70-126 | The loop version (re-anchored `let startPage`, one push per page) returns exactly `Controls`. |
| `Pagination.Target` | app/dashboard/users/page.tsx:86-117 | The page a control's click handler selects: currentPage−1 for prev, currentPage+1 for next, and i for the button of page i. |
| `Pagination.HighlightsCurrentPage` | app/dashboard/users/page.tsx:95-109 | A control is drawn "default" iff it is the button of the current page. At most one control is "default". When 1 ≤ currentPage ≤ totalPages that button is present. |
| `Pagination.EnabledControlsStayInRange` | app/dashboard/users/page.tsx:81-123 | Assume 1 ≤ currentPage ≤ totalPages, hasPrevPage iff currentPage > 1, and hasNextPage iff currentPage < totalPages. Then every enabled control leads to a page in [1, totalPages]. |
| `Pagination.InconsistentFlagsLeavePage` | app/dashboard/users/page.tsx:81-89 | Prev is disabled only from the server's flag: on page 1 of 5 with `hasPrevPage` true, prev is enabled and its click selects page 0. |
| `Pagination.ShowingRange` | app/dashboard/users/page.tsx:281-282 | first−1 users lie on earlier pages. last ≤ totalUsers. At most `limit` (10) users lie in the range, and exactly 10 unless the range ends at totalUsers. The range is non-empty iff some user lies on the current page. |
| `UsersPage.UsersOf` | app/dashboard/users/page.tsx:63 | The response's user list when present, otherwise empty. |
| `UsersPage.PaginationOf` | app/dashboard/users/page.tsx:64 | The response's envelope, or none when there is no response. |
| `UsersPage.TotalPages` | app/dashboard/users/page.tsx:66 | Never 0. A missing envelope or a zero count gives 1; otherwise the reported count. |
| `UsersPage.HasPrevPage` | app/dashboard/users/page.tsx:68 | True iff an envelope is present and says there is a previous page; false when it is missing. |
| `UsersPage.HasNextPage` | app/dashboard/users/page.tsx:67 | True iff an envelope is present and says there is a next page; false when it is missing. |
| `UsersPage.Split` | app/dashboard/users/page.tsx:197 | At least one piece, and no piece contains a space. |
| `UsersPage.JoinSplit` | app/dashboard/users/page.tsx:196-197 | Joining the pieces with single spaces gives the name back. |
| `UsersPage.FirstChars` | app/dashboard/users/page.tsx:198-199 | At most one character per piece, and exactly one per piece when no piece is empty. |
| `UsersPage.FirstCharsComeFromPieces` | app/dashboard/users/page.tsx:198-199 | Every character produced is the first character of some non-empty piece. |
| `UsersPage.Initials` | app/dashboard/users/page.tsx:196-200 | The avatar fallback: no longer than the name and free of lower-case ASCII letters. |
| `UsersPage.UpperCase` | app/dashboard/users/page.tsx:200 | Same length, and no lower-case ASCII letter remains. Each lower-case letter moves to its upper-case code; other characters are kept. |
| `UsersPage.FirstCharsOfSplit` | app/dashboard/users/page.tsx:196-199 | The first characters of the pieces (empty pieces contributing nothing) are the characters that start a word. |
| `UsersPage.InitialsAreWordStarts` | app/dashboard/users/page.tsx:196-200 | The initials are the upper-cased first letters of the name's words, in order; leading and repeated spaces contribute nothing. |
| `UsersPage.AvatarSrc` | app/dashboard/users/page.tsx:194 | The avatar URL when present and non-empty, otherwise "/placeholder.svg". |
| `UsersPage.DeleteButtonDisabled` | app/dashboard/users/page.tsx:227 | A row's Delete button is disabled exactly while a deletion is pending and the recorded user is that row's user. |
| `UsersPage.RowFor` | app/dashboard/users/page.tsx:186-258 | A user's row carries the user's id, name, phone and post count, its initials, the `AvatarSrc` image, and the Delete button's disabled flag. |
| `UsersPage.RenderBody` | app/dashboard/users/page.tsx:158-272 | Five skeleton rows iff loading. User rows iff not loading and the list is non-empty; then one row per user in order, with its id, name, initials, avatar image, phone, post count and a Delete button disabled iff a deletion is pending for that user. The empty state iff not loading and the list is empty, so an empty table body never appears. |
| `UsersPage.UsersPageState.Render` | app/dashboard/users/page.tsx:158-286 | The body is `RenderBody` of the current state. A footer appears iff an envelope is present and totalPages > 1. It carries the range label for the current page and the controls for the current page and the envelope's flags. |
| `UsersPage.UsersPageState.DisabledIsRecordedUser` | app/dashboard/users/page.tsx:227-249 | In a valid state (a deletion is pending exactly while a user is recorded) a Delete button is disabled iff its user is the recorded one. |
| `UsersPage.UsersPageState.constructor` | app/dashboard/users/page.tsx:28-29 | The page starts on page 1 with no deletion pending. |
| `UsersPage.UsersPageState.Press` | app/dashboard/users/page.tsx:86-117 | An enabled prev moves to currentPage−1, next to currentPage+1, and page button i to i. A disabled control changes nothing. The deletion state never changes, so a valid state stays valid. |
| `UsersPage.UsersPageState.ConfirmDelete` | app/dashboard/users/page.tsx:246-249 | Records the user and starts the request. That user's Delete button is then disabled, and no other user's is. The page does not change. |
| `UsersPage.UsersPageState.DeleteSucceeded` | app/dashboard/users/page.tsx:48-52 | Clears the recorded user and the pending flag and invalidates the lists. No Delete button stays disabled. |
| `UsersPage.UsersPageState.DeleteFailed` | app/dashboard/users/page.tsx:53-56 | Clears the recorded user and the pending flag; nothing else changes. |
| `DashboardLayout.Redirect` | components/layout/dashboard-layout.tsx:22-26 | A navigation is issued iff the status is unauthenticated, and it goes to "/login". |
| `DashboardLayout.Render` | components/layout/dashboard-layout.tsx:28-41 | The loading screen iff the status is loading. Nothing iff not loading and there is no session. The page's content iff not loading and a session is present; then the shell shows the session's identity, the navigation for the pathname and the overlay iff the sidebar is open. |
| `DashboardLayout.UnauthenticatedVisitRedirects` | components/layout/dashboard-layout.tsx:22-41 | An unauthenticated visit without session data is sent to "/login" and never renders the protected content. |
| `DashboardLayout.Navigation` | components/layout/dashboard-layout.tsx:43-62 | Three items with distinct hrefs. An item is current iff the pathname equals its href, so at most one item is current. Some item is current iff the pathname is one of the three hrefs. |
| `DashboardLayout.LayoutState.constructor` | components/layout/dashboard-layout.tsx:20 | The sidebar starts closed. |
| `DashboardLayout.LayoutState.Handle` | components/layout/dashboard-layout.tsx:67-149 | After the overlay, the close button or any navigation link the sidebar is closed; after the menu button it is open. |
| `Auth.LoginRequestFor` | lib/auth.ts:13-27 | A request is issued iff the form has a non-empty email and a non-empty password, and it carries exactly those two. |
| `Auth.MissingCredentialsRejected` | lib/auth.ts:13-15 | A form lacking an email or a password issues no request and is rejected, whatever the endpoint would answer. |
| `Auth.AvatarUrl` | lib/auth.ts:39 | The user's avatar URL when present, otherwise "". |
| `Auth.UserFromLogin` | lib/auth.ts:29-42 | A record is built iff the answer was decoded with `success`, a `data` object and a `data.user`. It holds `data._id`, the user's email and name, `data`'s role and both tokens, and `AvatarUrl` of the user's avatar. |
| `Auth.Authorize` | lib/auth.ts:12-46 | No request means no user. A user is returned iff a request was made and the answer was decoded with `success`, a `data` object and a `data.user`; a thrown request, and `data.user` missing (which throws), both give null. The user's id is `data._id`; email and name come from `data.user`; role and both tokens from `data`; the avatar is `AvatarUrl` of `data.user.avatar`. |
| `Auth.Jwt` | lib/auth.ts:50-58 | Returns the same token object. With a user, the token's access token, refresh token, role and avatar become the user's. Without one, the token is unchanged. `sub`, name and email are never touched. |
| `Auth.SessionCallback` | lib/auth.ts:59-66 | Returns the same session object. The user's id becomes the token's `sub`; both tokens, the role and the avatar are copied from the token. The user's name and email and the expiry stay as they were, and the token is not changed. |
| `Auth.SignIn` | lib/auth.ts:31-66 | The user is `Authorize`'s result. On rejection nothing changes. On success the token and the session both hold exactly the access token, refresh token, role and avatar that `Authorize` produced, and the session user's id is the token's `sub`. In every case the token's `sub`, name and email, the session's user object, that user's name and email, and the expiry are unchanged. |

## Left out

- The REST client in lib/api.ts: request and response interceptors, the bearer header, the redirect on 401 and the URL templates. This is network I/O, and lib/api.ts is not part of this model.
- The login `fetch` itself and the JSON encoding of its body. `Authorize` takes the request as a function from `LoginRequest` to the decoded outcome. JSON values are modelled as typed records, so a field of the wrong type (say a non-boolean `success`) is not represented.
- The query library that backs the users page: caching and refetching are not modelled, and `isLoading` is an input to `Render`. The page never reads the query's `error`. A failed first fetch leaves no data, which `Render` receives as `response == None`, and it then shows the empty state. A failed refetch (after an invalidation, say) leaves the last response in place, and `Render` receives that response. Invalidating the "users" queries is the flag `listInvalidated`. Error and success toasts are not modelled.
- `UsersPage.UsersPageState.DeleteSucceeded`: overlapping deletions are not modelled. The mutation hook tracks only its latest call, so one request succeeding while another is in flight cannot be told apart here. The model has a single pending flag.
- The confirmation dialog's own open/closed state. It lives inside a foreign dialog component.
- The search box. It updates `searchTerm`, but nothing reads it, so the list is never filtered.
- The last-post date. It is formatted by the locale-dependent `toLocaleDateString`, and the time shown next to it is a fixed string.
- `UsersPage.FirstChars`: names are modelled as sequences of Unicode code points, not UTF-16 code units. For a name starting with a character outside the Basic Multilingual Plane, `n[0]` in JavaScript yields a lone surrogate, while the model yields the whole character.
- `UsersPage.UpperCase`: only ASCII letters are upper-cased. JavaScript's `toUpperCase` also maps other Unicode letters, some to two characters.
- A user without a `name`, for which `split` throws, is not represented: a name is always a string.
- Integer fields (pages, counts) are unbounded integers. JavaScript numbers are doubles, which agree with them below 2^53.
- `PaginationInfo`'s fields are always present. A present envelope with a missing `totalPages` (also read as 1) is not represented separately.
- How the authentication library creates the token on sign-in (`sub`, name, email) and how it stores it. `Token` is given to the callbacks as an object whose `sub`, name and email are already set.
- `signOut`, the overview page's preview list, the analytics cards and chart (fixed placeholder data), the root layout, the subscription page and all styling. These are presentation or foreign calls.
