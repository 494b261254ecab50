# SOF_frontend client rules in Dafny

This project models the client-side rules of a Stack Overflow–style web
front end built with Next.js. It proves properties about them. The model
covers:

- **The session.** This is the `AuthProvider` state: the signed-in user and
  a loading flag. It also covers:
  - the `auth_token` and `stackoverflow_user` keys in local storage;
  - the `auth_token` cookie;
  - the bootstrap, login, signup and logout transitions;
  - the API client's interceptors, which add the token header and turn a
    401 into a forced sign-out.
- **The navigation rules:**
  - the route guard (`middleware`) and its matcher;
  - the sidebar's active-link test;
  - the redirect of the own-profile page.
- **The ask-question form.** The tag list holds at most five distinct tags.
  Tag suggestions are fetched only for queries of two or more characters.
  Submit is validated before the question is created.
- **The questions, tags and users listings:**
  - how the URL's query parameters are rewritten by search, sort and paging;
  - the filter each page sends for the current URL;
  - the page counts;
  - the display helpers: excerpt, count label, description fallback,
    initials, location and badge defaults.
- **The form dialogs.** The signup, login and profile-editing dialogs are
  modelled through their submit handlers and their error and loading rules.

Every remote call is a `Result` outcome that the caller supplies: `Ok` with
the server's answer, or `Err` with the rejected error's status and message.
The model states what each handler does with either outcome. Where it
matters, an out-parameter records whether the remote call was issued at
all, and with what payload.

Browser state is the class `Web.Browser`:

- local storage is a map from key to value;
- the cookie jar maps a name to its value and path;
- `window.location.href` is a string field.

URL query parameters are a map from name to value. A listing's
navigation (`router.push`) is returned as a `Route` value: the path and
its parameters. The own-profile redirect returns the sequence of pushed
paths, and the ask-question submit returns the pushed path as an
`Option<string>`.

Modules follow the source files:

| module | source |
|---|---|
| `ApiClient` | lib/api-client.ts |
| `AuthService` | services/auth-service.ts |
| `Session` | components/auth-provider.tsx |
| `RouteGuard` | middleware.ts |
| `SessionGuard` | how the session cookie meets the route guard |
| `Sidebar` | components/sidebar.tsx |
| `MyProfile` | app/users/me/page.tsx |
| `AskQuestion` | app/questions/ask/page.tsx |
| `Listing` | the URL parameter handling shared by the three listings |
| `QuestionsPage` | app/questions/page.tsx |
| `TagsPage` | app/tags/page.tsx |
| `UsersPage` | app/users/page.tsx |
| `SignupModal` | components/signup-modal.tsx |
| `LoginModal` | components/login-modal.tsx |
| `EditProfileModal` | components/edit-profile-modal.tsx |

`Wrappers`, `Strings` and `Web` hold the option and result types, the
string helpers and the browser state.

Behaviours of the code that the model pins down:

- Both password checks come before the remote call. The dialog checks
  first, and the provider's `signup` checks again before `register` is
  called.
- A failed remote logout clears the two storage keys but leaves the
  `auth_token` cookie, so the route guard still lets protected paths
  through (`SessionGuard.FailedLogoutLeavesGuardOpen`).
- A 401 makes the response interceptor remove only the two storage keys and
  set `window.location.href` to "/login". It does not remove the cookie. The
  assignment loads a new page, and on that page the provider starts again
  with no user.

## Model

| member | source | states |
|---|---|---|
| Strings.TrimStart | app/questions/ask/page.tsx:76 | the result is a suffix of the input; it is empty exactly when the input is all JavaScript white space, and otherwise starts with a non-white-space character |
| Strings.TrimStartDropsOnlyWhite | app/questions/ask/page.tsx:76 | the prefix that leading trimming cuts off is all white space |
| Strings.TrimEnd | app/questions/ask/page.tsx:76 | the result is a prefix of the input; it is empty exactly when the input is all white space, and otherwise ends with a non-white-space character; the cut-off suffix is all white space |
| Strings.Trim | app/questions/ask/page.tsx:76 | `s.trim()` is no longer than `s` and is empty exactly when `s` is all white space |
| Strings.TrimIsInfix | app/questions/ask/page.tsx:76 | the trimmed text is a contiguous piece of the input that neither starts nor ends with white space, and only white space is cut off on either side |
| Strings.IsBlank | app/questions/ask/page.tsx:76 | `!s.trim()` holds exactly when every character of `s` is JavaScript white space |
| Strings.SplitSpaces | app/users/page.tsx:139-140 | `split(" ")` gives at least one part, and no part contains a space |
| Strings.JoinSplit | app/users/page.tsx:139-142 | joining the parts of `split(" ")` back with spaces gives the original name, so the split loses nothing |
| Strings.NatToString | app/questions/page.tsx:112 | `page.toString()` of a natural number is a non-empty string of decimal digits |
| Strings.ParsePrintedNat | app/questions/page.tsx:30 | reading back the decimal text written by `page.toString()` with `parseInt(…, 10)` gives the same page number |
| Strings.ParseDecimal | app/questions/page.tsx:30 | `parseInt` gives NaN exactly when the text does not start with a decimal digit |
| Web.WithoutCookie | services/auth-service.ts:60 | removing a cookie for a path drops that name when the cookie's path matches and leaves the jar unchanged otherwise; every other cookie keeps its value |
| ApiClient.BaseUrl | lib/api-client.ts:5 | the configured base URL when it is set and non-empty, otherwise "http://localhost:8000/api" |
| ApiClient.StoredToken | lib/api-client.ts:17-18 | a token is sent exactly when `auth_token` is stored and non-empty, and it is the stored value |
| ApiClient.AuthorizationHeader | lib/api-client.ts:19 | the header is "Token " followed by exactly the token |
| ApiClient.HrefAfterError | lib/api-client.ts:34-41 | a 401 sends the browser to "/login"; any other error leaves the location as it was |
| ApiClient.ClearedStorage | lib/api-client.ts:37-38 | both session keys are gone and every other key keeps its value |
| ApiClient.StorageAfterError | lib/api-client.ts:32-44 | a rejected request never writes storage; a non-401 error leaves it as it was; a 401 removes the `auth_token` and `stackoverflow_user` keys |
| ApiClient.RequestConfig.constructor | lib/api-client.ts:6-8 | a new request carries the JSON content type header |
| ApiClient.OnRequest | lib/api-client.ts:14-23 | in a browser with a stored non-empty token, `Authorization` becomes "Token " + token; otherwise the headers are unchanged; the same config is returned |
| ApiClient.OnResponseError | lib/api-client.ts:32-44 | every error, 401 included, is rejected unchanged; in a browser a 401 clears the two keys and sets the location to "/login"; cookies are never touched |
| ApiClient.Send | lib/api-client.ts:12-45 | a request through both interceptors: the result is the server's outcome; a success changes neither storage nor location; an error has the interceptor's effects |
| AuthService.UserJson | services/auth-service.ts:29 | the stored user is a serialised JSON object |
| AuthService.SessionStorage | services/auth-service.ts:28-29 | the stored session holds the response token under `auth_token` and the serialised user under `stackoverflow_user` |
| AuthService.SessionCookies | services/auth-service.ts:32 | the `auth_token` cookie holds the response token with path "/" |
| AuthService.SessionReadsBack | services/auth-service.ts:28-32 | after a session is stored, the client sends the response's token (when non-empty), the cookie holds it for path "/", the stored user is the serialised user, and every other key is untouched |
| AuthService.ClearedSessionHasNoToken | services/auth-service.ts:56-60 | logging out after storing a session leaves no token in storage and no `auth_token` cookie |
| AuthService.StoreSession | services/auth-service.ts:28-32 | writes the token and user to storage and the token cookie with path "/"; the location is unchanged |
| AuthService.Authenticate | services/auth-service.ts:24-35 | on success returns the user and stores the session; on failure writes nothing: storage changes only as the 401 rule says, cookies not at all |
| AuthService.Login | services/auth-service.ts:24-35 | the contract of `Authenticate` for `/auth/login/` |
| AuthService.Register | services/auth-service.ts:38-49 | exactly the same storage and cookie effects as login |
| AuthService.Logout | services/auth-service.ts:52-61 | storage keys and cookie are removed only after the remote call succeeds; a failure leaves cookies alone and storage as the 401 rule says |
| AuthService.GetCurrentUser | services/auth-service.ts:64-67 | returns the fetched user; cookies untouched; an error has the interceptor's effects |
| AuthService.IsAuthenticated | services/auth-service.ts:70-72 | true exactly when a non-empty `auth_token` is stored |
| Session.MismatchError | components/auth-provider.tsx:78-80 | the error thrown for differing passwords carries "Passwords don't match" and no HTTP status |
| Session.AuthProvider.constructor | components/auth-provider.tsx:34-35 | a new session has no user and is loading |
| Session.AuthProvider.CheckAuthStatus | components/auth-provider.tsx:40-54 | the user is fetched only when a token is stored; a failed fetch clears both keys and keeps the user; loading always ends false |
| Session.AuthProvider.Login | components/auth-provider.tsx:60-71 | success sets the user to the returned user and stores the session; failure rethrows, keeps the user and stores nothing; loading ends false |
| Session.AuthProvider.Signup | components/auth-provider.tsx:74-95 | differing passwords fail with the mismatch error without calling register; otherwise register gets the four fields and the outcome is handled as in login; loading ends false |
| Session.AuthProvider.Logout | components/auth-provider.tsx:98-109 | the user is always cleared and both keys are removed; the cookie is removed only when the remote call succeeds |
| RouteGuard.Middleware | middleware.ts:5-21 | the answer is either next or a redirect to "/?login=true"; it redirects exactly when the path starts with "/questions/ask" or "/users/me" and no non-empty `auth_token` cookie is sent |
| RouteGuard.SomePrefix | middleware.ts:8 | `routes.some(startsWith)` holds exactly when some route is a prefix of the path |
| RouteGuard.UnprotectedPasses | middleware.ts:8-20 | a path under neither protected prefix passes whatever the cookies |
| RouteGuard.RedirectIff | middleware.ts:7-20 | a redirect happens exactly for a protected prefix with no non-empty token, and its target is always "/?login=true" |
| RouteGuard.AnyTokenPasses | middleware.ts:12-20 | any non-empty token passes; its content is never checked |
| RouteGuard.LookAlikePathsGuarded | middleware.ts:8 | "/users/meow" and "/questions/asked" are guarded too, because the test is a bare prefix |
| RouteGuard.Matched | middleware.ts:24-26 | the matcher selects exactly "/questions/ask", "/users/me" and the paths below them |
| RouteGuard.MatchedIsAuthRoute | middleware.ts:7-26 | every path the matcher selects starts with a protected prefix |
| RouteGuard.Effective | middleware.ts:5-26 | what a request meets: a redirect to "/?login=true" exactly for a matched path without a non-empty token cookie, otherwise next |
| RouteGuard.MatchedPathsAreGuarded | middleware.ts:24-26 | every path the matcher selects is protected, so without a token it is redirected |
| RouteGuard.LookAlikePathsNotMatched | middleware.ts:24-26 | the look-alike paths never reach the guard, because the matcher skips them |
| SessionGuard.SentCookies | services/auth-service.ts:32 | the cookies sent with a request are exactly those whose path matches it, with their values |
| SessionGuard.StoredSessionPassesGuard | middleware.ts:12-20 | once login or register has stored a non-empty token, every path passes the guard |
| SessionGuard.LoggedOutIsRedirected | middleware.ts:12-17 | after the service's logout removes the cookie, protected paths are redirected again |
| SessionGuard.FailedLogoutLeavesGuardOpen | components/auth-provider.tsx:102-107 | after a failed remote logout the client holds no token, yet the surviving cookie still passes the guard |
| Sidebar.IsActive | components/sidebar.tsx:11-13 | a link is active exactly when there is a pathname and it is the link's path, or the path followed by "/" and anything |
| Sidebar.ActiveIff | components/sidebar.tsx:12 | a link is active exactly for its own path, or its path followed by "/" and anything |
| Sidebar.NothingActiveWithoutPath | components/sidebar.tsx:12 | with no pathname, no link is active |
| Sidebar.BarePrefixInactive | components/sidebar.tsx:12 | "/questionsX" does not activate "/questions", while "/questions/42" does |
| Sidebar.HomeActiveIff | components/sidebar.tsx:11-13 | Home is active only on "/" or a path beginning "//" |
| Sidebar.HomeNotActiveOnSection | components/sidebar.tsx:11-13 | below "/questions" only the Questions link is active |
| MyProfile.Redirects | app/users/me/page.tsx:12-22 | no push while loading; a loaded user goes to "/users/<id>"; no user goes to "/?login=true" |
| MyProfile.AtMostOnePush | app/users/me/page.tsx:14-21 | the two conditions exclude each other, so a loaded run pushes exactly once |
| AskQuestion.Without | app/questions/ask/page.tsx:64 | the filtered list keeps exactly the other tags and is unchanged when the tag is absent |
| AskQuestion.WithoutCutsOut | app/questions/ask/page.tsx:64 | in a duplicate-free list, removing a tag cuts out its one occurrence and keeps the rest in order |
| AskQuestion.WithoutNoDuplicates | app/questions/ask/page.tsx:64 | removing keeps the list duplicate-free |
| AskQuestion.AskQuestionPage.Valid | app/questions/ask/page.tsx:54-60 | the tag list invariant: a valid list holds as many distinct tags as it is long, and at most five |
| AskQuestion.AskQuestionPage.constructor | app/questions/ask/page.tsx:19-26 | the form starts empty, with no tags and all flags false |
| AskQuestion.AskQuestionPage.HandleTagSearch | app/questions/ask/page.tsx:33-51 | the input shows the query; a query under two characters clears suggestions without searching; a failed search keeps the old ones; the searching flag ends false |
| AskQuestion.AskQuestionPage.AddTag | app/questions/ask/page.tsx:54-60 | a duplicate or sixth tag changes nothing; otherwise the tag is appended, the input cleared and suggestions emptied; at most five distinct tags always |
| AskQuestion.AskQuestionPage.RemoveTag | app/questions/ask/page.tsx:63-65 | the tag is removed and the rest keep their order; the list stays valid |
| AskQuestion.AskQuestionPage.HandleSubmit | app/questions/ask/page.tsx:68-110 | with no user the login dialog opens and nothing is created; a blank title or body creates nothing; otherwise the untrimmed fields and tags are sent and a success redirects to the new question |
| AskQuestion.WhitespaceOnlyBlocks | app/questions/ask/page.tsx:76 | a title or body of spaces, tabs and newlines only is blank |
| AskQuestion.VisibleCharacterPasses | app/questions/ask/page.tsx:76 | any non-white-space character makes the field pass the check |
| Listing.ParamOr | app/questions/page.tsx:34 | a missing or empty parameter reads as the default |
| Listing.NonEmpty | app/questions/page.tsx:64-66 | an optional filter field is present exactly when its text is non-empty |
| Listing.CurrentPage | app/questions/page.tsx:30 | a missing page parameter means page 1 |
| Listing.ApplySearch | app/questions/page.tsx:99-105 | sets `q` to a non-empty query or deletes it, resets `page` to "1" and touches nothing else |
| Listing.ApplySort | app/questions/page.tsx:89-91 | sets `sort`, resets `page` to "1" and touches nothing else |
| Listing.ApplyPage | app/questions/page.tsx:111-112 | sets `page` to the page's decimal text and touches nothing else |
| Listing.SearchResetsPage | app/questions/page.tsx:95-107 | after a search the page reads as 1 and the query reads back |
| Listing.SortResetsPage | app/questions/page.tsx:87-93 | after a sort change the page reads as 1, the sort reads back and the search is kept |
| Listing.PageReadsBack | app/questions/page.tsx:109-114 | after paging the page reads back as the chosen number and every other parameter reads as before |
| Listing.TotalPages | app/questions/page.tsx:232 | `Math.ceil(total / pageSize)`: the fewest pages that hold all items |
| Listing.TotalPagesZeroIff | app/questions/page.tsx:228-232 | there are no pages exactly when there are no items |
| QuestionsPage.Excerpt | app/questions/page.tsx:201 | content of at most 200 characters is shown whole; longer content is its first 200 characters followed by "..." |
| QuestionsPage.CountLabel | app/questions/page.tsx:151 | the noun is singular exactly when the total is 1 |
| QuestionsPage.QuestionsPage.constructor | app/questions/page.tsx:18-23 | the page starts loading, on the "newest" tab, with no questions |
| QuestionsPage.QuestionsPage.SyncFromUrl | app/questions/page.tsx:42-48 | the search box and tab follow the URL, with "newest" as the default sort |
| QuestionsPage.QuestionsPage.BuildFilters | app/questions/page.tsx:57-71 | page, page size 10 and sort are always sent; `search` only for a non-empty `q`; `tags` as a one-element list only for a non-empty `tag` |
| QuestionsPage.QuestionsPage.FetchQuestions | app/questions/page.tsx:51-82 | success replaces the list and total; failure sets the error and keeps the list; loading ends false |
| QuestionsPage.QuestionsPage.HandleTabChange | app/questions/page.tsx:87-93 | pushes /questions with the sort set to the tab and page "1", other parameters kept |
| QuestionsPage.QuestionsPage.HandleSearch | app/questions/page.tsx:95-107 | pushes /questions with `q` set or deleted and page "1" |
| QuestionsPage.QuestionsPage.HandlePageChange | app/questions/page.tsx:109-114 | pushes /questions with only the page changed |
| QuestionsPage.QuestionsPage.Pagination | app/questions/page.tsx:191-234 | shown exactly when loaded without error and the list is non-empty, with ceil(total / 10) pages |
| QuestionsPage.SearchThenFetch | app/questions/page.tsx:57-71 | after a search, the next fetch asks for page 1 with exactly that query and the old sort and tag |
| QuestionsPage.TabThenFetch | app/questions/page.tsx:87-93 | after a tab change, the next fetch asks for page 1 in that order with the search and tag kept |
| QuestionsPage.PageThenFetch | app/questions/page.tsx:109-114 | after paging, the next fetch differs from the previous one only in its page |
| TagsPage.Description | app/tags/page.tsx:178 | a missing or empty description shows "Questions related to <name>" |
| TagsPage.TagsPage.constructor | app/tags/page.tsx:15-20 | the page starts loading, on the "popular" filter, with no tags |
| TagsPage.TagsPage.SyncFromUrl | app/tags/page.tsx:35-39 | the search box and active filter follow the URL, with "popular" as the default |
| TagsPage.TagsPage.BuildFilters | app/tags/page.tsx:47-55 | page, page size 20 and sort (default "popular") are always sent; `search` only for a non-empty `q` |
| TagsPage.TagsPage.FetchTags | app/tags/page.tsx:42-66 | success replaces the list and total; failure sets the error and keeps the list; loading ends false |
| TagsPage.TagsPage.HandleSearch | app/tags/page.tsx:71-83 | pushes /tags with `q` set or deleted and page "1" |
| TagsPage.TagsPage.HandleFilterChange | app/tags/page.tsx:85-90 | pushes /tags with the sort set and page "1", other parameters kept |
| TagsPage.TagsPage.HandlePageChange | app/tags/page.tsx:92-97 | pushes /tags with only the page changed |
| TagsPage.TagsPage.Pagination | app/tags/page.tsx:163-193 | shown exactly when loaded without error and the list is non-empty, with ceil(total / 20) pages |
| TagsPage.SearchThenFetch | app/tags/page.tsx:47-55 | after a search, the next fetch asks for page 1 with exactly that query and the old sort |
| TagsPage.FilterThenFetch | app/tags/page.tsx:85-90 | after a sort change, the next fetch asks for page 1 in that order with the search kept |
| TagsPage.PageThenFetch | app/tags/page.tsx:92-97 | after paging, the next fetch differs from the previous one only in its page |
| UsersPage.FilterFor | app/users/page.tsx:43-53 | the page read from the URL, page size 12 and sort "reputation" always; the search is always sent, empty when `q` is absent |
| UsersPage.Heads | app/users/page.tsx:141-142 | `map(n => n[0]).join("")` adds at most one character per part |
| UsersPage.Initials | app/users/page.tsx:139-142 | the initials are exactly the word-start characters of the name (the direct scan), no longer than the name and without spaces |
| UsersPage.SplitHeadsAreWordStarts | app/users/page.tsx:139-142 | `split(" ").map(n => n[0]).join("")` equals a direct scan keeping each non-space character at the start of a word |
| UsersPage.TwoWordInitials | app/users/page.tsx:139-142 | a first and last name separated by one space give their two first letters |
| UsersPage.LocationLabel | app/users/page.tsx:149 | a missing or empty location shows "No location" |
| UsersPage.BadgeCount | app/users/page.tsx:156-164 | a missing badge count shows 0 |
| UsersPage.AvatarSrc | app/users/page.tsx:134-136 | the user's picture, or a placeholder lettered with the name's first character |
| UsersPage.UsersPage.constructor | app/users/page.tsx:16-20 | the page starts loading with no users |
| UsersPage.UsersPage.SyncFromUrl | app/users/page.tsx:32-35 | the search box follows the URL |
| UsersPage.UsersPage.FetchUsers | app/users/page.tsx:38-64 | sends the filter for the URL; success replaces the list and total; failure sets the error and keeps the list; loading ends false |
| UsersPage.UsersPage.HandleSearch | app/users/page.tsx:69-81 | pushes /users with `q` set or deleted and page "1" |
| UsersPage.UsersPage.HandlePageChange | app/users/page.tsx:83-88 | pushes /users with only the page changed |
| UsersPage.UsersPage.Pagination | app/users/page.tsx:123-195 | shown exactly when loaded without error and the list is non-empty, with ceil(total / 12) pages |
| UsersPage.SearchThenFetch | app/users/page.tsx:43-53 | after a search, the next fetch is for page 1 with exactly that query, empty when cleared |
| UsersPage.PageThenFetch | app/users/page.tsx:83-88 | after paging, the next fetch differs from the previous one only in its page |
| SignupModal.FailureText | components/signup-modal.tsx:54 | the thrown message, or "Failed to create account" when it is empty |
| SignupModal.SignupDialog.constructor | components/signup-modal.tsx:27-32 | the dialog starts with empty fields, no error and not loading |
| SignupModal.SignupDialog.HandleSubmit | components/signup-modal.tsx:36-58 | the error is cleared first; a mismatch shows "Passwords don't match" and changes neither loading nor the session; otherwise `signup` gets the display name as username; success closes the dialog, stores the session in storage and the cookie, and sets the user; failure shows the failure text, keeps the user and cookies, and applies the 401 rule to storage and location; both loading flags end false |
| LoginModal.LoginDialog.constructor | components/login-modal.tsx:27-30 | the dialog starts with empty fields, no error and not loading |
| LoginModal.LoginDialog.HandleSubmit | components/login-modal.tsx:34-49 | success closes the dialog with no error, sets the user, and stores the session in storage and the cookie; any failure shows "Invalid email or password" whatever the server said, keeps the user and cookies, and applies the 401 rule to storage and location; both loading flags end false |
| EditProfileModal.WithField | components/edit-profile-modal.tsx:51-56 | the edited field takes the value and the other two keep theirs |
| EditProfileModal.LastEditWins | components/edit-profile-modal.tsx:51-56 | editing a field twice keeps only the last value |
| EditProfileModal.EditsCommute | components/edit-profile-modal.tsx:51-56 | edits of two different fields give the same result in either order |
| EditProfileModal.FirstFile | components/edit-profile-modal.tsx:88 | no file list or an empty one gives no avatar; otherwise the first file |
| EditProfileModal.EditProfileDialog.constructor | components/edit-profile-modal.tsx:40-45 | the form starts with three empty fields and no avatar |
| EditProfileModal.EditProfileDialog.SyncInitialData | components/edit-profile-modal.tsx:47-49 | the form state is replaced by the initial data |
| EditProfileModal.EditProfileDialog.HandleChange | components/edit-profile-modal.tsx:51-57 | exactly the edited field changes |
| EditProfileModal.EditProfileDialog.ChooseAvatar | components/edit-profile-modal.tsx:88 | the avatar becomes the first chosen file, or none |
| EditProfileModal.EditProfileDialog.HandleSubmit | components/edit-profile-modal.tsx:59-70 | `onSave` gets the current fields and avatar, then `onClose` is called, in that order |

## Left out

- JSX markup, styling, icons, toasts and `console.error` logging. They decide nothing the model states.
- Async interleaving is not modelled: racing fetches, stale tag-search results, overlapping login and logout. Each handler is treated as one atomic step, and the remote outcome is a parameter.
- React plumbing is left out: `useAuth` throwing outside the provider, effect scheduling, and `useSearchParams`. The effects appear as methods (`SyncFromUrl`, `FetchQuestions`, …) that the page would run.
- The 401 rule of the response interceptor is threaded through the auth-service calls only. The page-level calls (tag search, question creation, list fetches) are plain outcomes, and their 401 side effects are not repeated there.
- Request bodies, URLs and the axios configuration beyond the base URL and headers are not modelled. `AuthService.Login` and `AuthService.Register` take their credentials but state nothing about the request body.
- `AuthService.UserJson` is a simplified JSON encoder without string escaping; only its role as the stored user matters.
- `URLSearchParams` is a map, so parameter order and repeated keys are not modelled, and neither is the query-string encoding of the pushed URL.
- `Number.parseInt` is modelled as a parse of leading decimal digits into a natural number, with `None` for NaN. Leading white space and a sign are not modelled.
- `SessionGuard.SentCookies` uses the path-match of RFC 6265 only. Cookie domain, expiry and security attributes are not modelled.
- The Next.js redirect resolves "/?login=true" against the request URL. The model keeps the relative target.
- `toLocaleString` and other locale formatting are not modelled. String lengths are counted in characters, not UTF-16 code units.
- `EditProfileModal.EditProfileDialog.HandleChange`: the source writes whatever key the input's `name` holds. The model restricts it to the three named inputs the form renders.
- `UsersPage.BadgeCount`: `|| 0` also maps NaN to 0. Counts are integers here, so that case does not arise.
- The parent callbacks `onSave` and `onClose` are recorded as calls, or returned as a `closed` flag. What the parent does with them is not part of this model.
- `QuestionsPage.QuestionsPage.BuildFilters`, `TagsPage.TagsPage.BuildFilters`: `sort_by` is sent as read from the URL. The union type of allowed sorts is a compile-time annotation only.
