# RunPro admin dashboard — a Dafny model of its session and data-view logic

The admin dashboard is a single-page React application. An administrator signs in on the
login form. The form stores a bearer token and the user record in browser storage. A route
guard then admits the administrator to a shell with a side menu, a header and five pages:
Dashboard, Services, Delivery tracking, Service Providers and the support Chat Box. Each page
fetches data through a small API client and falls back to built-in sample data when the
backend fails.

This project models that logic in Dafny and proves what it promises. It has three parts.

- **Session lifecycle.** Browser storage is a class holding a `map<string, string>`.
  - The login form (`Login.LoginForm`, over `AuthService.LoginAdmin`) validates the reply, gates on
    the two login roles and writes `token` and `user`.
  - `Auth.UseAuth` derives `isAuthenticated` and `isAuthorized`.
  - The route guard (`ProtectedRoute.Decide` / `Guard`) redirects, revokes or renders.
  - There are two logouts: the header's (`Header.HandleLogout`) and the side menu's default one
    (`Sidebar.DefaultLogout`), which also empties session storage and expires every cookie.
  - `Session` holds the theorems that span files. A successful login makes the guard grant.
    Either logout makes every protected path redirect to "/". The login roles are a subset of the
    guard's allow-list.
- **Response normalisation and fallback.**
  - The API wrappers (`AdminService`) either normalise a failure into `{success: false, <list>: []}`
    or rethrow it.
  - The page fetch handlers (`ListFetch`, `ServicesPage`, `ProvidersPage`, `DeliveryPage`,
    `DashboardPage`) choose between the server's list, a fixed sample list and an error message,
    and they always clear their loading flags.
- **Status, label and colour mappings.** Each page's badge colours and labels, the header title,
  the unread count, `safeString`, the delivery icon and the "last updated" wording.

JavaScript behaviour the code depends on is written out explicitly:
- truthiness, `String()` and `a || b`;
- values that may or may not be arrays (`JsList`);
- awaited calls that return or throw (`Call`);
- `String.prototype.trim` and `toLowerCase` (`Text`);
- the `^ +` and `=.*` regular expressions of the cookie rewrite (`Sidebar`).

`JSON.stringify`/`JSON.parse` of the stored user are replaced by a codec (`UserCodec`) whose round
trip is proved. Its parser fails exactly where a parse of a corrupt record would throw.

Notable behaviours of the code, which the model keeps:
- **A corrupt stored user crashes the login page and the guard.** `useAuth.js:17` calls `JSON.parse`
  unguarded, and both the login form (`Login.jsx:8`) and the guard call `useAuth`. So with a "user"
  entry that does not parse, every path throws instead of treating the session as absent. The
  administrator cannot even reach the form to sign in again (`App.Visit` gives `LoginCrashed` for
  "/"; `Auth.AuthResult.ParseThrows`, `ProtectedRoute.Decision.Throws`). The header's loader throws
  the same way (`Header.HeaderState.LoadStoredUser`).
- **Only some wrappers normalise failures.** `getActiveDeliveries` and the support, payment, account
  and admin wrappers rethrow, so the Delivery page does branch on transport errors.
- **The Services and Service Providers catch blocks are dead code.** Their wrappers never reject,
  so "Failed to load … data" can never appear on those pages
  (`ServicesPage.WrappedFetchKeepsError`, `ProvidersPage.WrappedFetchShowsArrays`).
- **Delivery's success branch does not fall back to [].** It stores `response.deliveries` as given.
  A successful body without an array makes the overview throw while rendering
  (`DeliveryPage.SuccessWithoutListBreaksOverview`).
- **The header's logout goes to "/login", and that path is guarded.** The guard then redirects to "/"
  (`Session.HeaderLogoutThenRedirect`).

## Model

| member | source | states |
|---|---|---|
| Storage.Lookup | src/hooks/useAuth.js:15-16 | `getItem` gives the stored value for a key that is present and null for one that is absent |
| Storage.KeyValueStore.GetItem | src/hooks/useAuth.js:15-16 | reading a key returns its stored value or nothing, and storage is unchanged |
| Storage.KeyValueStore.SetItem | src/pages/Login.jsx:49-50 | the key is bound to the value; every other key is unchanged |
| Storage.KeyValueStore.RemoveItem | src/components/ProtectedRoute.jsx:20-21 | only that key is removed |
| Storage.KeyValueStore.Clear | src/components/Sidebar.jsx:55 | session storage is left empty |
| UserCodec.Serialize | src/pages/Login.jsx:50 | the stored user text is never empty |
| UserCodec.Parse | src/hooks/useAuth.js:17 | parsing the empty text fails, as `JSON.parse("")` throws |
| UserCodec.ParseSerialize | src/pages/Login.jsx:50 | parsing what login stored gives back the same user record (round trip) |
| Auth.StoredUser | src/hooks/useAuth.js:16-17 | a missing or empty "user" entry reads as null, with no parse; otherwise the entry is parsed |
| Auth.UseAuth | src/hooks/useAuth.js:14-20 | without a window, neither flag holds; the hook throws exactly when the stored user is corrupt; authenticated implies a non-empty token and a truthy user; authorized implies a truthy user with an allowed role |
| Auth.ReadAuthState | src/hooks/useAuth.js:15-17 | computing the auth state only reads storage and equals `UseAuth` on the stored items |
| Auth.AuthenticatedIff | src/hooks/useAuth.js:19 | `isAuthenticated` holds iff a non-empty token and a truthy user are stored |
| Auth.AuthorizedIgnoresToken | src/hooks/useAuth.js:20 | `isAuthorized` holds iff the user is truthy and its role is on the allow-list, whatever the token |
| Auth.NoTokenNotAuthenticated | src/hooks/useAuth.js:15-19 | with no token stored, the user is not authenticated, whatever user record is stored |
| Auth.CommaJoinedRoleNotAllowed | src/hooks/useAuth.js:3-12 | the allow-list is exactly the four roles, and the comma-joined string is not among them |
| ProtectedRoute.Decide | src/components/ProtectedRoute.jsx:9-26 | throws iff the stored user is corrupt; renders iff the token is present and the user is truthy with an allowed role; redirects with "Access denied" iff the token is present and the user is truthy with a disallowed role; with no token it only ever gives the plain redirect; every redirect goes to "/" with replace |
| ProtectedRoute.Guard | src/components/ProtectedRoute.jsx:12-25 | the decision is `Decide` on the storage before the call; "token" and "user" are removed on the access-denied branch only, and storage is unchanged on the others |
| ProtectedRoute.RevokedThenPlainRedirect | src/components/ProtectedRoute.jsx:20-22 | after a revocation the guard evaluates to the plain redirect with no error |
| ProtectedRoute.RevocationKeepsOtherKeys | src/components/ProtectedRoute.jsx:20-21 | revocation leaves every key other than "token" and "user" as it was |
| AuthService.BuildLoginRequest | src/services/authService.js:10-18 | a POST to /api/auth/login with a JSON content type, carrying the trimmed identifier and password |
| AuthService.RequestCredentialsTrimmed | src/services/authService.js:16-17 | the credentials sent have no surrounding white space |
| AuthService.PaddedCredentialsTrimmed | src/services/authService.js:16-17 | credentials padded with a space on each side are sent without the padding |
| AuthService.LoginAdmin | src/services/authService.js:6-35 | returns iff the reply is ok and its body parses, and then returns the body unchanged; a non-ok reply with a parsed body throws the body's message, else "HTTP <status>"; a network or parse error is rethrown with its own message and no response message |
| AuthService.StatusMessagesDistinct | src/services/authService.js:27 | two different statuses never give the same "HTTP <status>" message |
| Login.CatchMessage | src/pages/Login.jsx:56 | the response's message if present, else the error's message, else "Login failed. Try again." |
| Login.SubmitOutcome | src/pages/Login.jsx:31-56 | accepted iff the call returned a non-empty token and a truthy user with a login role; a missing token or user gives "Invalid response from server."; any other role gives the access-denied message; a thrown error gives the catch message |
| Login.AcceptedRoleIsLoginRole | src/pages/Login.jsx:43 | an accepted user has a role, and it is super_admin or admin_head |
| Login.LoginForm.constructor | src/pages/Login.jsx:11-14 | empty fields, not loading, no error |
| Login.LoginForm.ShowStateError | src/pages/Login.jsx:20-24 | an error passed in the navigation state becomes the form error |
| Login.LoginForm.Submit | src/pages/Login.jsx:26-128 | a request is sent iff the button is enabled (not loading) and both required fields are non-empty, and it carries the trimmed credentials; then the error is cleared and loading is set, otherwise nothing changes |
| Login.LoginForm.Complete | src/pages/Login.jsx:32-59 | loading ends whatever the outcome; on acceptance the token and the serialised user are stored and navigation goes to "/dashboard" with replace; otherwise storage and navigation are unchanged and the error is set |
| Header.PageTitle | src/components/Header.jsx:63-76 | the nine known ids get their titles; the result is "Dashboard" exactly for "dashboard" and for unknown ids |
| Header.CountUnread | src/components/Header.jsx:83-85 | the number of notifications whose `read` flag is false (their occurrences among the flags); at most the list length, and 0 iff all are read |
| Header.UnreadCount | src/components/Header.jsx:83-85 | 0 for a non-array; for an array, exactly the number of unread notifications; positive (dot shown) iff some notification is unread |
| Header.NormalizeNotifications | src/components/Header.jsx:33-35 | a null body gives nothing to apply (it throws in the source); an array body is used as is; an object body gives its `notifications` when that is an array or another truthy value, and [] when it is falsy |
| Header.DisplayName | src/components/Header.jsx:19 | the stored name if the user is a record with a non-empty name, else "Admin"; never empty |
| Header.DisplayImage | src/components/Header.jsx:20 | the stored image (as its URL) if the user is a record with a non-empty image, else the default avatar |
| Header.HeaderState.constructor | src/components/Header.jsx:9-12 | no notifications, name "Admin", the default avatar |
| Header.HeaderState.LoadStoredUser | src/components/Header.jsx:15-23 | a corrupt entry throws and changes nothing; a truthy stored user sets name and image with their defaults; otherwise the defaults stay |
| Header.HeaderState.ApplyNotifications | src/components/Header.jsx:27-42 | a failed fetch (or a null body) keeps the current list; otherwise the normalised list replaces it |
| Header.HandleLogout | src/components/Header.jsx:78-82 | removes "token" and "user" and no other key, then goes to "/login" |
| App.RenderPage | src/App.jsx:27-48 | each of services, delivery, providers and support selects its own page (support selects the chat box); every other value, "dashboard" included, renders the Dashboard |
| App.Shell.constructor | src/App.jsx:24-25 | the active page starts as "dashboard" and the sidebar starts closed |
| App.Visit | src/App.jsx:52-83 | "/" renders the login form unguarded, unless the stored user does not parse, when the form's own `useAuth` call crashes it; every other path gets the guard's decision |
| Sidebar.StripLeadingSpaces | src/components/Sidebar.jsx:60 | drops exactly the leading U+0020 characters |
| Sidebar.LineLength | src/components/Sidebar.jsx:61 | the extent of `.*`: no line terminator before it, and one right after it if it stops early |
| Sidebar.CookieName | src/components/Sidebar.jsx:61 | a cookie's name contains no '=' |
| Sidebar.ExpireCookieKeepsName | src/components/Sidebar.jsx:59-61 | the rewritten cookie starts with no space and has the same name as the cookie with its leading spaces stripped |
| Sidebar.ExpireCookieOneLine | src/components/Sidebar.jsx:59-61 | a one-line "name=value" cookie becomes "name=;expires=<now>;path=/" |
| Sidebar.ExpireCookieWithoutValue | src/components/Sidebar.jsx:59-61 | a cookie with no '=' is only stripped of leading spaces |
| Sidebar.ExpireCookieIdempotent | src/components/Sidebar.jsx:59-61 | rewriting an already rewritten cookie changes nothing |
| Sidebar.ExpiredCookies | src/components/Sidebar.jsx:58 | one write per ';'-separated piece of `document.cookie` |
| Sidebar.ExpireAll | src/components/Sidebar.jsx:58-62 | the cookie loop performs exactly those writes, in order |
| Sidebar.DefaultLogout | src/components/Sidebar.jsx:48-66 | removes "token", "user" and "authToken" and no other key, empties session storage, expires every cookie and goes to "/" |
| Sidebar.HandleNavigation | src/components/Sidebar.jsx:34-75 | a page item sets the active page and closes the sidebar, leaving storage alone; "logout" leaves page and sidebar alone and runs the parent's handler if given, else the default logout |
| Text.Trim | src/services/authService.js:16-17 | the result is the input with leading and trailing white space (as `trim` defines it) removed, and it does not start or end with white space |
| Text.TrimEmptyIff | src/pages/Complaint.jsx:135 | trimming leaves nothing iff the text is all white space |
| Text.TrimIdempotent | src/services/authService.js:16-17 | trimming twice is trimming once |
| Text.ToLower | src/pages/Services.jsx:51 | lower-casing keeps the length and maps each character |
| Text.ParseNatToString | src/services/authService.js:27 | the decimal text of a number reads back as that number |
| Text.JoinSplit | src/components/Sidebar.jsx:58 | joining the split pieces with the separator gives back the input |
| Js.OrEmpty | src/pages/Services.jsx:20 | `v \|\| []` keeps an array or another truthy value and turns a falsy value into [] |
| Js.SafeLength | src/pages/Services.jsx:166-167 | the length of an array, else 0 |
| AdminService.AuthorizationHeader | src/services/adminService.js:69-72 | "Bearer " followed by the stored token, or "Bearer null" when none is stored |
| AdminService.GetServiceRequests | src/services/adminService.js:67-91 | an object body passes through unchanged; a non-object body or a failure gives `{success: false, serviceRequests: []}` |
| AdminService.GetDeliveryDetails | src/services/adminService.js:173-197 | the same rule for `deliveryDetails` |
| AdminService.SuccessListOrEmpty | src/services/adminService.js:110-139 | succeeds iff the response succeeded; the list is the server's when it is an array, [] otherwise; in every branch it is an array |
| AdminService.GetServiceProviders | src/services/adminService.js:110-139 | never a non-array provider list; succeeds iff the response succeeded; keeps an array list |
| AdminService.GetPotentialProviders | src/services/adminService.js:141-170 | the same rule for `potentialProviders` |
| AdminService.GetRecentPayments | src/services/adminService.js:27-65 | the body as received, or on failure success with exactly the three sample payments |
| AdminService.Rethrowing | src/services/adminService.js:93-104 | returns the body iff the request succeeded; a failure reaches the caller with its message |
| AdminService.GetActiveDeliveries | src/services/adminService.js:93-104 | rejects exactly when the request fails |
| AdminService.NormalisingWrappersNeverReject | src/services/adminService.js:67-197 | the four normalising wrappers always return an object |
| ListFetch.PickList | src/pages/Services.jsx:19-23 | a successful response supplies its list (or [] when that field is falsy); anything else gives the sample |
| ListFetch.AfterFetch | src/pages/Services.jsx:14-39 | a thrown error gives both samples and the page's failure message |
| ListFetch.ErrorOnlyFromThrow | src/pages/Services.jsx:35-39 | the error changes only through a thrown error, and then to the failure message; a fetch whose calls both return keeps the earlier error |
| ListFetch.ListsIndependent | src/pages/Services.jsx:19-33 | with both calls returning, each list depends only on its own response; a successful response supplies its own list (or [] when that field is falsy), an unsuccessful one that list's sample, for the first and the second list alike |
| ServicesPage.StatusColor | src/pages/Services.jsx:51-69 | the badge colour of the lower-cased status (green, yellow, orange, red); gray for an absent or unknown status |
| ServicesPage.FormatStatus | src/pages/Services.jsx:71-87 | the label of a known lower-cased status; any other status exactly as given |
| ServicesPage.StatusCaseInsensitive | src/pages/Services.jsx:51-72 | colour and label ignore letter case |
| ServicesPage.LabelsAgreeWithColors | src/pages/Services.jsx:51-87 | every renamed status has a colour matching its label: Completed green, In Progress yellow, Pending orange, Cancelled and Failed red |
| ServicesPage.Services.constructor | src/pages/Services.jsx:5-10 | empty lists, both loading, no error, empty filter |
| ServicesPage.Services.FetchData | src/pages/Services.jsx:13-44 | lists and error are as `ListFetch.AfterFetch` decides for this page; both loading flags end false |
| ServicesPage.Services.SetFilter | src/pages/Services.jsx:12-47 | a refetch with limit 50 and the new filter happens iff the filter changed |
| ServicesPage.WrappedFetchKeepsError | src/pages/Services.jsx:16-39 | with the real wrappers, the fetch never sets the error |
| ServicesPage.BackendDownShowsSamples | src/pages/Services.jsx:101-150 | a failing backend shows the three sample requests (IP-001..IP-003) and the two sample deliveries (RP-267, RP-268) |
| ProvidersPage.StatusText | src/pages/ServiceProviders.jsx:52 | `String(status \|\| '')`: a falsy status reads as "" |
| ProvidersPage.TextAndDotAgree | src/pages/ServiceProviders.jsx:51-89 | the text switch and the dot switch always pick the same shade |
| ProvidersPage.FalsyStatusGray | src/pages/ServiceProviders.jsx:51-89 | a falsy status is gray in both text and dot |
| ProvidersPage.FormatStatus | src/pages/ServiceProviders.jsx:91-102 | never empty; the mapped label of a known lower-cased status, else the status text, else "Unknown" |
| ProvidersPage.FalsyStatusUnknown | src/pages/ServiceProviders.jsx:92-102 | an absent or falsy status is shown as "Unknown" |
| ProvidersPage.SafeString | src/pages/ServiceProviders.jsx:118-122 | null, undefined, "" and objects give the fallback; anything else gives its non-empty string form |
| ProvidersPage.IdCell | src/pages/ServiceProviders.jsx:276 | never empty: `agentId` if truthy and not an object; "N/A" for an object `agentId`; for a falsy `agentId`, `id` (0 and false included, as text) unless it is nullish, "" or an object, which give "N/A" |
| ProvidersPage.ServiceProviders.constructor | src/pages/ServiceProviders.jsx:5-10 | empty lists, both loading, no error, empty filter |
| ProvidersPage.ServiceProviders.FetchData | src/pages/ServiceProviders.jsx:13-44 | lists and error are as `ListFetch.AfterFetch` decides for this page; both loading flags end false |
| ProvidersPage.ServiceProviders.SetFilter | src/pages/ServiceProviders.jsx:12-47 | a refetch with limit 50 and the new filter happens iff the filter changed |
| ProvidersPage.WrappedFetchShowsArrays | src/pages/ServiceProviders.jsx:19-39 | with the real wrappers both lists are arrays, so the displayed counts are the true lengths, and the error is never set |
| ProvidersPage.BackendDownShowsSamples | src/pages/ServiceProviders.jsx:131-196 | a failing backend shows the three sample providers and the three sample applicants |
| DeliveryPage.DeliveryIcon | src/pages/Delivery.jsx:122-124 | the Pending and Delivered icons for exactly those statuses; the In Transit icon for every other status |
| DeliveryPage.FormatLastUpdated | src/pages/Delivery.jsx:127-136 | "Unknown" without a date; "Just now" under a minute; "<m>m ago" under an hour; "<h>h ago" with h the whole hours (1 to 23) under a day; the locale date after that |
| DeliveryPage.MinuteLabelsDistinct | src/pages/Delivery.jsx:133 | two different minute counts under an hour never read alike |
| DeliveryPage.BadgeColor | src/pages/Delivery.jsx:248-254 | green for Delivered, blue for In Transit, yellow otherwise |
| DeliveryPage.CountStatus | src/pages/Delivery.jsx:287-299 | the number of deliveries with that status (its occurrences among their statuses); at most the total, and 0 iff no delivery has it |
| DeliveryPage.OverviewOf | src/pages/Delivery.jsx:281-305 | the overview exists iff the deliveries are an array; the total is the length, and each status figure is the number of deliveries with that status |
| DeliveryPage.CountsWithinTotal | src/pages/Delivery.jsx:281-305 | the three status counts together never exceed the total |
| DeliveryPage.AfterFetch | src/pages/Delivery.jsx:55-72 | a thrown error or a null body gives the samples and "Failed to load delivery data"; a successful body's `deliveries` is used as is; any other body gives the samples and keeps the error |
| DeliveryPage.Delivery.constructor | src/pages/Delivery.jsx:46-48 | no deliveries, loading, no error |
| DeliveryPage.Delivery.FetchDeliveries | src/pages/Delivery.jsx:55-72 | deliveries and error are as `AfterFetch` decides; loading ends false |
| DeliveryPage.BackendDownShowsSamples | src/pages/Delivery.jsx:65-118 | a failing backend shows the banner and the three samples, one per status |
| DeliveryPage.SuccessWithoutListBreaksOverview | src/pages/Delivery.jsx:60-61 | a successful body without a `deliveries` array leaves a value on which the overview throws |
| DashboardPage.StatusMessage | src/pages/Dashboard.jsx:38-48 | 401, 403 and 404 each have their own message; any other status gives "Server error: <status>" |
| DashboardPage.StatusMessageInjective | src/pages/Dashboard.jsx:38-48 | different statuses never give the same message |
| DashboardPage.FetchOutcome | src/pages/Dashboard.jsx:16-61 | a missing token fails with "No authentication token found. Please log in again."; data loads iff the reply is ok, parses, and has both `success` and `dashboard`; network, status and parse failures give their messages |
| DashboardPage.RejectedBodyMessage | src/pages/Dashboard.jsx:53-57 | an ok body without both `success` and `dashboard` fails with its message, else "Invalid response format from server" |
| DashboardPage.FetchQuickStats | src/pages/Dashboard.jsx:67-87 | `data.quickStats` from an ok, parsed object; null on any failure |
| DashboardPage.QuickStatsAuthorization | src/pages/Dashboard.jsx:69-73 | the quick-stats request carries the "adminToken" entry, or "null" |
| DashboardPage.CaseStatusColor | src/pages/Dashboard.jsx:255-266 | Responded is green, In Progress blue, Resolved gray, and anything else yellow |
| DashboardPage.ScreenOf | src/pages/Dashboard.jsx:193-238 | a spinner while loading; the error screen iff an error is shown and no data is held; otherwise the overview, live iff data is held |
| DashboardPage.ScreenAfterFetch | src/pages/Dashboard.jsx:58-61 | a failed first fetch shows the error screen (no automatic fallback); a failure after a load keeps showing the data; a success shows live data |
| DashboardPage.Dashboard.constructor | src/pages/Dashboard.jsx:5-8 | period "week", no data, loading, no error |
| DashboardPage.Dashboard.FetchDashboardData | src/pages/Dashboard.jsx:16-65 | a request is made iff a token is stored; a loaded outcome sets the data and clears the error; a failure keeps the previous data and sets the message; loading ends false |
| DashboardPage.Dashboard.UseFallbackData | src/pages/Dashboard.jsx:188-191 | installs the fallback data and clears the error |
| DashboardPage.Dashboard.SetTimeRange | src/pages/Dashboard.jsx:12-14 | a refetch happens iff the period changed |
| ComplaintPage.ChannelColor | src/pages/Complaint.jsx:124-132 | Email, Whatsapp, Twitter and Instagram get their colours (exact match); any other channel is gray |
| ComplaintPage.ListedChannelsColored | src/pages/Complaint.jsx:10-122 | every listed case has a coloured channel |
| ComplaintPage.ChatBox.constructor | src/pages/Complaint.jsx:5-7 | tab "cases", an empty message, no selected case |
| ComplaintPage.ChatBox.ClickTab | src/pages/Complaint.jsx:162-192 | each tab button sets the active tab to its own id |
| ComplaintPage.ChatBox.SelectCase | src/pages/Complaint.jsx:204-206 | clicking a case selects and highlights exactly that case |
| ComplaintPage.ChatBox.EditMessage | src/pages/Complaint.jsx:269 | the input's text becomes the message |
| ComplaintPage.ChatBox.HandleSendMessage | src/pages/Complaint.jsx:134-139 | the message is cleared iff it holds more than white space and a case is selected; otherwise nothing changes |
| ComplaintPage.ChatBox.KeyPress | src/pages/Complaint.jsx:270 | Enter sends; any other key changes nothing |
| Session.LoginRolesAllowed | src/pages/Login.jsx:43 | every role the login admits is on the guard's allow-list (src/hooks/useAuth.js:7-12) |
| Session.LoginThenGuardGrants | src/pages/Login.jsx:49-50 | the storage a successful login writes makes the guard render the protected page |
| Session.AgentRoleGuardOnly | src/hooks/useAuth.js:11 | admin_agent_service passes the guard but is refused by the login form |
| Session.HeaderLogoutThenRedirect | src/components/Header.jsx:78-82 | after the header's logout, every protected path, "/login" included, redirects to "/" with no error |
| Session.SidebarLogoutThenRedirect | src/components/Sidebar.jsx:48-66 | after the default logout, every protected path redirects to "/" with no error |
| Session.MenuIdsCovered | src/components/Sidebar.jsx:21-27 | every main menu id has a header title and, apart from dashboard, a page of its own |

## Left out

- HTTP transport: URLs, query parameters other than the status filter's, headers other than
  the bearer header, and axios and fetch internals. Replies are inputs (`HttpResult`,
  `FetchReply`, `Call`).
- `verifyToken` in authService.js: a bare request whose result is passed through. It is not
  used by the core.
- The rethrowing wrappers other than `getActiveDeliveries`: `getCompanyAnalytics`, `getTopAgents`,
  the support, payment, account and admin calls. They share `AdminService.Rethrowing`'s rule and
  have no logic of their own.
- src/services/notificationService.js is not part of this model. It holds thin request wrappers.
- `JSON.stringify`/`JSON.parse`: `UserCodec` stands in for them. It has the same round trip and
  the same failure on corrupt text, but not JSON's exact syntax.
- `String.prototype.trim` and `toLowerCase` beyond the listed white-space characters and ASCII
  letters.
- Keys inherited from `Object.prototype` in the lookup tables (`pageTitles`, `statusMap`,
  `colors`, `deliveryIcons`).
- Non-string values in fields the model types as strings: a role, name, image, status or
  message that is a number or an object.
- Engine error texts. A TypeError from reading a property of null is the fixed
  `Js.NullPropertyMessage`.
- Floating point and locale formatting: `Intl.NumberFormat`, `Math.round` percentages and chart
  heights, `safeNumber`, `toLocaleDateString` (an input string), and `Date` parsing.
  `FormatLastUpdated` takes the whole minutes as an integer, so an invalid date (NaN) is not
  modelled.
- Polling every 30 seconds, overlapping fetches and React effect scheduling. Each fetch is
  modelled as one atomic step. Only the mount fetch and the refetch after a filter or period
  change are modelled.
- Rendering, JSX, styling, click-outside listeners, scrolling and the map (markers are the enum
  `DeliveryPage.Icon`).
- The sample datasets beyond each record's identifier and status, and the dashboard's fallback
  payload beyond its identity.
- The log-out errors caught in `handleLogout`: the default logout cannot throw in the model.
  The parent's `onLogout` is not given by App (src/App.jsx:61-66).
- Notifications that are null or not objects: `Header.Notification` holds only the `read` flag,
  so the throw from reading `read` of a null element (src/components/Header.jsx:84) is not modelled.
- A parent `onLogout` handler's own effects: `Sidebar.HandleNavigation` treats it as leaving
  storage alone. App never passes one (src/App.jsx:61-66), so that branch is not reached.
- Login.LoginForm.Submit: models the `required` check on both inputs but not the browser's
  `type="email"` check on the identifier (src/pages/Login.jsx:96), because the HTML email grammar
  is not modelled. A non-empty identifier that is not an email is sent in the model but blocked
  by the browser.
- The clock read by the cookie rewrite: `new Date().toUTCString()` is the input `now`.
- Sidebar.ExpireCookieIdempotent: proved only for a `now` without line terminators, which
  every UTC date string satisfies.
