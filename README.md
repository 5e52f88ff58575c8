# Microcredit admin dashboard: session, list pages and dashboard figures

This project models the logic of a React admin dashboard for a microcredit
lender (loans, payments, customers and administrators, read and edited
through a REST backend) and proves properties of it in Dafny.

Three parts are modelled:

- **Session and authentication.** Browser storage is a map holding
  `accessToken`, `refreshToken` and `user`. The HTTP client's request
  interceptor attaches `Authorization: Bearer <token>`. Its response
  interceptor clears the session and moves to `/login` on a 401. The
  `AuthProvider` handles start-up from storage, `login`, `logout`, the
  derived `isAuthenticated` and the default-header sync effect. Also covered:
  the `RequireAuth` guard, the login page (where it resumes, which error it
  shows), the route table, the colour mode kept in storage, and the
  sidebar's active-item rule. Modules `ApiClient`, `AuthContext`,
  `LoginPage`, `App`, `Sidebar`, over `Platform` (storage, `window.location`,
  the router's navigation log).
- **List pages.** The loans, payments and customers pages filter a fetched
  list by case-insensitive substring tests joined by "and". Each filter is
  proved to be one order-preserving filter by the conjunction of the active
  tests, and the identity when no filter is active. Each page is a class
  whose methods are the handlers: open for create or edit, choose create or
  update, close and refetch only on success, delete only when confirmed.
  The administrators page has an inline form with its own quirk: an
  `adminID` of 0 is falsy. Modules `Loans`, `Payments`, `Customers`,
  `Admin`, over `Search`, `Text` and `Seqs`.
- **Dashboard figures.** These are integer sums that count a missing amount
  as 0. The per-month grouping (the `forEach` loops, as methods over a
  dictionary with insertion-ordered keys) is proved to conserve the totals.
  The merged chart rows, the gender counts (which partition the customers)
  and the three insights are also modelled. So are the statistics panel's
  figures and the stat card's choice of prefix and suffix from its title.
  Modules `Dashboard`, `DashboardStats`, `StatCard`.

Server calls are not executed: each handler takes the call's outcome
(`Resolved(value)` or `Rejected(error)`) as a parameter. Rejected errors
carry `message` and an optional `response` with `status` and
`data.message`. `window.confirm` is a boolean parameter. Date parsing
(`toLocaleString` month names, `toDateString`, `getMonth`) is passed in as
functions `monthOf`, `dayOf` and `monthIndexOf`, with `today` and
`currentMonth` as values.

## Model

| member | source | states |
|---|---|---|
| ApiClient.WithBearer | src/api/apiClient.js:14-20 | with a non-empty stored token the config's headers (`{}` when absent) gain `Authorization: Bearer <token>` and keep every other header and value; with no token they are exactly the original headers |
| ApiClient.WithBearerSpec | src/api/apiClient.js:14-21 | a request gets `Authorization: Bearer <token>` exactly when the stored token is non-empty, other headers are kept, and with no token the headers are exactly the original ones |
| ApiClient.Client.InterceptRequest | src/api/apiClient.js:13-21 | reads `accessToken` from storage at call time, sets the header on the same config object (creating headers if absent), leaves the URL alone and returns that config |
| ApiClient.RemoveInOrderSpec | src/api/apiClient.js:33-39 | removing keys one by one until a removal throws deletes exactly the keys got through and keeps every other entry |
| ApiClient.ClearSessionSpec | src/api/apiClient.js:32-39 | with no storage fault the 401 clearing removes exactly the three session keys; a fault after 0, 1 or 2 removals leaves the later keys |
| ApiClient.Client.InterceptResponse | src/api/apiClient.js:26-45 | the outcome is returned unchanged, success or rejection; on a 401 the session keys are removed in order and `href` becomes `/login` even when a removal throws; any other outcome leaves storage and `href` untouched |
| ApiClient.Client.SyncAuthorization | src/contexts/AuthContext.jsx:18-24 | the default headers become the sync of the old ones for the token |
| ApiClient.SyncedHeaders | src/contexts/AuthContext.jsx:18-24 | the synced default headers hold `Authorization` exactly when the token is non-empty, with value `Bearer <token>`; every other header and value is kept |
| ApiClient.SyncedHeadersSpec | src/contexts/AuthContext.jsx:18-24 | the default `Authorization` header is present exactly while the token is non-empty and is then `Bearer <token>`; other headers are kept; syncing again changes nothing |
| AuthContext.StringifyUser | src/contexts/AuthContext.jsx:43 | for a user the backend can send, the stored text is "undefined" exactly when the user is absent, and is otherwise "null" or object text |
| AuthContext.ParseUser | src/contexts/AuthContext.jsx:13 | `JSON.parse` succeeds exactly on "null" and object text, gives a null or profile user that stringifies back to the same text, and otherwise throws a syntax error |
| AuthContext.ParseStringifyUser | src/contexts/AuthContext.jsx:13-43 | a stored `null` or profile parses back to itself, but an absent user is stored as "undefined", which does not parse |
| AuthContext.InitialSession | src/contexts/AuthContext.jsx:11-14 | start-up succeeds exactly when the stored user text, or "null" when it is missing or empty, parses; the token is the stored `accessToken` and the user stringifies back to the parsed text; otherwise it throws the syntax error |
| AuthContext.InitialSessionSpec | src/contexts/AuthContext.jsx:11-14 | start-up fails exactly when a non-empty stored user text does not parse; otherwise it is authenticated exactly when a non-empty access token is stored; with no user key the user is null |
| AuthContext.LoginResult | src/contexts/AuthContext.jsx:30-51 | login resolves exactly when the request resolved with a non-empty `accessToken` (a missing body counts as `{}`), and then with the body; a request rejection is rethrown as is; a body without a token rejects with the fixed message |
| AuthContext.StoreLogin | src/contexts/AuthContext.jsx:41-43 | after a login the stored `accessToken` is the token and `user` the stringified user; `refreshToken` is the sent one when non-empty and the earlier one otherwise; other keys are untouched |
| AuthContext.StoreLoginSpec | src/contexts/AuthContext.jsx:41-43 | a successful login stores the token and the user; it writes `refreshToken` only when sent, so an earlier one survives; every other key is untouched |
| AuthContext.ReloadAfterLogin | src/contexts/AuthContext.jsx:11-46 | after a login with a null or profile user, start-up from storage restores the same token and user, authenticated; after a login whose response lacked `user`, start-up throws |
| AuthContext.LoggedOut | src/contexts/AuthContext.jsx:57-60 | storage after logout holds exactly the keys it held outside the three session keys, with the same values |
| AuthContext.LogoutSpec | src/contexts/AuthContext.jsx:57-60 | logout leaves none of the three keys, after it start-up finds an empty session, doing it twice equals once, and it equals the fault-free 401 clearing |
| AuthContext.AuthProvider.constructor | src/contexts/AuthContext.jsx:9-24 | token and user come from storage with no network call, `loading` is false, and the header sync runs for the initial token, so the invariant "the default header follows the token" (`Valid`) holds from the start |
| AuthContext.AuthProvider.BeginLogin | src/contexts/AuthContext.jsx:27-28 | `loading` is true while the login request is in flight; the header invariant is kept |
| AuthContext.AuthProvider.FinishLogin | src/contexts/AuthContext.jsx:29-54 | after the interceptor: on success storage, token, user and default header are set from the body; on failure token, user and headers are unchanged and storage changes only through the 401 clearing, with `href` at `/login` after a 401; `loading` ends false; the header invariant is kept |
| AuthContext.AuthProvider.Login | src/contexts/AuthContext.jsx:27-55 | the result is `LoginResult(outcome)`; success stores the login, authenticates, syncs the default header to the new token and leaves `href`; failure keeps token, user and headers, keeps storage and `href` unless the server said 401, and after a 401 storage has lost the session keys up to the fault and `href` is `/login`; `loading` ends false; the header invariant is kept |
| AuthContext.AuthProvider.Logout | src/contexts/AuthContext.jsx:57-64 | storage loses exactly the three keys, token and user become null (not authenticated), one non-replacing navigation to `/login` is recorded, and the default header is deleted, so the header invariant holds |
| AuthContext.RequireAuth | src/contexts/AuthContext.jsx:79-88 | children are rendered exactly when authenticated; otherwise a replacing redirect to `/login` whose state's `from` is the current location |
| LoginPage.Destination | src/Pages/Login.jsx:24 | the post-login destination is the recorded `from.pathname` when present and non-empty, otherwise `/` |
| LoginPage.ErrorMessage | src/Pages/Login.jsx:35-38 | the shown message is the server's `data.message` if non-empty, else the error's `message` if non-empty, else the fixed credentials text |
| LoginPage.GuardThenResume | src/Pages/Login.jsx:24 | an anonymous visit to a path is redirected to `/login`, and the login page reached that way resumes at that same path |
| LoginPage.DirectLoginResumesHome | src/Pages/Login.jsx:24 | reaching the login page with no recorded origin resumes at `/` |
| LoginPage.LoginForm.HandleSubmit | src/Pages/Login.jsx:26-41 | on success the error is empty, exactly one replacing navigation to the destination follows, and the session, storage and default header are those a login stores; on failure there is no navigation, the error is the fallback-chain message, token, user and headers are unchanged and storage changes only through the 401 clearing; afterwards the submit button (disabled while `loading`, Login.jsx:81) is enabled |
| App.Toggled | src/App.jsx:34-35 | toggling gives `dark` exactly from `light` and `light` from anything else |
| App.ToggleTwice | src/App.jsx:34-35 | toggling twice is the identity on `light` and `dark`; any other value becomes `light` first |
| App.RestoredMode | src/App.jsx:21-26 | the start-up mode is the saved one only when it is non-empty, otherwise `light` |
| App.ColorMode.constructor | src/App.jsx:21-30 | the mode is the restored one and is persisted under `themeMode`, nothing else in storage changes |
| App.ColorMode.Toggle | src/App.jsx:28-35 | the mode is toggled and the new mode is persisted under `themeMode` |
| App.MatchGuarded | src/App.jsx:61-65 | a pathname matches a guarded page exactly when it is one of the five paths, and then that path's page |
| App.Route | src/App.jsx:49-70 | `/login` alone shows the login page; a guarded page is shown only when authenticated and only at its own path; a redirect to `/login` happens only when anonymous; any other path is a replacing redirect to `/` whether or not the user is signed in |
| App.RouteSpec | src/App.jsx:53-66 | each of the five paths shows its page when authenticated and otherwise redirects to `/login` remembering the location |
| App.UnknownPathAnonymous | src/App.jsx:69 | an unknown path is a replacing redirect to `/`, which for an anonymous user goes on to `/login`, which then resumes at `/` |
| App.UnknownPathAuthenticated | src/App.jsx:69 | for a signed-in user an unknown path is a replacing redirect to `/`, which shows the dashboard |
| App.SidebarLinksRouted | src/App.jsx:61-65 | every sidebar link leads to a guarded page of the route table |
| Sidebar.PathsDistinct | src/components/Sidebar.jsx:28-34 | the five menu paths are pairwise distinct |
| Sidebar.Render | src/components/Sidebar.jsx:122-154 | one entry per menu item, in menu order, each active exactly when the pathname equals its path |
| Sidebar.RenderSpec | src/components/Sidebar.jsx:122-154 | at most one entry is active; some entry is active exactly when the pathname equals a menu path; the active entry is at weight 600 and all others at 400 |
| Sidebar.NoPrefixMatch | src/components/Sidebar.jsx:122 | `/loans/5` activates no menu entry, since matching is exact |
| Text.BeforeT | src/Pages/Payments.jsx:90 | `split("T")[0]` is a prefix of the text with no "T" in it, followed in the text by a "T" unless it is the whole text |
| Text.BeforeTDateTime | src/Pages/Payments.jsx:90 | `split("T")[0]` of `d + "T" + time` is `d` when `d` has no "T" |
| Text.BeforeTWhole | src/Pages/Payments.jsx:90 | a text without "T" is kept whole |
| Search.SomeValueIncludes | src/Pages/Loans.jsx:84-89 | a record with no fields matches no search |
| Search.EmptySearchMatches | src/Pages/Customers.jsx:62-66 | every record with a field matches the empty search |
| Search.NullFieldMatchesNullSearch | src/Pages/Loans.jsx:84-89 | a null field converts to "null", so searching "null" finds the record |
| Loans.FilterLoans | src/Pages/Loans.jsx:67-92 | the shown loans are no more than the loans, and a loan is shown exactly when it is fetched and passes every active test |
| Loans.FilterLoansIsOneFilter | src/Pages/Loans.jsx:66-92 | the branch, status and search steps together are one filter by the conjunction of the active tests |
| Loans.FilterLoansSpec | src/Pages/Loans.jsx:68-91 | the shown loans are an order-preserving subsequence whose members are exactly the loans passing every active test; with "All", "All" and an empty search they are all the loans |
| Loans.WithField | src/Pages/Loans.jsx:282-284 | editing an input replaces that form field and keeps the other five |
| Loans.SaveCall | src/Pages/Loans.jsx:121-127 | save updates exactly when a loan is being edited, with that loan's `loanID`, and otherwise creates; either way with the form data |
| Loans.EditThenSave | src/Pages/Loans.jsx:95-127 | opening a loan then saving updates it with its own six fields; opening empty then saving creates from six empty fields |
| Loans.LoansPage.constructor | src/Pages/Loans.jsx:30-46 | no loans, loading, filters "All", empty search, dialog closed, nothing edited, empty form, and the shown list agrees with the filters |
| Loans.LoansPage.ApplyFilters | src/Pages/Loans.jsx:67-92 | the shown list becomes the filter of the loans by the current filters |
| Loans.LoansPage.SetSearch | src/Pages/Loans.jsx:203 | the search text changes and the shown list follows it |
| Loans.LoansPage.SetBranchFilter | src/Pages/Loans.jsx:218 | the branch filter changes and the shown list follows it |
| Loans.LoansPage.SetStatusFilter | src/Pages/Loans.jsx:231 | the status filter changes and the shown list follows it |
| Loans.LoansPage.FetchLoans | src/Pages/Loans.jsx:49-60 | the loans are replaced only when the request resolves; the shown list agrees with the filters; `loading` ends false |
| Loans.LoansPage.HandleOpen | src/Pages/Loans.jsx:95-118 | the dialog opens with the loan's six fields and that loan as edit target, or with six empty fields and no target |
| Loans.LoansPage.EditField | src/Pages/Loans.jsx:282-284 | typing replaces one form field |
| Loans.LoansPage.Close | src/Pages/Loans.jsx:291 | Cancel closes the dialog |
| Loans.LoansPage.HandleSave | src/Pages/Loans.jsx:121-133 | the call is `SaveCall` of the edit target and form; only on success does the dialog close and the list refetch; on failure nothing changes; target, form and filters are kept |
| Loans.LoansPage.HandleDelete | src/Pages/Loans.jsx:136-144 | unconfirmed: no call and no change; confirmed: one delete of that id, and a refetch only if it succeeds |
| Payments.FilterPayments | src/Pages/Payments.jsx:64-82 | the shown payments are no more than the payments, and one is shown exactly when it is fetched and passes both active tests |
| Payments.FilterPaymentsIsOneFilter | src/Pages/Payments.jsx:64-82 | the branch and search steps together are one filter by the conjunction of the active tests |
| Payments.FilterPaymentsSpec | src/Pages/Payments.jsx:65-81 | the shown payments are an order-preserving subsequence whose members are exactly those passing both active tests; with "All" and an empty search they are all the payments |
| Payments.FormOfDate | src/Pages/Payments.jsx:84-92 | editing a payment dated `d + "T" + time` shows the day `d`; a date with no "T" is shown whole |
| Payments.WithField | src/Pages/Payments.jsx:248-250 | editing an input replaces that form field and keeps the other three |
| Payments.SaveCall | src/Pages/Payments.jsx:105-111 | save updates exactly when a payment is being edited, with its `paymentID`, and otherwise creates; either way with the form data |
| Payments.PaymentsPage.constructor | src/Pages/Payments.jsx:30-43 | no payments, loading, filter "All", empty search, dialog closed, nothing edited, empty form |
| Payments.PaymentsPage.ApplyFilters | src/Pages/Payments.jsx:64-82 | the shown list becomes the filter of the payments by the current filters |
| Payments.PaymentsPage.SetSearch | src/Pages/Payments.jsx:181 | the search text changes and the shown list follows it |
| Payments.PaymentsPage.SetBranchFilter | src/Pages/Payments.jsx:196 | the branch filter changes and the shown list follows it |
| Payments.PaymentsPage.FetchPayments | src/Pages/Payments.jsx:46-57 | the payments are replaced only when the request resolves; `loading` ends false |
| Payments.PaymentsPage.HandleOpen | src/Pages/Payments.jsx:84-103 | the dialog opens with the payment's fields (date cut before "T") or four empty fields |
| Payments.PaymentsPage.EditField | src/Pages/Payments.jsx:248-250 | typing replaces one form field |
| Payments.PaymentsPage.Close | src/Pages/Payments.jsx:257 | Cancel closes the dialog |
| Payments.PaymentsPage.HandleSave | src/Pages/Payments.jsx:105-117 | the call is `SaveCall`; only on success does the dialog close and the list refetch; on failure nothing changes |
| Payments.PaymentsPage.HandleDelete | src/Pages/Payments.jsx:119-127 | unconfirmed: no call and no change; confirmed: one delete, and a refetch only if it succeeds |
| Customers.FilterCustomers | src/Pages/Customers.jsx:61-66 | the shown customers are no more than the customers, and one is shown exactly when some field contains the search text in any case |
| Customers.FilterCustomersSpec | src/Pages/Customers.jsx:61-66 | the shown customers are an order-preserving subsequence whose members are exactly those with a field containing the search text in any case; an empty search keeps everyone |
| Customers.SaveCall | src/Pages/Customers.jsx:85-91 | save updates exactly when a customer is being edited, with its `customerID`, and otherwise creates |
| Customers.CustomersPage.constructor | src/Pages/Customers.jsx:29-40 | no customers, loading, empty search, dialog closed, nothing edited, empty form |
| Customers.CustomersPage.ApplyFilter | src/Pages/Customers.jsx:61-67 | the shown list becomes the search filter of the customers |
| Customers.CustomersPage.SetSearch | src/Pages/Customers.jsx:161 | the search text changes and the shown list follows it |
| Customers.CustomersPage.FetchCustomers | src/Pages/Customers.jsx:43-54 | the customers are replaced only when the request resolves; `loading` ends false |
| Customers.CustomersPage.HandleOpen | src/Pages/Customers.jsx:70-83 | the dialog opens with the customer's name, email and phone and that customer as target, or with empty fields and no target |
| Customers.CustomersPage.SetName | src/Pages/Customers.jsx:213 | typing replaces the name and keeps email and phone |
| Customers.CustomersPage.SetEmail | src/Pages/Customers.jsx:221 | typing replaces the email and keeps name and phone |
| Customers.CustomersPage.SetPhone | src/Pages/Customers.jsx:229 | typing replaces the phone and keeps name and email |
| Customers.CustomersPage.Close | src/Pages/Customers.jsx:235 | Cancel closes the dialog |
| Customers.CustomersPage.HandleSave | src/Pages/Customers.jsx:85-97 | the call is `SaveCall`; only on success does the dialog close and the list refetch; on failure nothing changes |
| Customers.CustomersPage.HandleDelete | src/Pages/Customers.jsx:99-107 | unconfirmed: no call and no change; confirmed: one delete, and a refetch only if it succeeds |
| Admin.SubmitCall | src/Pages/Admin.jsx:34-38 | submit updates exactly when `editingId` is present and non-zero, with that id, and otherwise creates with the form |
| Admin.EditThenSubmit | src/Pages/Admin.jsx:34-50 | editing an administrator then submitting updates it, except that an `adminID` of 0 is created anew |
| Admin.AdminPage.constructor | src/Pages/Admin.jsx:11-14 | no admins, empty form, no edit target, loading, no alerts |
| Admin.AdminPage.FetchAdmins | src/Pages/Admin.jsx:18-29 | the list is replaced only when the request resolves, a failure adds the "Failed to load admins" alert, and `loading` ends false |
| Admin.AdminPage.SetName | src/Pages/Admin.jsx:74 | typing replaces the name and keeps email and role |
| Admin.AdminPage.SetEmail | src/Pages/Admin.jsx:80 | typing replaces the email and keeps name and role |
| Admin.AdminPage.SetRole | src/Pages/Admin.jsx:86 | typing replaces the role and keeps name and email |
| Admin.AdminPage.HandleEdit | src/Pages/Admin.jsx:47-50 | the form takes the administrator's name, email and role, and `editingId` its `adminID` |
| Admin.AdminPage.HandleSubmit | src/Pages/Admin.jsx:31-45 | the call is `SubmitCall`; on success the form empties, `editingId` clears and the list refetches; on failure form, `editingId`, list and `loading` are unchanged and only the "Failed to save admin" alert is added |
| Admin.AdminPage.HandleDelete | src/Pages/Admin.jsx:52-60 | unconfirmed: no call and no change; confirmed: one delete, then a refetch on success or the "Delete failed" alert on failure |
| Dashboard.SumSign | src/Pages/Dashboard.jsx:84-85 | a `reduce` sum of non-negative terms is non-negative and of zeros is zero |
| Dashboard.TotalLoans | src/Pages/Dashboard.jsx:84 | `totalLoans` is non-negative when no amount is negative, and 0 when every amount is missing |
| Dashboard.TotalPayments | src/Pages/Dashboard.jsx:85 | `totalPayments` is non-negative when no amount is negative, and 0 when every amount is missing |
| Dashboard.TotalLoansConcat | src/Pages/Dashboard.jsx:84 | `totalLoans` adds up over parts of the list, and one loan adds its amount or 0 when the amount is missing |
| Dashboard.TotalPaymentsConcat | src/Pages/Dashboard.jsx:85 | `totalPayments` adds up over parts of the list, and one payment adds its amount or 0 when missing |
| Dashboard.AddEntry | src/Pages/Dashboard.jsx:96 | one step adds the amount to its month (from 0 when absent), leaves every other month, and appends a new month after the existing keys |
| Dashboard.Group | src/Pages/Dashboard.jsx:93-103 | every month's value, read as 0 when absent, is the sum of that month's amounts, and there are no more keys than records |
| Dashboard.GroupByMonth | src/Pages/Dashboard.jsx:93-103 | the `forEach` loop builds the dictionary `Group` describes |
| Dashboard.GroupSpec | src/Pages/Dashboard.jsx:93-103 | the monthly dictionary's keys are distinct and are exactly the months in which some record falls, and each month's value is the sum of that month's amounts |
| Dashboard.AddEntryConserves | src/Pages/Dashboard.jsx:96 | one step raises the sum of the monthly values by the entry's amount |
| Dashboard.GroupConserves | src/Pages/Dashboard.jsx:93-103 | the monthly totals add up to the sum of all amounts |
| Dashboard.Dedupe | src/Pages/Dashboard.jsx:105 | `[...new Set(...)]` is no longer than its input and has the same members |
| Dashboard.DedupeSpec | src/Pages/Dashboard.jsx:105 | `[...new Set(...)]` keeps each element exactly once, loses none, and lists them in the order of their first occurrences |
| Dashboard.ChartData | src/Pages/Dashboard.jsx:106-110 | one row per month, in the months' order |
| Dashboard.Chart | src/Pages/Dashboard.jsx:105-110 | one row per merged month, each holding that month's loan and payment totals |
| Dashboard.ChartMonthsSpec | src/Pages/Dashboard.jsx:105-110 | the chart has one row per month in which some loan or payment falls, each month once |
| Dashboard.ChartRowsSpec | src/Pages/Dashboard.jsx:106-110 | each row holds that month's loan and payment totals, 0 for a side with nothing in that month |
| Dashboard.ChartColumnsSum | src/Pages/Dashboard.jsx:93-110 | the chart's Loans column adds up to `totalLoans` and its Payments column to `totalPayments` |
| Dashboard.ClassifyIgnoresCase | src/Pages/Dashboard.jsx:115-116 | the gender bucket does not depend on letter case |
| Dashboard.CountGenders | src/Pages/Dashboard.jsx:113-121 | male + female + unknown is the number of customers |
| Dashboard.TallyGenders | src/Pages/Dashboard.jsx:113-121 | the accumulating `reduce` gives `CountGenders` |
| Dashboard.CountGendersSpec | src/Pages/Dashboard.jsx:113-121 | each count is the number of customers in that bucket, and male + female + unknown is the number of customers |
| Dashboard.Insights | src/Pages/Dashboard.jsx:132-145 | three lines: "excellent" exactly when payments exceed 0.8 of loans, else "steady" when payments are positive, else "no payments"; then the risk line; then the customer count |
| Dashboard.Render | src/Pages/Dashboard.jsx:84-147 | the component body computes `ViewOf` of the fetched lists |
| Dashboard.ViewOf | src/Pages/Dashboard.jsx:84-121 | the gender counts add up to `totalCustomers`, each chart row's Loans value is that month's loan total, and there are three insights |
| Dashboard.ViewSpec | src/Pages/Dashboard.jsx:84-147 | `outstanding` is loans minus payments, `totalCustomers` is the customer count, the gender counts partition the customers, and there are three insights ending with the count |
| DashboardStats.PaidToday | src/components/DashboardStats.jsx:35-40 | `paidToday` is non-negative when no amount is negative, and 0 when nothing paid today has an amount |
| DashboardStats.PaidTodaySplit | src/components/DashboardStats.jsx:33-40 | payments made today and those made on other days split `totalPaid` between them |
| DashboardStats.PaidTodayBounds | src/components/DashboardStats.jsx:33-40 | with no negative amounts, `paidToday` is between 0 and `totalPaid` |
| DashboardStats.CollectionRate | src/components/DashboardStats.jsx:41 | the rate is 0 when nothing is due, and otherwise rate × due = paid × 100 |
| DashboardStats.StatsOf | src/components/DashboardStats.jsx:32-51 | the month counts never exceed the lists, the rate is 0 when nothing is due, and with no negative amounts `paidToday` and `totalPaid` are non-negative |
| DashboardStats.StatsSpec | src/components/DashboardStats.jsx:32-51 | `unpaidDue` and `totalArrears` are due minus paid; the rate is 0 when nothing is due; the month counts never exceed the lists; customers without `createdAt` all count as new; every loan counts as disbursed exactly when every loan date is in the current month |
| StatCard.GetPrefixSuffix | src/components/StatCard.jsx:12-16 | a title mentioning "payment" in any case gets "KSh "; otherwise one mentioning "rate" gets "%"; otherwise neither |
| StatCard.PaymentRateIsCurrency | src/components/StatCard.jsx:13-14 | a title with both words takes the "payment" branch |
| StatCard.RateInsideWord | src/components/StatCard.jsx:14 | "rate" inside a word ("Moderate") also selects "%" |
| StatCard.PlainTitle | src/components/StatCard.jsx:15 | a title with neither word ("Loans") gets no prefix or suffix |

## Left out

- HTTP transport and the axios configuration (base URL, `Content-Type`): requests are not sent, and each call's outcome is a parameter.
- The service modules for loans, customers, payments and administrators: each call is an opaque effect whose outcome is a parameter, named by a `LoanCall`, `PaymentCall`, `CustomerCall` or `AdminCall` value.
- The request interceptor's error handler (`Promise.reject(error)` at src/api/apiClient.js:22) is the identity on a rejection and has no member.
- The GraphQL client is a foreign library that none of the modelled pages call.
- The export utilities (CSV and Excel) are foreign libraries.
- Rendering, layout, animation, styling, `StatCard` colours, the theme, the navbar and the animated counter are not modelled.
- Dashboard.Insights: the second line's test `risk < 20` is floating-point on a `toFixed` string (NaN when there are no loans), so it is the parameter `lowRisk`. `productivity` and `risk` are not modelled either. The 0.8 threshold is the exact integer test 5·payments > 4·loans.
- DashboardStats.CollectionRate: computed in exact rationals (`real`), not IEEE doubles. `riskPercent` is not modelled, being floating point and NaN when nothing is due.
- Dates and locale: `toLocaleString` month names, `toDateString` and `getMonth` are the parameters `monthOf`, `dayOf` and `monthIndexOf`, with `today` and `currentMonth` as values. The clock is not read, and a `createdAt` that is missing means the current month.
- Async interleaving: each handler is one atomic step. The refetch after a save or delete is not awaited in the source; here it runs before the handler returns. `login` is also split into `BeginLogin` (before the await) and `FinishLogin` (after it).
- The data fetch effects of the dashboard and the statistics panel (`Promise.all`, the dashboard's direct axios calls that bypass the client's interceptors): the figures are modelled as functions of already-fetched lists.
- `window.confirm` is a boolean parameter. `alert` is recorded in `AdminPage.alerts`. `console` output is dropped.
- JSON: a stored user is kept as opaque text. `JSON.parse` accepts "null" and text between braces, and rejects anything else with a syntax error. This approximates the real grammar but keeps the unguarded parse: a corrupt stored user makes start-up throw, and is not treated as absent.
- AuthContext.AuthProvider.constructor: requires the stored user to parse. When it does not, the source's render throws and no provider exists; `InitialSession` models that rejection.
- Numbers are integers: non-integer amounts and string amounts are not modelled. With a string amount, `sum + amount` would concatenate in Dashboard.jsx but add in DashboardStats.jsx.
- Records have a fixed field set, so `Object.values` lists exactly the declared fields. A payment's `paymentDate` is always text here, so the source's crash on a null date is not modelled.
- `toLowerCase` is ASCII only. Unicode case mapping is not modelled.
- react-router matching: routes match exactly, without case folding or trailing-slash tolerance. The layout route and its outlet are not modelled.
- Browser constraint validation of the administrator form's `required` inputs (which stops an empty submit before `handleSubmit` runs) is not modelled; `HandleSubmit` models the handler itself.
- Logout's storage removals are assumed not to throw (logout has no try/catch); only the 401 handler's swallowed fault is modelled, through `removalsBeforeFault`.
