# Exam timetable planner client — a verified model

This project models the client-side logic of the exam timetable planner's web
front end, in Dafny. Timetable generation itself runs on a backend service and
is not part of the client. The model covers the following:

- **The authentication context** (`Auth`). A `Session` class holds the token
  pair, the user decoded from the access token, the last login error, the
  `"authTokens"` local-storage record and the last navigation target. Its
  methods are `loginUser`, `refreshToken`, `logoutUser`, the 17-minute
  interval (`Tick`) and `setUserError`. Each method is proved against a pure
  step function (`AfterLogin`, `AfterRefresh`, `AfterLogout`, `AfterTick`).
  The lemmas about those functions state the session invariant: `user` is
  null exactly when the tokens are null, `user` is the decoding of the access
  token, and the stored record mirrors the tokens.
- **The course and venue registry pages** (`CoursesPage`, `VenuesPage`, with
  the shared `Pagination` arithmetic). This covers the five-row page window,
  written with JavaScript's `slice` semantics, and the page count
  `Math.ceil(n / 5)`. It covers the bounds-checked `paginate` of the course
  page and the unchecked one of the venue page, and the capacity total. It
  also covers form edits, submission, the table toggle and the timed
  notification.
- **The plan request page** (`PlanPage`). This covers the ordered six-step
  input check, the request payload that projects venues and courses onto
  fixed fields, choosing a set by name, and the `loading` / `error` /
  `notification` sequence around the request.
- **The login page** (`LoginPage`). This covers the field-by-field error
  object, calling `loginUser` only on valid input, the `loading` flag, and
  the two effects that turn a session error into "Incorrect login details.".
- **The timetable listing** (`TimeTablePage`). This covers the
  case-insensitive search over three fields, the loading, error and results
  views, and the "No results found" condition.

Each network call is modelled by its outcome, passed in as a parameter.
`jwtDecode` is the uninterpreted function `decode` that a session is
constructed with. Timers are explicit events. Dates are integers, because the
code only compares them with `>`.

Three points of the code decide the shape of the session model:

- `refreshToken` reads `authTokens.refresh` inside its `try`. With no tokens
  that read throws, the `catch` runs, and the result is a logout.
  `AfterRefresh` models that path, so it has no precondition.
- The initialiser parses the stored record without a `try`, so a malformed
  record would throw; the model starts from a well-formed record
  (`Option<TokenPair>`).
- The code has no guard against a late refresh response reviving a cleared
  session, so the model has none.

## Model

| member | source | states |
|---|---|---|
| `Auth.Session.constructor` | src/context/AuthContext.jsx:21-30 | the initial tokens are the stored record, the user is its decoded access token (null when there is no record), and the session invariant holds |
| `Auth.StartupConsistent` | src/context/AuthContext.jsx:21-30 | the state read from storage satisfies the invariant: user null exactly when tokens null, record equal to tokens |
| `Auth.Session.LoginUser` | src/context/AuthContext.jsx:42-72 | posts the lower-cased username and the password unchanged; the new state is `AfterLogin` of the old one; the invariant is kept |
| `Auth.LoginSuccess` | src/context/AuthContext.jsx:57-63 | a 200 answer installs the returned pair, sets user to decode(access), persists the pair, navigates to "/plan" and leaves `userError` alone |
| `Auth.LoginThrowKeepsSession` | src/context/AuthContext.jsx:65-66 | a thrown login leaves tokens, user, record and route unchanged and sets `userError` to a non-empty `detail`, else to the error message |
| `Auth.LoginOtherStatusIsNoOp` | src/context/AuthContext.jsx:58-64 | a resolved login with a status other than 200 changes nothing, including `userError` |
| `Auth.LoginRequestNormalises` | src/context/AuthContext.jsx:47-48 | usernames equal up to ASCII case send the same request; the password is sent unchanged |
| `Auth.Session.RefreshToken` | src/context/AuthContext.jsx:74-101 | sends the current refresh token (nothing when there are no tokens); the new state is `AfterRefresh` of the old one; the invariant is kept |
| `Auth.RefreshSuccess` | src/context/AuthContext.jsx:78-90 | with tokens present, the request carries their refresh token, and a 200 answer replaces tokens, user and record without navigating |
| `Auth.RefreshFailureIsLogout` | src/context/AuthContext.jsx:91-99 | a non-200 answer, a thrown request or a missing pair has exactly the effect of `logoutUser` |
| `Auth.Session.LogoutUser` | src/context/AuthContext.jsx:103-108 | the new state is `AfterLogout` of the old one; the invariant is kept |
| `Auth.LogoutIdempotent` | src/context/AuthContext.jsx:103-108 | logout nulls user and tokens, removes the record, goes to "/authentication/login", keeps `userError`; twice is the same as once |
| `Auth.Session.Tick` | src/context/AuthContext.jsx:32-40 | one interval firing is `AfterTick`: while tokens exist it sends their refresh token and refreshes, otherwise nothing is sent |
| `Auth.TickWithoutSessionIsNoOp` | src/context/AuthContext.jsx:33-37 | with no tokens the interval leaves the state unchanged |
| `Auth.OperationsKeepConsistent` | src/context/AuthContext.jsx:42-108 | login, refresh, logout and the interval each preserve the session invariant |
| `Auth.RestartResumesSession` | src/context/AuthContext.jsx:21-30 | restarting from the stored record gives back the live session's tokens and user |
| `Auth.Session.SetUserError` | src/context/AuthContext.jsx:110-117 | `setUserError` changes only `userError` and keeps the invariant |
| `Auth.LinksFollowSession` | src/components/NavBar.jsx:19-49 | the plan link targets "/plan" and the button reads "Logout" exactly when a session is present |
| `Text.Lower` | src/pages/TimeTablePage.jsx:43-45 | `toLowerCase` on ASCII: same length, each capital replaced by its small letter, no capital left |
| `Text.LowerIdempotent` | src/pages/TimeTablePage.jsx:43-45 | lower-casing twice is lower-casing once |
| `Text.ContainsEmpty` | src/pages/TimeTablePage.jsx:43-45 | every string `includes` the empty string |
| `Text.TrimStartDropsLeadingSpace` | src/pages/PlanPage.jsx:42 | the result is a suffix of the input, everything dropped is white space, and it does not start with white space |
| `Text.TrimEndDropsTrailingSpace` | src/pages/PlanPage.jsx:42 | the result is a prefix of the input, everything dropped is white space, and it does not end with white space |
| `Text.TrimEmptyIffBlank` | src/pages/PlanPage.jsx:42 | `trim()` is empty exactly when every character is white space |
| `Text.TrimKeepsInnerText` | src/pages/PlanPage.jsx:42 | `trim()` of spaces + text + spaces is the text, when the text starts and ends with a non-space |
| `Pagination.TotalPagesIsCeiling` | src/pages/CoursesPage.jsx:100 | `Math.ceil(n / k)` pages hold all n rows and none is superfluous; it is 0 exactly for an empty list |
| `Pagination.WindowOfPage` | src/pages/CoursesPage.jsx:90-92 | from page 1 on, the window is `items[min((p-1)k, n) .. min(pk, n)]`, at most k rows |
| `Pagination.RowOnItsPage` | src/pages/CoursesPage.jsx:90-92 | row i appears on page i/k + 1 at position i mod k, so the pages cover the list without gaps |
| `Pagination.WindowNonEmptyIffPageExists` | src/pages/CoursesPage.jsx:90-100 | for p ≥ 1 the window has rows exactly when p ≤ `totalPages` |
| `Pagination.WindowOfPageZero` | src/pages/VenuesPage.jsx:74-76 | page 0 shows no rows |
| `Pagination.ShowingTo` | src/pages/CoursesPage.jsx:350-355 | the "to" figure is `min(p*k, n)`: never above the number of rows |
| `CoursesPage.EmptyForm` | src/pages/CoursesPage.jsx:73-80 | the blank form has exactly the six fields, all "" |
| `CoursesPage.Page.ButtonsMatchPaginate` | src/pages/CoursesPage.jsx:332-340 | between page 1 and the last page, the "Previous" button (`disabled={currentPage === 1}`) is enabled exactly when `paginate(currentPage - 1)` is accepted, and "Next" (`disabled={currentPage === totalPages}`) exactly when `paginate(currentPage + 1)` is; on an empty list "Next" is enabled but `paginate`'s guard refuses the move |
| `CoursesPage.Page.constructor` | src/pages/CoursesPage.jsx:8-23 | empty lists, blank form, form hidden, page 1 |
| `CoursesPage.Page.CurrentCourses` | src/pages/CoursesPage.jsx:89-92 | the current page shows `courses[(p-1)*5 .. p*5]` clipped to the list, at most 5 |
| `CoursesPage.Page.ShowingTo` | src/pages/CoursesPage.jsx:350-355 | the "to" figure is `Math.min(currentPage * 5, courses.length)`: at most both, and equal to one of them |
| `CoursesPage.Page.DepartmentsLoaded` | src/pages/CoursesPage.jsx:25-38 | a successful fetch replaces the departments; a failed one changes nothing |
| `CoursesPage.Page.CoursesLoaded` | src/pages/CoursesPage.jsx:40-53 | a successful fetch replaces the courses; a failed one changes nothing |
| `CoursesPage.Page.Paginate` | src/pages/CoursesPage.jsx:94-98 | the page changes only to n with 0 < n ≤ `totalPages`, and then shows at least one course |
| `CoursesPage.Page.HandleInputChange` | src/pages/CoursesPage.jsx:102-105 | only the named field changes, to the typed value |
| `CoursesPage.Page.HandleDepartmentChange` | src/pages/CoursesPage.jsx:55-60 | only `department` changes |
| `CoursesPage.Page.ToggleForm` | src/pages/CoursesPage.jsx:117 | the "Add New Course" button negates form visibility |
| `CoursesPage.Page.HandleSubmit` | src/pages/CoursesPage.jsx:62-87 | posts the form; on success it appends the returned course after the earlier ones, blanks the form and hides it; on failure nothing changes |
| `VenuesPage.EmptyForm` | src/pages/VenuesPage.jsx:53 | the blank form is `{name: "", capacity: ""}` |
| `VenuesPage.TotalCapacityConcat` | src/pages/VenuesPage.jsx:82 | the capacity total of two joined lists is the sum of their totals |
| `VenuesPage.TotalCapacityAppend` | src/pages/VenuesPage.jsx:82 | the total of an empty list is 0, and appending a venue adds its capacity |
| `VenuesPage.TotalCapacityNonNegative` | src/pages/VenuesPage.jsx:82 | with no negative capacity the total is not negative |
| `VenuesPage.TotalCapacityBoundsEach` | src/pages/VenuesPage.jsx:82 | with no negative capacity, no venue's capacity exceeds the total |
| `VenuesPage.ShowingToAsWritten` | src/pages/VenuesPage.jsx:213 | is the "to" figure the venue table prints: `indexOfLastVenue`, not clipped |
| `VenuesPage.ShowingToAsWrittenOverruns` | src/pages/VenuesPage.jsx:213 | with 7 venues, page 2 prints "to 10", while the clipped figure is 7 |
| `VenuesPage.Page.constructor` | src/pages/VenuesPage.jsx:9-15 | empty list, blank form, form hidden, no notification, table shown, page 1 |
| `VenuesPage.Page.CurrentVenues` | src/pages/VenuesPage.jsx:73-76 | from page 1 on, `venues[(p-1)*5 .. p*5]` clipped, at most 5, and empty exactly past the last page |
| `VenuesPage.Page.ShowingTo` | src/pages/VenuesPage.jsx:213 | the corrected "to" figure is `min(currentPage * 5, venues.length)`: at most both, and equal to one of them |
| `VenuesPage.Page.VenuesLoaded` | src/pages/VenuesPage.jsx:19-32 | a successful fetch replaces the venues; a failed one changes nothing |
| `VenuesPage.Page.Paginate` | src/pages/VenuesPage.jsx:78 | sets the page to n with no bounds check; a page past the last shows nothing |
| `VenuesPage.Page.NextAsWrittenLeavesPages` | src/pages/VenuesPage.jsx:197-199 | as written, with no venues on page 1 "Next" is enabled (`1 === 0` is false), the unchecked `paginate` goes to page 2, which has no rows, reads "to 10" of 0, and leaves "Next" enabled |
| `VenuesPage.Page.EnabledButtonsStayOnPages` | src/pages/VenuesPage.jsx:190-200 | with "Next" corrected to `currentPage >= totalPages`, from page 1 (also with no venues) or any numbered page an enabled "Previous" or "Next" leads to a numbered page that has rows, although `paginate` is unchecked |
| `VenuesPage.Page.HandleInputChange` | src/pages/VenuesPage.jsx:34-40 | only the named field of `newVenue` changes |
| `VenuesPage.Page.ToggleForm` | src/pages/VenuesPage.jsx:93 | the "Add New Venue" button negates form visibility |
| `VenuesPage.Page.ToggleTableVisibility` | src/pages/VenuesPage.jsx:69-71 | negates `isTableVisible` |
| `VenuesPage.Page.ShowNotification` | src/pages/VenuesPage.jsx:62-67 | shows the message and schedules one more removal timer |
| `VenuesPage.Page.NotificationTimerFired` | src/pages/VenuesPage.jsx:64-66 | a scheduled timer clears the notification, whichever message is showing |
| `VenuesPage.Page.HandleSubmit` | src/pages/VenuesPage.jsx:42-60 | on success: appends the venue, blanks and hides the form, shows "Venue added successfully!", and the capacity total grows by the venue's capacity; on failure nothing changes |
| `PlanPage.ValidIffAllChecksPass` | src/pages/PlanPage.jsx:41-66 | the inputs pass exactly when the title has a non-space character, both sets are named, both dates are present and start ≤ end |
| `PlanPage.FirstFailureReported` | src/pages/PlanPage.jsx:41-65 | each of the six messages is reported exactly when its check fails and all earlier ones pass |
| `PlanPage.BlankTitleRejectedSameDayAccepted` | src/pages/PlanPage.jsx:42-62 | a whitespace-only title is rejected; equal start and end dates pass |
| `PlanPage.VenueDetails` | src/pages/PlanPage.jsx:81-86 | same length and order as the venues; each entry keeps exactly name and capacity |
| `PlanPage.CourseDetails` | src/pages/PlanPage.jsx:87-95 | same length and order as the courses; each entry keeps exactly code, num_students, units, department_name and level |
| `PlanPage.PlanDataFor` | src/pages/PlanPage.jsx:79-101 | the payload carries the title, constraints, set names, the dates (start ≤ end) and the two projections |
| `PlanPage.FindIndex` | src/pages/PlanPage.jsx:199-204 | the position found holds the name and no earlier one does; none is found exactly when no set has the name |
| `PlanPage.FindByName` | src/pages/PlanPage.jsx:199-204 | the chosen set is in the list and has the name; `{}` exactly when no set has it |
| `PlanPage.FindByNamePicksFirst` | src/pages/PlanPage.jsx:227-232 | when several sets share the name, the first one is chosen |
| `PlanPage.RenderMessage` | src/pages/PlanPage.jsx:130-154 | an error banner hides the notification; there is no banner only when both are empty |
| `PlanPage.Page.constructor` | src/pages/PlanPage.jsx:10-20 | empty lists, no selection, no dates, not loading, no messages |
| `PlanPage.Page.SetsLoaded` | src/pages/PlanPage.jsx:22-39 | both lists are loaded together; on failure neither is, and the "not available" error is set |
| `PlanPage.Page.SetTitle` | src/pages/PlanPage.jsx:182 | the title input sets `timeTableTitle` |
| `PlanPage.Page.SelectCourseSet` | src/pages/PlanPage.jsx:199-204 | the selection is the first course set with the chosen name, or none |
| `PlanPage.Page.SelectVenueSet` | src/pages/PlanPage.jsx:227-232 | the selection is the first venue set with the chosen name, or none |
| `PlanPage.Page.SetStartDate` | src/pages/PlanPage.jsx:257 | the start date picker sets `startDate` |
| `PlanPage.Page.SetEndDate` | src/pages/PlanPage.jsx:273 | the end date picker sets `endDate` |
| `PlanPage.Page.SetConstraints` | src/pages/PlanPage.jsx:290 | the constraints input sets `constraints` |
| `PlanPage.Page.ValidateInputs` | src/pages/PlanPage.jsx:41-67 | returns true exactly when `ValidationError` finds nothing; otherwise `error` holds the first failing check's message |
| `PlanPage.Page.BeginSubmit` | src/pages/PlanPage.jsx:72-101 | clears both messages; invalid input sends nothing and leaves `loading` alone; valid input raises `loading` and sends `PlanDataFor` of the inputs |
| `PlanPage.Page.FinishSubmit` | src/pages/PlanPage.jsx:103-127 | a `data_dict` answer sets the success notification, anything else sets the fixed "out of reach" error, and `loading` is false on every path |
| `LoginPage.InputErrors` | src/pages/LoginPage.jsx:13-23 | `usernameError` exactly when the username is empty, `passwordError` exactly when the password is, no `anonymousError`, empty exactly when both are filled |
| `LoginPage.Page.constructor` | src/pages/LoginPage.jsx:7-10 | empty fields, not loading, no errors |
| `LoginPage.Page.SetUsername` | src/pages/LoginPage.jsx:75 | the username input sets `username` |
| `LoginPage.Page.SetPassword` | src/pages/LoginPage.jsx:98 | the password input sets `password` |
| `LoginPage.Page.ValidInputs` | src/pages/LoginPage.jsx:13-23 | builds the error object field by field, replaces `errorMessage` with it, and returns true exactly when both fields are filled |
| `LoginPage.Page.Submit` | src/pages/LoginPage.jsx:25-33 | `loginUser` gets the typed credentials only when validation passes, and `loading` is raised first; otherwise `loading` is untouched |
| `LoginPage.Page.LoginSettled` | src/pages/LoginPage.jsx:29-31 | `loading` is false once the login settles, whatever its outcome |
| `LoginPage.Page.UserErrorChanged` | src/pages/LoginPage.jsx:35-42 | a non-empty `userError` adds `anonymousError` = "Incorrect login details." and keeps the other fields |
| `LoginPage.Page.AnonymousErrorChanged` | src/pages/LoginPage.jsx:44-48 | once `anonymousError` is shown, the session's `userError` is reset to "" and nothing else in the session changes |
| `TimeTablePage.Filter` | src/pages/TimeTablePage.jsx:41-46 | a timetable is kept exactly when the lower-cased term occurs in its lower-cased title, course set name or venue set name, and a kept timetable keeps every one of its copies (multiset count equal to the input's, 0 for one that does not match) |
| `TimeTablePage.FilterIsSubsequence` | src/pages/TimeTablePage.jsx:41 | the filtered list is a subsequence of the fetched list, in the same order |
| `TimeTablePage.EmptyTermKeepsAll` | src/pages/TimeTablePage.jsx:41-46 | an empty term keeps every timetable |
| `TimeTablePage.FilterIgnoresTermCase` | src/pages/TimeTablePage.jsx:43-45 | terms that lower-case alike select the same timetables |
| `TimeTablePage.FilterOfLoweredTerm` | src/pages/TimeTablePage.jsx:43-45 | a term and its lower-cased form select the same timetables |
| `TimeTablePage.Render` | src/pages/TimeTablePage.jsx:48-179 | the loading view shows exactly while loading and comes before the error view; otherwise a non-empty error gives the error view and no error gives the results view, whose cards are the filtered list with "No results found" exactly when no timetable matches |
| `TimeTablePage.Page.constructor` | src/pages/TimeTablePage.jsx:20-23 | no timetables, loading, no error, empty term |
| `TimeTablePage.Page.FetchSettled` | src/pages/TimeTablePage.jsx:26-36 | success stores the list, failure sets the fixed message, and `isLoading` is false on both paths |
| `TimeTablePage.Page.SetSearchTerm` | src/pages/TimeTablePage.jsx:112 | the search box sets `searchTerm` |

## Findings

| source | as written | input that shows it | evidently intended | confidence | as-written member | corrected member |
|---|---|---|---|---|---|---|
| src/pages/VenuesPage.jsx:213 | the "to" figure is `indexOfLastVenue`, i.e. `currentPage * 5`, not clipped | 7 venues, page 2: "Showing 6 to 10 of 7 results" | `Math.min(indexOfLastVenue, venues.length)`, as the course table does at src/pages/CoursesPage.jsx:353 | high (not executed) | `VenuesPage.ShowingToAsWrittenOverruns` | `VenuesPage.Page.ShowingTo` |
| src/pages/VenuesPage.jsx:199 | "Next" is `disabled={currentPage === totalPages}` (also at line 248), and `paginate` (line 78) has no bounds check | no venues (the initial state, or before the fetch resolves), page 1: `totalPages` is 0, "Next" is enabled and leads to page 2, 3, … with no rows, reading "Showing 6 to 10 of 0 results" | `disabled={currentPage >= totalPages}`, or a bounds check in `paginate` as at src/pages/CoursesPage.jsx:95 | high (not executed) | `VenuesPage.Page.NextAsWrittenLeavesPages` | `VenuesPage.Page.EnabledButtonsStayOnPages` |

## Left out

- HTTP calls (`axios.get`, `axios.post`, `api.post`) are not modelled. Each call is replaced by its outcome as a parameter: a response with a status and a body, or an exception with an optional `detail` and a message.
- `jwtDecode` is the `decode` function a session is built with. It is total, so a malformed access token is not modelled. With such a token, the code sets `authTokens`, fails in `jwtDecode`, and reports the error as a login error.
- JSON serialisation of the stored record and of the plan payload is not modelled. The record is an `Option<TokenPair>`; the payload's detail lists are kept before `JSON.stringify`.
- Real time is not modelled. The 17-minute interval is `Session.Tick`, and the 3-second notification timer is `NotificationTimerFired`. Re-arming the interval whenever `authTokens` changes only moves the next firing in time, so it has no other effect here.
- Concurrency is not modelled. A refresh or login settles in one step, so the race where a late refresh response revives a cleared session is not represented. The code has no guard against it.
- The `loading` flag around a login belongs to the login page. It is modelled there by `Submit` and `LoginSettled`, not by the session.
- The route guard (`PrivateRoute`, used at src/App.jsx:19) is not modelled; its source is not part of this model. Logout navigates to "/authentication/login", which is not one of the routes declared in src/App.jsx.
- Dates are integers. `toISOString` and locale formatting are left out.
- `toLowerCase` is modelled for ASCII letters only. `trim` removes the ECMAScript white-space and line-terminator characters.
- `VenuesPage.TotalCapacity` adds capacities as numbers. If the backend sent a capacity as a string, JavaScript's `+` would concatenate instead.
- `VenuesPage.Page.Paginate` is not bounds-checked, and the model keeps that. Below page 1, `slice` counts negative indices from the end of the list, so page -1 of ten venues would show the first five. The page's buttons never produce such a page.
- Markup, styling, the department `<select>` options, console logging, `NavBar`, `Footer`, `HomePage`, `SecondaryButton` and `src/pages/test.jsx` are left out. `test.jsx` is an unrouted copy of the plan page. The decisions of `NavBar` and `HomePage` that depend on `user` are `Auth.PlanLink` and `Auth.AuthButtonLabel`, and NavBar's `onClick={user && logoutUser}`, which calls `Auth.Session.LogoutUser` only while a user exists.
