# Campus gate: verified model of the recognition, reporting and access logic

This project models the logic of a campus gate web application. Staff and students enroll face
descriptors. A gate terminal recognises a face by finding the closest enrolled descriptor.
Dashboards filter and count gate logs. A session layer signs users in against a ZKTeco
attendance device, and a router gates each page by role. Five areas are modelled.

- **Recognition** (`Gate`, over the shared `Directory`). The gate compares the detected face
  with every staff record, then with every student record, department by department. Each
  record must carry an array descriptor. A running minimum starts at 1.0 and only moves on a
  strictly smaller distance. The face is accepted only when that minimum is below 0.5 and a name
  was recorded. Loop methods are proved equal to a fold over the comparisons. Lemmas show that
  the fold yields the first closest record, that ties go to the earlier scan, staff before
  students, and that records without descriptors are ignored.
- **Face test** (`FaceTest`). The diagnostic page counts stored faces, and counts matches under
  a strict 0.6 threshold. It visits students first and staff second. The counting loops are
  proved against a counting function. Every face the gate would accept is also a test match.
- **Report views** (`Management`, `AccessLogs`, `Admin`, `StudentManagement`). These are
  case-insensitive substring searches, date-prefix filters, the IN/OUT badge, the PDF file-name
  rule, and the entry, denial and "currently inside" counters. Each filter keeps exactly the
  matching rows, with their multiplicities, in order, as a subsequence. The admin sidebar is a small class whose
  submenu-open flag is only ever set under "Student Details".
- **Session** (`ZKTeco`). The `ZKTecoAuth` singleton is a class with three fields: the auth
  state, the persisted `zktecoAuthState` entry, and the tokens last handed to the API client.
  Sign-in falls back from JWT to the staff token to the demo credentials. The class also covers
  token refresh, logout, `ensureValidToken`, and the device-status updates. Every API reply is a
  parameter: a response with its fields, or a thrown error.
- **Access gating and login** (`Routing`, `Login`). `RequireAuth` and the route table work over
  the ZKTeco state. The login page looks up its demo users and writes to `fakeAuth`. The guard
  does not read `fakeAuth`, and the model keeps that as written (`Login.FakeSignInDoesNotPassGuard`).

Helpers: `Wrappers` (Option/Result), `Text` (truthiness of optional strings, ASCII
`toLowerCase`, `includes`, `startsWith`, `replace(/x/g, y)`, decimal rendering) and `Seqs`
(`filter` and `find` on sequences, with their characterisation lemmas).

Distances are abstract. The caller fixes a function `dist` from a stored descriptor to a real
number, for the query being matched. The face test builds it from the captured descriptor and
a metric `distance`, also a parameter. A missing name is the empty string, since both are falsy.

## Model

| member | source | states |
|---|---|---|
| Directory.StaffWithoutDescriptorAddsNothing | src/pages/Gate.tsx:77 | a staff record without an array descriptor, inserted anywhere, adds no comparison |
| Directory.StudentWithoutDescriptorAddsNothing | src/pages/Gate.tsx:91 | a student record without an array descriptor, inserted anywhere in any department, adds no comparison |
| Gate.ScanSelectsFirstMinimum | src/pages/Gate.tsx:80-83 | the strict-`<` scan never exceeds its start or any compared distance; it keeps its start when nothing is strictly smaller; otherwise it ends on the first record with the smallest distance |
| Gate.TieGoesToEarlierPart | src/pages/Gate.tsx:76-101 | when a candidate of an earlier part already reaches the final minimum, the later part changes nothing (ties keep the first-encountered entry) |
| Gate.StaffWinTies | src/pages/Gate.tsx:76-101 | a staff record tied with a student for the closest distance wins, because all staff are scanned first |
| Gate.BestMatchIsFirstMinimum | src/pages/Gate.tsx:59-60 | the final minDistance is at most 1.0 and at most every compared distance; with nothing below 1.0 it stays 1.0 with bestName ""; otherwise bestName and minDistance are the name (students: `Name` or else `name`) and distance of the first closest record |
| Gate.RecognizedIffClosestNamedBelowThreshold | src/pages/Gate.tsx:103-109 | the face is recognised exactly when the first closest compared record is nearer than 0.5 and has a non-empty name |
| Gate.StaffWithoutDescriptorIgnored | src/pages/Gate.tsx:77 | adding a staff record without an array descriptor never changes the best match |
| Gate.StudentWithoutDescriptorIgnored | src/pages/Gate.tsx:91 | adding a student record without an array descriptor never changes the best match |
| Gate.ScanStaff | src/pages/Gate.tsx:76-85 | the staff loop's running match equals the scan over the staff comparisons |
| Gate.ScanDepartment | src/pages/Gate.tsx:90-99 | one department's student loop equals the scan over that department's comparisons |
| Gate.FindBestMatch | src/pages/Gate.tsx:59-101 | the nested loops leave minDistance and bestName equal to the scan over staff then every department |
| Gate.RecognizeFace | src/pages/Gate.tsx:56-114 | no face: only the "No face detected" message, no comparison used; detector or read error: recognition error; otherwise visitor pass shown exactly when not recognised, welcome message with the best name otherwise; each case's new view is stated outright; loading always ends false |
| Gate.ScanFace | src/pages/Gate.tsx:116-129 | refuses with "Face recognition models not loaded yet." before the models are loaded, does nothing without camera, canvas or context, otherwise recognises |
| FaceTest.CountBelow | src/pages/FaceTest.tsx:212-213 | the number of faces strictly below the threshold never exceeds the number compared |
| FaceTest.CountBelowPositiveIff | src/pages/FaceTest.tsx:212-213 | the match count is positive exactly when some compared face is strictly below the threshold |
| FaceTest.CountBelowOrderFree | src/pages/FaceTest.tsx:200-239 | counting students then staff gives the same count as the gate's staff-then-students order |
| FaceTest.GateRecognitionImpliesTestMatch | src/pages/FaceTest.tsx:212-213 | any face the gate would welcome (below 0.5) is counted as a match by the test page (below 0.6) |
| FaceTest.CountDepartment | src/pages/FaceTest.tsx:203-217 | adds to totalFaces one per student with an array descriptor and to foundMatches one per such student nearer than 0.6 |
| FaceTest.CountStaff | src/pages/FaceTest.tsx:224-238 | the same for the staff records |
| FaceTest.CountMatches | src/pages/FaceTest.tsx:196-239 | totalFaces is the number of stored faces with an array descriptor, every one is compared, foundMatches counts those strictly below 0.6, and foundMatches <= totalFaces |
| FaceTest.CaptureFace | src/pages/FaceTest.tsx:135-182 | refuses when models are not loaded or the camera is not ready (spinner untouched); once started the spinner ends off; no canvas context, a throwing detector and no face each give their own message and keep the capture; the captured descriptor changes only when a face is detected, and then becomes it with its length reported |
| FaceTest.TestRecognition | src/pages/FaceTest.tsx:184-249 | without a captured face it only reports that (nothing counted); otherwise it reports the count of matches out of stored faces, or an error when the read fails, each new view stated outright; the capture is kept |
| Management.StatusBadge | src/pages/Management.tsx:97-105 | IN iff the in-time is set and the out-time is not; OUT iff both are set; "-" iff no in-time (including an out-time alone) |
| Management.ClearFilters | src/pages/Management.tsx:299-302 | both search and date become empty |
| Management.FilterLogs | src/pages/Management.tsx:292-297 | keeps exactly the rows whose id or name contains the search ignoring case and whose in-time starts with the date (rows without in-time dropped), in order with multiplicities |
| Management.ClearedLogFiltersShowAll | src/pages/Management.tsx:299-302 | after clearing, the log filter returns every row in order |
| Management.LogFilterIdempotent | src/pages/Management.tsx:292-297 | filtering already filtered rows again changes nothing |
| Management.LogFiltersCompose | src/pages/Management.tsx:294-295 | filtering by search and date equals filtering by the search, then by the date |
| Management.FilterVisitors | src/pages/Management.tsx:335-340 | keeps exactly the visitors whose name contains the search ignoring case or whose mobile contains it case-sensitively, and whose timestamp starts with the date |
| Management.ClearedVisitorFiltersShowAll | src/pages/Management.tsx:381 | after the visitor filters are cleared, every visitor is shown |
| Management.VisitorFilterIdempotent | src/pages/Management.tsx:335-340 | filtering visitors twice is filtering once |
| Management.ShownLogs | src/pages/Management.tsx:363-372 | each log tab shows exactly `FilterLogs` of its own list (same rows, order and multiplicities); the visitors tab shows no log rows |
| Management.LogType | src/pages/Management.tsx:326-328 | "StudentLogs" iff the student tab, "StaffLogs" iff the staff tab, "AllLogs" iff any other tab |
| Management.PdfFileName | src/pages/Management.tsx:325-329 | the name is the prefix, "_", the date with every "/" replaced by "-", then ".pdf" |
| Management.PdfNamesHaveNoSlash | src/pages/Management.tsx:358-359 | neither the logs nor the visitors download name contains "/" |
| Management.NoSlashInFileName | src/pages/Management.tsx:325 | a prefix without "/" gives a file name without "/" |
| Management.DistinctTabsDistinctNames | src/pages/Management.tsx:326-329 | two tabs share a download name only if both fall back to "AllLogs" |
| AccessLogs.FilteredLogs | src/pages/AccessLogs.tsx:108-112 | keeps exactly the events whose name, user id or department contains the term ignoring case, each with its multiplicity, in order |
| AccessLogs.EmptySearchShowsAll | src/pages/AccessLogs.tsx:108-112 | the empty term shows every event |
| AccessLogs.TodayEntries | src/pages/AccessLogs.tsx:114 | the number of granted entries: at most the number of events, zero iff there is none |
| AccessLogs.DeniedAttempts | src/pages/AccessLogs.tsx:115 | the number of denied events: at most the number of events, zero iff there is none |
| AccessLogs.EntriesAndDeniedBounded | src/pages/AccessLogs.tsx:114-115 | todayEntries + deniedAttempts <= number of events |
| AccessLogs.LastGranted | src/pages/AccessLogs.tsx:117-118 | the user's granted event with no granted event of that user after it in array order; none iff the user has no granted event |
| AccessLogs.CurrentlyInside | src/pages/AccessLogs.tsx:116-120 | counts events whose user's last granted event is an entry; at most the number of events; zero iff no event's user is inside |
| AccessLogs.NoGrantedEventNotInside | src/pages/AccessLogs.tsx:116-120 | a user with no granted event is never inside |
| AccessLogs.CountsEventsNotUsers | src/pages/AccessLogs.tsx:116-120 | when every event's user is inside, the counter equals the number of events, so duplicates of one user count repeatedly |
| AccessLogs.GrantedExitTakesUserOut | src/pages/AccessLogs.tsx:117-119 | appending a granted exit takes that user out |
| AccessLogs.GrantedEntryPutsUserInside | src/pages/AccessLogs.tsx:117-119 | appending a granted entry puts that user inside |
| AccessLogs.DeniedEventChangesNothing | src/pages/AccessLogs.tsx:117 | appending a denied event leaves every user's last granted event unchanged |
| AccessLogs.Summarize | src/pages/AccessLogs.tsx:108-120 | the table rows are exactly `FilteredLogs` for the search term (order and multiplicities), the three counters are `TodayEntries`, `DeniedAttempts` and `CurrentlyInside` of all events, and they stay within the number of events |
| AccessLogs.SelectedDateIgnored | src/pages/AccessLogs.tsx:32 | the selected date changes neither the table nor any counter; the search term changes only the table |
| Admin.FilterStaff | src/pages/Admin.tsx:185-189 | keeps exactly the staff whose name, id or department contains the search ignoring case, each with its multiplicity, in order |
| Admin.EmptyStaffSearchShowsAll | src/pages/Admin.tsx:185-189 | the empty search shows every staff row |
| Admin.FilterDepartmentStudents | src/pages/Admin.tsx:258-262 | keeps exactly the students of exactly that department whose name, id or year contains the search ignoring case, each with its multiplicity, in order |
| Admin.EmptyStudentSearchShowsDepartment | src/pages/Admin.tsx:258-262 | the empty search shows the whole department |
| Admin.StudentDetailsContent | src/pages/Admin.tsx:322-335 | no student table (only the prompt) iff no department is selected; the table's rows are exactly `FilterDepartmentStudents` for the selected department and search |
| Admin.AdminPanel.constructor | src/pages/Admin.tsx:338-340 | starts on "Staff Management" with the submenu closed and no department |
| Admin.AdminPanel.SubmenuVisible | src/pages/Admin.tsx:36 | the submenu shows iff "Student Details" is active and the flag is open, which under the panel invariant is the flag alone |
| Admin.AdminPanel.MainPanel | src/pages/Admin.tsx:351-354 | each menu item shows its own panel (staff form, student form, staff table, student details), and the student-details panel receives the selected department |
| Admin.AdminPanel.ClickMenuItem | src/pages/Admin.tsx:25-29 | the item becomes active; "Student Details" toggles the submenu, any other item closes it; the selection is kept |
| Admin.AdminPanel.SelectDepartment | src/pages/Admin.tsx:42 | a department button (shown only with the submenu) selects that department and changes nothing else |
| StudentManagement.FilteredStudents | src/pages/StudentManagement.tsx:84-88 | keeps exactly the students whose name, roll number or department contains the term ignoring case, as an order-preserving subsequence with multiplicities |
| StudentManagement.EmptySearchShowsAll | src/pages/StudentManagement.tsx:84-88 | the empty term shows the whole list |
| StudentManagement.UnsearchedFieldsIgnored | src/pages/StudentManagement.tsx:84-88 | id, year, date of birth, face-data flag and last-seen never affect which positions are kept |
| StudentManagement.FaceDataBadge | src/pages/StudentManagement.tsx:203-204 | "Face Data Ready" iff the student has face data, "Setup Required" iff not |
| StudentManagement.CaptureButtonLabel | src/pages/StudentManagement.tsx:218 | "Update" iff the student has face data, "Capture" iff not |
| StudentManagement.LabelsFollowFaceData | src/pages/StudentManagement.tsx:203-218 | both labels depend on the face-data flag alone |
| ZKTeco.LoadState | src/lib/zktecoAuth.ts:27-42 | a saved entry that parses is used as is; a missing, empty or unparsable one yields the default state |
| ZKTeco.DefaultStateConsistent | src/lib/zktecoAuth.ts:36-41 | the default state is signed out with no user, consistent, and is what a missing or unreadable entry loads |
| ZKTeco.ChosenPath | src/lib/zktecoAuth.ts:75-152 | JWT iff its reply has access, refresh and user; else staff iff token and user; else demo iff the demo check returns a user; else failure |
| ZKTeco.EarlierPathWins | src/lib/zktecoAuth.ts:78-133 | once JWT (or the staff token) succeeds, later replies are irrelevant |
| ZKTeco.ZKTecoAuth.constructor | src/lib/zktecoAuth.ts:53-60 | loads the saved state and hands its tokens to the API client only when an access token is present |
| ZKTeco.ZKTecoAuth.Authenticate | src/lib/zktecoAuth.ts:75-152 | on the chosen path the session becomes authenticated with that path's user and tokens (staff and demo: refresh null; demo: access "demo-token", API tokens untouched), keeps its device status and is saved; when all paths fail it errs and nothing changes |
| ZKTeco.ZKTecoAuth.Logout | src/lib/zktecoAuth.ts:244-254 | exactly the default state, API tokens cleared, saved entry removed |
| ZKTeco.ZKTecoAuth.RefreshAuth | src/lib/zktecoAuth.ts:155-175 | no refresh token: false, nothing changes; thrown: logout and false; a new access token: only the access token changes, saved, true; otherwise false, nothing changes; consistency preserved |
| ZKTeco.ZKTecoAuth.CheckDeviceStatus | src/lib/zktecoAuth.ts:178-193 | a reply replaces the device status (an empty last sync becomes null); a failure only clears isConnected, keeping lastSync; saved either way |
| ZKTeco.ZKTecoAuth.SyncDevice | src/lib/zktecoAuth.ts:196-208 | true iff the device reports success; only then lastSync becomes the current time and the state is saved |
| ZKTeco.ZKTecoAuth.EnsureValidToken | src/lib/zktecoAuth.ts:257-268 | false when signed out, true with an access token, otherwise the refresh outcome; on a consistent session it equals isAuthenticated and changes nothing |
| Routing.RequireAuth | src/App.tsx:13-33 | renders iff authenticated with a user of the required role; signed out redirects to /login with `from`; authenticated otherwise redirects to /login without it |
| Routing.RouteFor | src/App.tsx:38-48 | /login and /face-test open; /admin, /zkteco, /dashboard admin; /management management; /gate, /gate-terminal gate; each path shows its own page (/admin the admin page, /gate the gate page, and so on); every other path the catch-all |
| Routing.Resolve | src/App.tsx:38-48 | a page is shown iff its route is open or guarded by the signed-in user's role; a shown page is the route's own page; every redirect goes to /login; a guarded path redirects with `from` set to the path when signed out and without it when the role is wrong; unknown paths redirect without `from` |
| Routing.StaffNeverPassesGuard | src/App.tsx:13 | a user with role staff never passes any guarded route |
| Routing.SignedOutSeesOnlyOpenPages | src/App.tsx:23-26 | in the default signed-out state only /login and /face-test are shown |
| Login.FindDemoUser | src/pages/Login.tsx:20-22 | found iff some demo user has exactly this username and password, and then it is such a user |
| Login.DemoUsernamesDistinct | src/pages/Login.tsx:5-9 | no two demo users share a username |
| Login.MatchingRecordIsFound | src/pages/Login.tsx:20-22 | entering a demo user's credentials finds that very record |
| Login.NavigationTarget | src/pages/Login.tsx:27-29 | admin goes to /admin, management to /management and gate to /gate, each path for that role only; each target is guarded by that same role |
| Login.HandleSubmit | src/pages/Login.tsx:18-33 | on a match `fakeAuth` is signed in with the matched role, the error is cleared and the role's page opened; otherwise "Invalid username or password", no navigation, `fakeAuth` untouched |
| Login.FakeSignInDoesNotPassGuard | src/pages/Login.tsx:24-29 | with a signed-out ZKTeco session, the page a sign-in navigates to redirects to /login, because the guard does not read `fakeAuth` |

## Left out

- Distances: `faceapi.euclideanDistance` over `Float32Array` is floating point in a foreign library. Every distance is a given real number, so rounding, NaN and length mismatches are not modelled.
- Model loading, camera access (`startCamera`, `stopCamera`), canvas drawing and face detection are browser and ML-library I/O. Their outcomes are parameters: `modelsLoaded`, `cameraReady`, `contextReady`, and a detection or capture result.
- Firebase reads and writes are database I/O. A directory read is a parameter that either fails or yields the staff and departments in enumeration order; an absent collection is empty. `saveTestFace` is a database write and is not modelled.
- Gate.RecognizeFace: the `found` variable is never used and is not part of the model.
- GateTerminal, ZKTecoManagement, StaffManagement, StudentDetails and the backend are not part of this model. They are timers with random outcomes, device UI, form-to-database plumbing and HTTP endpoints.
- The pass-through methods of `ZKTecoAuth` (`getAttendanceData`, `getDeviceUsers`, `addUserToDevice`, `deleteUserFromDevice`, `getDeviceLogs`) only forward to the API client. The getters `isAuthenticated`, `user` and `deviceStatus` are plain field reads of `state`.
- `zktecoApi`, `demoCredentials` and `fakeAuth` are not part of this model. Their results are parameters, and `FakeAuth` is built with whatever values it holds.
- ZKTeco.ZKTecoAuth.Authenticate: username and password are not parameters. The replies stand for the API's and `validateDemoCredentials`' answers to them.
- ZKTeco.LoadState: a stored entry that parses is taken to have the shape of an auth state. Arbitrary JSON is not modelled.
- ZKTeco.ZKTecoAuth: a failed `localStorage` write is caught and ignored in the source. The model always records the written state.
- ZKTeco.ZKTecoAuth: `refreshAuth` updates the token object in place. Aliasing between the saved state and earlier copies is not modelled.
- ZKTeco.ZKTecoAuth.CheckDeviceStatus and ZKTeco.ZKTecoAuth.SyncDevice: the failure path of `checkDeviceStatus` and the success path of `syncDevice` mutate the `deviceStatus` object in place, and the getter hands callers that same object. The model assigns a fresh state value, so a caller holding an earlier `deviceStatus` does not see the change.
- Concurrency across `await`: every async handler is modelled as one atomic step. No other call runs during its awaits. This covers the `ZKTecoAuth` methods, `recognizeFace` and `handleScanFace` on the gate page, and `captureFace` and `testRecognition` on the test page. The interleavings the source allows are not captured. For example, a `logout()` during the `await` of `refreshToken()` in `refreshAuth` (zktecoAuth.ts:161) would be followed by the new access token being written onto the signed-out state, handed to the API client and saved again (zktecoAuth.ts:164-166). That is contrary to what `Logout` and `Refreshed` state for a call run on its own. Likewise, overlapping recognitions or tests may finish in either order, and the last one to finish sets the view.
- Text.ToLower: only ASCII letters are lower-cased. Unicode case mapping is not modelled, so the search lemmas hold for that lowering.
- Routing.RouteFor: paths match by exact string equality. React Router's case-insensitive and trailing-slash matching is not modelled. The location passed as `from` is its path.
- Locale formatting of dates and times (`toLocaleDateString`, `formatTime`, `formatDate`) is locale data. The PDF name takes the formatted date string as a parameter, and the current time in `syncDevice` is a parameter too.
- Printing and PDF rendering (`window.print`, `html2canvas`, `jsPDF`) are foreign libraries. Only the file-name rule is kept.
- The demo rows of the Management, AccessLogs, Admin and StudentManagement pages are not fixed constants. Each filter and counter is stated for any list of rows.
- Admin: the staff and student forms only raise alerts, and the capture badge and all JSX layout are rendering. None of them is modelled.
- Scan cooldowns, hostel pass approval, attendance records and audit logs appear in no modelled source file and are not modelled.
