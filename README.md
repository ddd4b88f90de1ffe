# Smartcall core in Dafny

Smartcall is a shift call-out system. A staff member who cannot work logs
a call-out, which creates an OPEN shift. Managers see ranked replacement
suggestions, and staff accept open shifts. Each acceptance updates the
acceptor's reliability score. An administrator sees aggregate statistics
and can change a user's status. A page guard keeps each role on its own
dashboard, and the browser keeps a short list of pushed notifications.

This project models that core and proves properties of it:

- `domain.dfy` (module `Domain`): the entities, as values.
  - Shift, call-out, user, role and session.
  - JavaScript truthiness of request fields.
  - The HTTP error outcomes.
  - The shared role check of the API routes.
- `conflicts.dfy` (module `ShiftConflicts`), from `src/lib/shiftConflicts.ts`.
  - Interval overlap and the conflict query.
  - The step-by-step match score.
  - The stable descending sort of the candidates, in place on an array.
  - The suggestion list with its warnings.
  - The score label, colour and conflict indicator.
- `reliability.dfy` (module `Reliability`), from `src/lib/reliability.ts`.
  - Completion rate and mean response time.
  - The composite score and its rounding.
  - The label and colour, and the response-time text.
- `store.dfy` (module `Store`): the state-changing API routes.
  - Routes: accept a shift, cancel a shift, cancel a call-out, log a call-out, change a user's status.
  - Each route is first a pure function from the state before the request to the response and the state after it.
  - A `Store` class then holds the tables, the audit log and the id counters as fields. Its methods perform the route's steps and are proved to end in exactly that response and state.
  - Its methods also preserve the table invariant: unique ids, ids below the counters, scores in [0, 1].
- `stats.dfy` (module `AdminStats`): `GET /api/admin/stats`.
  - Per-role counters and reliability buckets.
  - User totals and the fourteen-day chart.
- `middleware.dfy` (module `RouteGuard`): the page guard of `src/middleware.ts`.
- `notifications.dfy` (module `Notifications`): the notification list and connection flag of `src/hooks/useSocket.ts`, as a class.

Conventions:

- Times are epoch milliseconds (`int`).
- Reliability values are exact `real`s.
- JavaScript `Math.round(x)` is `floor(x + 0.5)`.
- A request field that the source tests with `!x` is an `Option`; `None`, `0` and `""` are falsy.
- A session is absent, unparsable, or carries an actor id and a claimed role. An unknown role string is `Unrecognised`.

The model keeps these behaviours of the code, some of which a reader may not expect:

- Accepting a shift does not check that it is OPEN, so a second acceptance takes the shift over (`Store.SecondAcceptOverwrites`).
- Cancelling does not check the current status, so it can be repeated (`Store.CancelShiftTwice`).
- Logging a call-out is not atomic. The shift is created before the call-out row, so a call-out for an unknown user fails with 500 and leaves the new shift behind.
- A conflict query that fails reports "no conflict".
- `totalShiftsMissed` counts every missed call-out, but the per-role `missed` counters count only accepted ones (`AdminStats.MissedWithoutAcceptance`).
- The call-out route checks no session.

## Model

| member | source | states |
|---|---|---|
| ShiftConflicts.HasTimeOverlap | src/lib/shiftConflicts.ts:47-54 | Two non-empty intervals overlap exactly when some instant lies in both; the later start is such an instant |
| Domain.Authorise | src/app/api/shift/accept/route.ts:16-28 | 401 iff no session or an unparsable one, 403 iff the claimed role is not allowed, success iff it is, carrying the actor id |
| Domain.FindBy | src/app/api/shift/accept/route.ts:31-55 | The index of the first row with the key, and none iff no row has it |
| ShiftConflicts.OverlapSymmetric | src/lib/shiftConflicts.ts:47-54 | Overlap of two intervals does not depend on their order |
| ShiftConflicts.TouchingIntervalsDoNotOverlap | src/lib/shiftConflicts.ts:47-54 | Intervals are half-open: one ending where the other starts does not overlap |
| ShiftConflicts.EmptyIntervalInsideOverlaps | src/lib/shiftConflicts.ts:47-54 | A zero-length interval strictly inside another overlaps it, in either argument order |
| ShiftConflicts.NestedIntervalOverlaps | src/lib/shiftConflicts.ts:47-54 | A non-empty interval inside another overlaps it |
| ShiftConflicts.ConflictsOf | src/lib/shiftConflicts.ts:63-81 | A shift is reported iff it is assigned to the staff member, is ASSIGNED or OPEN, and overlaps the proposed interval |
| ShiftConflicts.ConflictsOfIsSubsequence | src/lib/shiftConflicts.ts:77-79 | The conflicting shifts keep the order of the shift table |
| ShiftConflicts.CheckStaffConflicts | src/lib/shiftConflicts.ts:57-91 | `hasConflict` holds iff some blocking shift overlaps; a failed query gives no conflict and an empty list |
| ShiftConflicts.ReliabilityReason | src/lib/shiftConflicts.ts:104-116 | "Excellent" iff reliability is at least 0.9, "Good" iff in [0.8, 0.9), "Fair" iff in [0.6, 0.8), "Needs improvement" iff below 0.6 |
| ShiftConflicts.ReliabilityPoints | src/lib/shiftConflicts.ts:105-107 | Reliability in [0, 1] gives between 0 and 40 points |
| ShiftConflicts.Points | src/lib/shiftConflicts.ts:102-143 | The score is at most 100 and never negative; an inactive user scores at most 50; an active conflict-free STAFF user scores at least 70; a conflict or a non-STAFF role caps it at 80 |
| ShiftConflicts.PointsMonotoneInReliability | src/lib/shiftConflicts.ts:105-107 | Higher reliability never lowers the score |
| ShiftConflicts.ConflictNeverHelps | src/lib/shiftConflicts.ts:127-133 | A conflict never raises the score |
| ShiftConflicts.ReasonsOf | src/lib/shiftConflicts.ts:103-141 | Four reasons in order: the reliability reason; "available" iff STAFF; the number of conflicting shifts iff there is a conflict, "no schedule conflicts" otherwise; "active" iff the account is active |
| ShiftConflicts.MatchOf | src/lib/shiftConflicts.ts:94-153 | The match record carries the user, the reliability, `skillMatch` iff STAFF, the conflict report, the reasons of `ReasonsOf` and a score in [0, 100] |
| ShiftConflicts.MatchScore | src/lib/shiftConflicts.ts:94-153 | The step-by-step accumulation of score and reasons yields `MatchOf` of the conflict report |
| ShiftConflicts.InsertKeepsOrder | src/lib/shiftConflicts.ts:184 | One insertion step keeps the list sorted by non-increasing score and adds exactly the new entry |
| ShiftConflicts.SortDescSortsAndPermutes | src/lib/shiftConflicts.ts:184 | The ranking is sorted by non-increasing score and is a permutation of the scored candidates |
| ShiftConflicts.SortDescIsStable | src/lib/shiftConflicts.ts:184 | Candidates with equal scores keep their input order, as the stable `Array.prototype.sort` does |
| ShiftConflicts.SortByScore | src/lib/shiftConflicts.ts:184 | The in-place insertion sort leaves the array equal to the stable descending ranking of its old contents |
| ShiftConflicts.InsertLast | src/lib/shiftConflicts.ts:184 | One pass moves the next entry into the sorted prefix at its stable place and leaves the rest of the array alone |
| ShiftConflicts.Pool | src/lib/shiftConflicts.ts:163-176 | The candidates are exactly the STAFF users other than a truthy excluded id |
| ShiftConflicts.ScoreAll | src/lib/shiftConflicts.ts:178-181 | Every candidate is scored against its own conflict report, in pool order |
| ShiftConflicts.CountConflicted | src/lib/shiftConflicts.ts:188 | The count is positive iff some candidate has a conflict |
| ShiftConflicts.CountAvailable | src/lib/shiftConflicts.ts:196 | The count is zero iff no candidate is both conflict-free and active |
| ShiftConflicts.ConflictWarnings | src/lib/shiftConflicts.ts:187-199 | One warning per condition that holds and never the loading error; a conflict warning is present iff some candidate conflicts, comes first and carries their number; a "no staff available" warning is present iff no candidate is both conflict-free and active |
| ShiftConflicts.ScoreEach | src/lib/shiftConflicts.ts:178-181 | A new array holding the candidates' match scores, in pool order |
| ShiftConflicts.GetSmartStaffSuggestions | src/lib/shiftConflicts.ts:156-215 | The result is the sorted permutation of the scored pool with the availability count, the warnings and the first entry as best match; a failed user query gives the fixed error result |
| ShiftConflicts.RankedCandidatesAreEligible | src/lib/shiftConflicts.ts:163-184 | Every ranked candidate is a STAFF user from the table, other than the excluded id |
| ShiftConflicts.CountsIgnoreOrder | src/lib/shiftConflicts.ts:184-196 | Counting conflicted and available candidates gives the same result before and after ranking |
| ShiftConflicts.ScoreTier | src/lib/shiftConflicts.ts:218-231 | Excellent iff the score is at least 80, Good iff in [60, 80), Fair iff in [40, 60), Poor iff below 40 |
| ShiftConflicts.ScoreColor | src/lib/shiftConflicts.ts:218-224 | Green iff the score is at least 80, yellow iff in [60, 80), orange iff in [40, 60), red iff below 40 |
| ShiftConflicts.ScoreLabel | src/lib/shiftConflicts.ts:226-231 | "Excellent Match" iff at least 80, "Good Match" iff in [60, 80), "Fair Match" iff in [40, 60), "Poor Match" iff below 40 |
| ShiftConflicts.ScoreTierMonotone | src/lib/shiftConflicts.ts:218-231 | A higher score never gets a lower label or colour |
| ShiftConflicts.TierOfCandidate | src/lib/shiftConflicts.ts:137-141 | An inactive candidate is at best a "Fair Match"; an active conflict-free STAFF candidate is at least a "Good Match" |
| ShiftConflicts.GetConflictIndicator | src/lib/shiftConflicts.ts:234-247 | On a conflict the badge is "⚠️", "text-red-600" and "Has Conflicts"; otherwise "✅", "text-green-600" and "Available"; each field as iff |
| Reliability.AcceptedBy | src/lib/reliability.ts:14-27 | Exactly the call-outs the user accepted |
| Reliability.MissedCount | src/lib/reliability.ts:44 | At most the number of call-outs; zero iff none was missed |
| Reliability.MeanResponseMinutes | src/lib/reliability.ts:48-58 | Zero without responses; otherwise the mean times the number of responses is the sum |
| Reliability.SumWithinBounds | src/lib/reliability.ts:48-58 | If every response time lies in [lo, hi], the sum lies between lo and hi times the number of responses |
| Reliability.MeanWithinBounds | src/lib/reliability.ts:48-58 | If every response time lies in [lo, hi], so does the mean |
| Reliability.ResponseTimeFactor | src/lib/reliability.ts:64-68 | The factor lies in [0.1, 1]; it is 1 up to 5 minutes and 0.1 from 59 minutes on |
| Reliability.CompositeScore | src/lib/reliability.ts:61-72 | The score lies in [0, 1], and is at least 0.219 for a completion rate in [0, 1] |
| Reliability.PerfectRecordScoresOne | src/lib/reliability.ts:61-72 | A full completion rate with a mean response of at most 5 minutes gives a score of 1 |
| Reliability.NineOfTenInThreeMinutes | src/lib/reliability.ts:61-72 | Nine of ten completed at three minutes' mean response gives 0.93 |
| Reliability.RoundTo2 | src/lib/reliability.ts:74-81 | Rounding to two decimals moves a value by at most half a hundredth and keeps [0, 1] |
| Reliability.ReliabilityOf | src/lib/reliability.ts:12-85 | No accepted call-outs gives the perfect default; otherwise completed plus missed is the total, the rate and score are in [0, 1] and the score is the unrounded composite of rate and mean |
| Reliability.CalculateReliabilityScore | src/lib/reliability.ts:12-85 | The imperative computation returns `ReliabilityOf` of the call-outs |
| Reliability.ReliabilityColor | src/lib/reliability.ts:102-106 | Emerald iff the score is at least 0.8, yellow iff in [0.6, 0.8), red iff below 0.6 |
| Reliability.ReliabilityLabel | src/lib/reliability.ts:108-113 | "Excellent" iff at least 0.9, "Good" iff in [0.8, 0.9), "Fair" iff in [0.6, 0.8), "Needs Improvement" iff below 0.6 |
| Reliability.LabelAndColorAgree | src/lib/reliability.ts:102-113 | Green iff "Excellent" or "Good", yellow iff "Fair", red iff "Needs Improvement" |
| Reliability.ColorMonotone | src/lib/reliability.ts:102-106 | A higher score never gets a worse colour |
| Reliability.LabelMonotone | src/lib/reliability.ts:108-113 | A higher score never gets a worse label |
| Reliability.ResponseTimeParts | src/lib/reliability.ts:115-121 | "< 1m" iff below one minute; below an hour the minutes are the mean rounded to within half a minute (between 1 and 60); from an hour on, the hours are the whole hours of the mean and hours·60 + minutes is the mean rounded to within half a minute, minutes at most 60 |
| Reliability.FormatResponseTime | src/lib/reliability.ts:115-121 | "< 1m" exactly below one minute; below an hour the digits of the mean rounded to within half a minute, then "m"; from an hour on the digits of the whole hours, "h", and " " with the remaining rounded minutes and "m" only when they are positive |
| Reliability.SixtyMinutesShown | src/lib/reliability.ts:115-121 | 119.6 minutes is shown as 1 h 60 m and 59.6 minutes as 60 m |
| Reliability.CarriedResponseTimeParts | src/lib/reliability.ts:115-121 | With the rounding carried, minutes stay below 60 and hours and minutes add up to the rounded total |
| Reliability.FormatResponseTimeCarried | src/lib/reliability.ts:115-121 | The corrected text: "< 1m" iff below one minute, the rounded total with "m" below an hour, otherwise hours and a minute part below 60 that add up to the rounded total |
| Reliability.CarriedShowsTwoHours | src/lib/reliability.ts:115-121 | With the carry, 119.6 minutes is printed as "2h" |
| Store.Stamped | src/app/api/shift/accept/route.ts:68-75 | Every call-out of the shift is marked accepted by the actor at `now`; the others are unchanged |
| Store.WithReliability | src/lib/reliability.ts:87-100 | Only the user's row changes, and it gets the recomputed score |
| Store.AcceptOn | src/app/api/shift/accept/route.ts:9-107 | 400 iff no shift id; then 401 iff no valid session, 403 iff not STAFF, 404 iff the user or shift is unknown, and success iff every check passes; on success the shift is assigned to the actor whatever its status, its call-outs are stamped, one audit row is appended and the score is refreshed unless that update fails |
| Store.AcceptPreservesWellFormed | src/app/api/shift/accept/route.ts:59-101 | Accepting keeps the tables' invariant |
| Store.AcceptResponseIgnoresReliabilityFailure | src/app/api/shift/accept/route.ts:101-103 | Whether the fire-and-forget score update fails changes neither the response nor the shifts, call-outs and audit rows, and a failed update leaves the users as they were |
| Store.SecondAcceptOverwrites | src/app/api/shift/accept/route.ts:41-65 | A second STAFF acceptance of an accepted shift succeeds and reassigns it |
| Store.CancelShiftOn | src/app/api/shifts/cancel/route.ts:7-68 | 401 iff no valid session, 403 iff not ADMIN or MANAGER, 400 iff no id, 404 iff unknown, success iff every check passes; then only that shift becomes CANCELLED, it is returned, and one audit row is appended |
| Store.CancelShiftPreservesWellFormed | src/app/api/shifts/cancel/route.ts:50-53 | Cancelling a shift keeps the invariant |
| Store.CancelShiftTwice | src/app/api/shifts/cancel/route.ts:34-53 | A repeated cancel succeeds and changes nothing but the audit log |
| Store.CancelCallOutOn | src/app/api/callout-logs/cancel/route.ts:7-75 | 401 iff no valid session, 403 iff not ADMIN or MANAGER, 400 iff no id, 404 iff unknown, success iff every check passes; then only that call-out's status becomes cancelled, it is returned, and one audit row is appended |
| Store.CancelCallOutPreservesWellFormed | src/app/api/callout-logs/cancel/route.ts:57-60 | Cancelling a call-out keeps the invariant |
| Store.CancelCallOutTwice | src/app/api/callout-logs/cancel/route.ts:34-60 | A repeated call-out cancel changes nothing but the audit log |
| Store.CreateCallOutOn | src/app/api/callout/route.ts:8-66 | 400 iff the user id or skill is falsy or a date is missing; otherwise a new OPEN shift is appended; 500 iff the user is unknown, with the shift left behind; on success the call-out row and an audit row are appended |
| Store.CreateCallOutPreservesWellFormed | src/app/api/callout/route.ts:16-38 | The new ids are fresh and the new call-out refers to the new shift and an existing user |
| Store.ParseUserStatus | src/app/api/admin/users/route.ts:116-122 | A parsed status prints back as the text it came from |
| Store.ParseStatusName | src/app/api/admin/users/route.ts:116-122 | Every status name parses back to its status |
| Store.UpdateDataOf | src/app/api/admin/users/route.ts:116-122 | `status` is written iff it is non-empty; `active` iff a boolean was sent |
| Store.BuildUpdateData | src/app/api/admin/users/route.ts:116-122 | The conditional assignments build `UpdateDataOf` |
| Store.ActionTypeFor | src/app/api/admin/users/route.ts:131-133 | With a status: activated iff "ACTIVE", suspended iff "SUSPENDED", deactivated otherwise; without one, the boolean decides |
| Store.ActionDetail | src/app/api/admin/users/route.ts:135-137 | The audit detail names the user's e-mail; with a status it ends with that status, otherwise it starts with "Activated" iff the user was activated |
| Store.ApplyUpdate | src/app/api/admin/users/route.ts:125-128 | The write fails iff the status text is unknown; otherwise only status and `active` change, as sent |
| Store.UpdateUserStatusOn | src/app/api/admin/users/route.ts:89-152 | 401 iff no valid session, 403 iff not ADMIN, 400 iff no id or nothing to change, 500 iff the user or status is unknown, success iff every check passes; then only that user changes and the audit row names the administrator, the action and the detail |
| Store.UpdateUserStatusPreservesWellFormed | src/app/api/admin/users/route.ts:125-128 | Changing a status keeps the invariant |
| Store.Store.StampLogs | src/app/api/shift/accept/route.ts:68-75 | The row-by-row update leaves the call-outs equal to `Stamped` and nothing else changed |
| Store.Store.UpdateUserReliabilityScore | src/lib/reliability.ts:87-100 | The user table becomes `WithReliability` of the call-outs; nothing else changes |
| Store.Store.Accept | src/app/api/shift/accept/route.ts:9-107 | Ends in the response and state `AcceptOn` describes, keeping the invariant |
| Store.Store.CancelShift | src/app/api/shifts/cancel/route.ts:7-68 | Ends in the response and state `CancelShiftOn` describes |
| Store.Store.CancelCallOut | src/app/api/callout-logs/cancel/route.ts:7-75 | Ends in the response and state `CancelCallOutOn` describes |
| Store.Store.CreateCallOut | src/app/api/callout/route.ts:8-66 | Ends in the response and state `CreateCallOutOn` describes |
| Store.Store.UpdateUserStatus | src/app/api/admin/users/route.ts:89-152 | Ends in the response and state `UpdateUserStatusOn` describes |
| AdminStats.TallyByRole | src/app/api/admin/stats/route.ts:66-83 | The counting loop produces, per caller role, the logged, filled and accepted-missed counts |
| AdminStats.LoggedAddsUp | src/app/api/admin/stats/route.ts:66-83 | The per-role logged counts add up to the call-outs in the window |
| AdminStats.FilledAndMissedWithinLogged | src/app/api/admin/stats/route.ts:66-83 | For each role, filled plus missed is at most logged |
| AdminStats.TotalFilledAddsUp | src/app/api/admin/stats/route.ts:144 | The per-role filled counts add up to `totalShiftsFilled` |
| AdminStats.TotalMissedCoversRoles | src/app/api/admin/stats/route.ts:145 | `totalShiftsMissed` is at least the sum of the per-role missed counts |
| AdminStats.MissedWithoutAcceptance | src/app/api/admin/stats/route.ts:66-83 | An unaccepted missed call-out counts in the total but in no role |
| AdminStats.BucketsCoverUsers | src/app/api/admin/stats/route.ts:122-127 | The four reliability buckets add up to the number of users |
| AdminStats.UsersByRole | src/app/api/admin/stats/route.ts:33-38 | One entry per role with users, holding its count |
| AdminStats.UsersByStatus | src/app/api/admin/stats/route.ts:41-46 | "Active" and "Inactive" entries with their counts, present iff non-zero |
| AdminStats.Chart | src/app/api/admin/stats/route.ts:86-111 | Fourteen days, one day apart from the chart start |
| AdminStats.DailyActivity | src/app/api/admin/stats/route.ts:86-111 | The chart loop builds `Chart` |
| AdminStats.DayCountsConsistent | src/app/api/admin/stats/route.ts:86-111 | On every day, filled plus missed is at most logged |
| AdminStats.DaysCoverSpan | src/app/api/admin/stats/route.ts:86-111 | Consecutive days add up to the call-outs of the span they cover |
| AdminStats.Since | src/app/api/admin/stats/route.ts:49-63 | Exactly the call-outs at or after the window start, in order |
| AdminStats.ReportConsistent | src/app/api/admin/stats/route.ts:129-146 | Role counters add up to the totals (missed: at most), buckets cover all users, active users are at most all, and the chart adds up to the last fourteen days |
| AdminStats.GetAdminStats | src/app/api/admin/stats/route.ts:6-150 | 401 iff no valid session, 403 iff not ADMIN, 500 iff a table read fails, success iff an ADMIN's reads succeed; the report is the one `ReportOf` describes |
| RouteGuard.HomeOf | src/middleware.ts:27-29 | ADMIN goes to /admin, MANAGER to /manager/dashboard, every other role to /staff/shifts |
| RouteGuard.CheckRoutes | src/middleware.ts:24-31 | Passes iff every protected prefix of the path belongs to the user's role; otherwise redirects to the user's home |
| RouteGuard.Middleware | src/middleware.ts:9-34 | Without a session: /login iff the path is protected; an unparsable session always goes to /login; with a session: passes iff no matching prefix has another role |
| RouteGuard.Route | src/middleware.ts:36-38 | Paths outside the matcher are never redirected |
| RouteGuard.RedirectTargetPasses | src/middleware.ts:3-31 | For the three known roles the redirect target is let through, so there is no redirect loop |
| RouteGuard.UnknownRoleRedirectedAgain | src/middleware.ts:24-31 | An unknown role is sent to /staff/shifts and redirected from there again |
| RouteGuard.AdminPrefixCoversLongerPaths | src/middleware.ts:13-25 | Any path beginning with /admin is guarded as the admin dashboard |
| RouteGuard.AdministratorIsGuardedAsAdmin | src/middleware.ts:13-38 | /administrator is redirected for a STAFF user by the guard, though the matcher never sends it there |
| Notifications.ShouldConnect | src/hooks/useSocket.ts:23-26 | A connection is opened iff the user is present with truthy id, e-mail and role |
| Notifications.Prepended | src/hooks/useSocket.ts:55 | The new notification is first, followed by the previous ones in order, and the list holds at most 50 |
| Notifications.OldestDroppedWhenFull | src/hooks/useSocket.ts:55 | With 50 entries, receiving one more drops the oldest |
| Notifications.WithoutTimestamp | src/hooks/useSocket.ts:79-81 | An entry remains iff it was there and its timestamp differs |
| Notifications.WithoutTimestampAppend | src/hooks/useSocket.ts:79-81 | Removal distributes over concatenation, so the survivors keep their relative order |
| Notifications.WithoutAbsentTimestamp | src/hooks/useSocket.ts:79-81 | Removing an absent timestamp changes nothing |
| Notifications.RemoveIdempotent | src/hooks/useSocket.ts:79-81 | Removing the same timestamp twice is removing it once |
| Notifications.NotificationFeed.Receive | src/hooks/useSocket.ts:51-55 | The list becomes `Prepended` of the old one and stays within 50 |
| Notifications.NotificationFeed.RemoveNotification | src/hooks/useSocket.ts:79-81 | The list becomes `WithoutTimestamp` of the old one |
| Notifications.NotificationFeed.ClearNotifications | src/hooks/useSocket.ts:75-77 | The list becomes empty |
| Notifications.NotificationFeed.OnConnect | src/hooks/useSocket.ts:38-44 | The flag becomes true; the list is unchanged |
| Notifications.NotificationFeed.OnDisconnect | src/hooks/useSocket.ts:46-49 | The flag becomes false |
| Notifications.NotificationFeed.OnConnectError | src/hooks/useSocket.ts:63-66 | The flag becomes false |

## Left out

- Database access: the Prisma queries are modelled as reads and writes of in-memory tables. There is no query engine, no transaction and no concurrency. Two requests never interleave.
- A failing read in the suggestion code is one `StorageFailure` value for the user table and one for the shift table. In the stats route, a failing read of the user table or of the joined call-outs leads to the route's 500. The stats route's several user queries read one user table here.
- Any other storage exception in the routes is left out, except the failed call-out insert for an unknown user, which is modelled as the 500 it produces.
- Audit writes always succeed here. The audit helper of `src/lib/audit.ts` swallows a failed insert, for example one with an unknown actor id, so the source can end without the audit row.
- Request bodies and sessions arrive parsed and well-typed. A malformed JSON body (read with `req.json()` inside each route's outer try, before any check), an id of the wrong type passed to a query, and a session without a numeric `id` all end in the routes' 500 in the source; these 500s are not modelled.
- Store.CreateCallOutOn: the calling user's id is taken as a number, with `0` falsy. The source receives it as text, so `"0"` passes the field check there and ends in 500 with the new shift left behind, where the model answers 400.
- Authentication: cookies, password hashing and login are out of scope. The session reaches each route and the guard as a parameter.
- `JSON.parse` of a session that yields something without a `role` field is folded into `Unrecognised`.
- A session cookie that parses to `null` has no counterpart here. The source then reads `role` of `null` and throws: the API routes answer 500 from their outer catch, and the page guard of `src/middleware.ts` raises an uncaught error.
- Audit rows: only the actor, the action and, for status changes, the detail text are kept. The accept, cancel and call-out-created details contain locale-formatted dates and are left out.
- The admin user list (`GET /api/admin/users`) and the read-only routes are not modelled, since they only pass query results through.
- Dates: the `start`/`end` strings of a call-out become epoch milliseconds, with `None` for an absent or empty string. An unparsable date string is not modelled.
- The stats route's `days` parameter is an integer here. Parsing it, and a `NaN` from a bad value, are left out.
- The chart's days are fixed 24-hour spans, so daylight-saving changes are left out.
- The order of the `groupBy` rows is not modelled; only their contents are stated.
- The stats route receives each call-out already joined with its caller's role, as the query's `include` delivers it.
- Floating point: scores are exact reals, so binary rounding error is left out. `Math.round` is `floor(x + 0.5)`.
- Reliability.ReliabilityOf: the rounded rate and mean are stated only to within half a unit of their last decimal, not digit by digit.
- Ordering of the call-outs by timestamp in the reliability query does not change any count or mean, so it is not modelled.
- `updateUserReliabilityScore` runs in the background after the accept response in the source. Here it is a step of `Store.Store.Accept`, and its possible failure is a boolean parameter.
- The Socket.IO transport is not modelled: the server, rooms, the `authenticate` emit, the custom `onNotification` callback and the socket's own lifetime. Only the list and flag updates that the event handlers perform are modelled.
- The optional `shift` and `acceptedBy` display fields of a notification are not modelled.
- `requiredSkill` is passed to the match score but unused by it, as in the source.
- User interface components that render these values are not modelled.

## Findings

| source | as written | input that shows it | evidently intended | confidence | as-written member | corrected member |
|---|---|---|---|---|---|---|
| src/lib/reliability.ts:115-121 | Hours are `floor(minutes / 60)` and minutes are rounded separately, so a rounding up to 60 is not carried into the hours. | 119.6 minutes shows "1h 60m" (and 59.6 shows "60m") | Carry the rounded minutes, so that 119.6 shows "2h" and the minutes shown are always below 60 | not executed | Reliability.SixtyMinutesShown | Reliability.CarriedResponseTimeParts |
