# Attendance core: punch classification and time accounting

This project is a Dafny model of the core of a Chilean electronic attendance
system. Workers identify themselves at a kiosk or scanner screen. The server
chooses the type of each punch (ENTRY, LUNCH_START, LUNCH_END, EXIT), hashes it
and stores it, and issues a printed ticket. From each day's punches the server
derives a working-day row: lunch, total, ordinary and overtime minutes. Weekly
figures are sums over those rows. A live dashboard and a reports table show the
same data.

The system runs two punch policies side by side, and the model keeps them
apart as the code does:

- the scan endpoints use a 16-hour rotation over the employee's last log (`Classifier`);
- the status endpoint and both screens use a cap of four punches per day (`StatusController`).

Lemmas relate the two policies. They agree on the first four punches of a
fresh day and part at the fifth.

Modules, one per source file or shared concern:

| module | models |
|---|---|
| `Common` | options, results, store answers, JavaScript truthiness and `${}` rendering, `a \|\| b` |
| `Text` | `split`, `join`, `trim`, `padStart`, `toUpperCase` and decimal rendering, with their lemmas |
| `Clock` | millisecond instants, truncating division and remainder, `differenceInMinutes` |
| `Events` | the four event codes, their Spanish labels, the strict and the case-insensitive readings, the last stamp of each type |
| `Classifier` | the 16-hour rotation shared by `scanQR` and the serverless scan endpoint |
| `StatusController` | `checkStatus` and the 4-punch cap |
| `TicketGenerator` | `generateHash` (over an abstract digest) and `formatTicket` |
| `AttendanceCalculator` | `recalculateDay` and `getWeeklyConsolidation` |
| `AttendanceController` | `scanQR` and `getReports` |
| `ScanEndpoint` | the serverless `api/attendance/scan.js` handler |
| `Dashboard` | the status board of `Dashboard.jsx` |
| `Reports` | `formatMinutes` and `formatTime` of `Reports.jsx` |
| `Kiosk` | the `Kiosk.jsx` screen, as a class |
| `Scanner` | the `Scanner.jsx` screen, as a class |

Store calls are not executed. The model records each call as a step and takes
the store's answer as a parameter. SHA-256 and date-fns are also parameters:
`digest` for SHA-256, and for date-fns the rendered date and hour texts and a
`render` function. Instants are integer milliseconds.

The model follows the code as written, including where its behaviour is easy to misread:

- The scan flow's `switch` on the last type has no default. A last type other than the four exact codes (a Spanish label, a lower-case code) therefore restarts the day at ENTRY, even inside the 16-hour window.
- The day calculation does not clamp at zero. An exit before the entry gives negative total and ordinary minutes.
- `formatMinutes` uses JavaScript's `%`. A negative figure therefore prints with a sign in both parts (`-1:-5`).
- `scanQR` awaits `recalculateDay(employeeId)` without catching its errors. A throw there leaves the punch stored and the request without a reply. The serverless endpoint answers the same case with a 500.

## Model

| member | source | states |
|---|---|---|
| Common.CountOrZero | src/pages/Kiosk.jsx:54 | a missing log list counts as zero rows, a present one as its length |
| Common.OrDefault | src/pages/Kiosk.jsx:97 | a present non-empty message wins, otherwise the default text |
| Clock.TruncDiv | src/pages/Dashboard.jsx:99 | the quotient rounds toward zero: bounded by the dividend on both sides for either sign |
| Clock.TruncRem | src/pages/Reports.jsx:37 | `a == q*b + r`, with the remainder taking the sign of the dividend and smaller than the divisor in size |
| Clock.DiffMinutes | backend/services/AttendanceCalculator.js:36 | whole minutes between two instants, truncated toward zero, negative when the later instant is earlier |
| Clock.DiffMinutesAntisymmetric | backend/services/AttendanceCalculator.js:41 | swapping the instants flips only the sign |
| Events.Position | backend/controllers/attendanceController.js:39-44 | each event's index in the day order ENTRY, LUNCH_START, LUNCH_END, EXIT |
| Events.Next | backend/controllers/attendanceController.js:39-44 | the next type is the following one in the day order, wrapping EXIT to ENTRY |
| Events.ParseCode | backend/controllers/attendanceController.js:39-44 | recognises exactly the four internal codes, each as its own event |
| Events.Normalize | src/pages/Dashboard.jsx:76-92 | an event is recognised iff the upper-cased type equals its code or its Spanish label |
| Events.NormalizeIgnoresCase | src/pages/Dashboard.jsx:76 | types equal up to upper case read the same |
| Events.NormalizeCodesAndLabels | src/pages/Dashboard.jsx:77-92 | every code and every label is recognised as its own event |
| Events.LastIndex | backend/services/AttendanceCalculator.js:25-32 | the index of a log of that type with no later log of that type, or -1 when none exists |
| Events.LastRecognisedIndex | src/pages/Dashboard.jsx:75-94 | the index of a recognised log with no later recognised log, or -1 |
| Events.LastStampAppend | backend/services/AttendanceCalculator.js:25-32 | a new log changes the last stamp of its own type and of no other |
| Events.LastRecognisedAppend | src/pages/Dashboard.jsx:75-94 | a new log becomes the last recognised event exactly when it is recognised |
| Events.LastStampIsLatest | backend/services/AttendanceCalculator.js:16-32 | on logs ordered by time, the last stamp of a type is its latest instant |
| Events.ReadingsAgreeOnCodes | src/pages/Dashboard.jsx:76-92 | on logs holding only internal codes, the dashboard's reading and the calculator's give the same stamps |
| Events.LastWhere | backend/services/AttendanceCalculator.js:25-32 | below a bound, the index of a log meeting the test with no later one under the bound, or -1 |
| Events.LastWhereUnique | backend/services/AttendanceCalculator.js:25-32 | an index meeting the test with none after it, or -1 when no log meets it, is the one found |
| Events.LastIndexUnique | backend/services/AttendanceCalculator.js:25-32 | an index holding a log of the type with none of the type after it, or -1 when no log has the type, is the last index |
| Events.LastRecognisedUnique | src/pages/Dashboard.jsx:75-94 | an index holding a recognised log with no recognised log after it, or -1 when none is recognised, is the last recognised index |
| Events.StampsAppend | backend/services/AttendanceCalculator.js:25-32 | a new log restamps each of the four types by that log alone |
| Events.StampsStep | backend/services/AttendanceCalculator.js:25-32 | the stamps after one more log of the list are the previous stamps with that log's type restamped |
| Classifier.WithinWindow | backend/controllers/attendanceController.js:34-38 | a punch at or before the last log is inside the window; one 16 hours or more after it is outside |
| Classifier.Classify | backend/controllers/attendanceController.js:28-46 | ENTRY without a last log or 16 hours or more after it; otherwise the successor of a known last type; ENTRY iff no rotation applies |
| Classifier.UnknownTypeRestarts | backend/controllers/attendanceController.js:39-44 | inside the window, an unrecognised last type restarts at ENTRY |
| Classifier.EarlierPunchRotates | backend/controllers/attendanceController.js:34-38 | a punch stamped before the last log is inside the window and rotates |
| Classifier.ScanTypes | api/attendance/scan.js:43-59 | one type per punch in a sequence of punches |
| Classifier.RapidTail | backend/controllers/attendanceController.js:34-38 | the punches after the first of a rapid sequence are rapid, and the second is inside the first's window |
| Classifier.ScanTypesTail | api/attendance/scan.js:43-59 | every punch after the first is classified against the punch before it |
| Classifier.RotationStep | backend/controllers/attendanceController.js:34-45 | a punch inside the window of a recognised last log takes the next type and becomes the last log of the punches after it |
| Classifier.RotationAt | backend/controllers/attendanceController.js:39-45 | the k-th type of the rotation after c stands k + 1 places past c in ENTRY, LUNCH_START, LUNCH_END, EXIT |
| Classifier.RapidScansRotate | backend/controllers/attendanceController.js:29-46 | strictly rising punches inside each other's window get exactly the rotation that follows the last log's type |
| Classifier.RotationContinues | backend/controllers/attendanceController.js:38-45 | strictly rising punches kept inside the window continue the rotation k steps past the last type |
| Classifier.FirstShiftRotation | backend/controllers/attendanceController.js:29-46 | a fresh employee's strictly rising rapid punches are ENTRY, LUNCH_START, LUNCH_END, EXIT, ENTRY, ... |
| Classifier.GapRestartsRotation | backend/controllers/attendanceController.js:36-38 | after a gap of 16 hours or more, strictly rising rapid punches restart the rotation at ENTRY |
| StatusController.DayLabelsFollowDayOrder | backend/controllers/statusController.js:30 | the offered labels are the Spanish names of the day order |
| StatusController.NextPunch | backend/controllers/statusController.js:26-37 | complete iff four or more logs, iff the label is JORNADA COMPLETA; otherwise the label of the count-th punch |
| StatusController.CheckStatus | backend/controllers/statusController.js:3-44 | 404 for an unknown employee, 500 when the log query fails, otherwise 200 with the name and the cap policy's answer |
| StatusController.CheckStatusCountsOnly | backend/controllers/statusController.js:26 | the answer depends on the number of today's logs, not their types |
| StatusController.PoliciesAgreeOnFirstFour | backend/controllers/statusController.js:32-33 | on a fresh day of strictly rising rapid punches, the k-th label offered (k < 4) names the type the rotation assigns |
| StatusController.PoliciesDifferAtFifth | backend/controllers/statusController.js:34-36 | at the fifth strictly rising rapid punch the rotation gives ENTRY while the cap declares the day complete |
| TicketGenerator.Preimage | backend/services/TicketGenerator.js:10 | the hashed text is RUT, timestamp and the two written coordinates joined by `\|` |
| TicketGenerator.GenerateHash | backend/services/TicketGenerator.js:9-12 | the hash is the digest of that joined text |
| TicketGenerator.PreimageFields | backend/services/TicketGenerator.js:10 | splitting the hashed text at `\|` gives back RUT, timestamp and the written coordinates |
| TicketGenerator.PreimageDeterminesFields | backend/services/TicketGenerator.js:9-12 | equal hashed texts imply equal RUT, timestamp and written coordinates |
| TicketGenerator.FalsyCoordinatesHashAsZero | backend/services/TicketGenerator.js:10 | missing, null, zero, NaN or empty coordinates hash as `0` |
| TicketGenerator.LocationText | backend/services/TicketGenerator.js:33 | both coordinates, separated by a comma, iff both are truthy; otherwise exactly "No disponible" |
| TicketGenerator.TicketLines | backend/services/TicketGenerator.js:19-39 | 21 lines, opening with the title and closing with the legal notice |
| TicketGenerator.FormatTicket | backend/services/TicketGenerator.js:17-41 | the ticket is the 21 template lines joined by line breaks, with trim removing exactly the template's outer white space |
| TicketGenerator.TicketLine | backend/services/TicketGenerator.js:26-37 | the name, worker RUT, event, location, id and hash lines hold their fields, each inner line between two breaks |
| TicketGenerator.TicketHasLine | backend/services/TicketGenerator.js:18-40 | every inner template line stands in the ticket as a whole line |
| TicketGenerator.TicketShowsPunch | backend/services/TicketGenerator.js:30-37 | the ticket shows the event type, the log id and the hash as whole lines |
| AttendanceCalculator.AccountDay | backend/services/AttendanceCalculator.js:34-47 | lunch and total minutes from the stamps; ordinary at most 540; ordinary plus overtime is the total; overtime non-negative, positive iff the total exceeds 540; above 540 ordinary is exactly 540 and overtime the excess, at or below it ordinary is the total |
| AttendanceCalculator.RecalculateDay | backend/services/AttendanceCalculator.js:8-65 | a failed query is thrown; otherwise the loop yields the row of the day's last stamps and their accounting, marked PRESENT |
| AttendanceCalculator.VisitLog | backend/services/AttendanceCalculator.js:25-32 | the switch sets the stamp of the log's exact type, leaves the other three, and skips any other type |
| AttendanceCalculator.DayRow | backend/services/AttendanceCalculator.js:34-59 | the row keys the employee and date, is PRESENT, holds the last ENTRY and EXIT stamps, caps ordinary at 540, splits the day's total into ordinary and non-negative overtime, and carries exactly the lunch, ordinary and overtime minutes the day's stamps account to |
| AttendanceCalculator.DayRowIgnoresOtherTypes | backend/services/AttendanceCalculator.js:26-31 | a log of any other type leaves the day row unchanged |
| AttendanceCalculator.DayRowLaterLogWins | backend/services/AttendanceCalculator.js:27-30 | a later ENTRY or EXIT overrides the earlier stamp; other types keep it |
| AttendanceCalculator.Upsert | backend/services/AttendanceCalculator.js:49-62 | the row replaces the one with its (employee, date) key and nothing else changes |
| AttendanceCalculator.RecalculationIsIdempotent | backend/services/AttendanceCalculator.js:49-62 | recalculating again from the same logs leaves the table as it was |
| AttendanceCalculator.GetWeeklyConsolidation | backend/services/AttendanceCalculator.js:71-85 | a failed query is thrown; otherwise the sum of the week's rows, column by column, zero for an empty week |
| AttendanceCalculator.Consolidate | backend/services/AttendanceCalculator.js:81-84 | zero for no rows, a single row's own figures for one |
| AttendanceCalculator.ConsolidateAppend | backend/services/AttendanceCalculator.js:81-84 | the sums over two stretches of days add up |
| AttendanceCalculator.ConsolidateRemove | backend/services/AttendanceCalculator.js:81-84 | a row anywhere in the list adds exactly its own figures to the sums of the others |
| AttendanceCalculator.ConsolidatePermutation | backend/services/AttendanceCalculator.js:81-84 | any reordering of the rows gives the same sums |
| AttendanceCalculator.ConsolidateBounds | backend/services/AttendanceCalculator.js:46-47 | over rows from the day accounting: ordinary at most 540 per row, overtime never negative |
| AttendanceController.LastLogOf | backend/controllers/attendanceController.js:28 | the newest row of the query, none only when it returned no rows |
| AttendanceController.RegisterScan | backend/controllers/attendanceController.js:5-82 | 404 and 500 outcomes with their store calls; the insert only after both checks, with the classified type and the hash; save failure 500; recalculation throw; otherwise 200 with message, ticket and hash |
| AttendanceController.RegisteredPunchIsConsistent | backend/controllers/attendanceController.js:49-81 | a 200 reply carries the stored type and hash, and its ticket shows both as whole lines |
| AttendanceController.SuccessiveScansRotate | backend/controllers/attendanceController.js:38-45 | a punch within 16 hours of the last stores the next type |
| AttendanceController.ScanQR | backend/controllers/attendanceController.js:68-81 | no reply exactly when the recalculation throws; otherwise the flow's reply with the demo company |
| AttendanceController.RecalcFailureLeavesPunchUnanswered | backend/controllers/attendanceController.js:52-68 | when the recalculation throws after the insert, the punch is stored and no reply is sent |
| AttendanceController.FlattenReports | backend/controllers/attendanceController.js:108-112 | every row, in order, with the employee's name and RUT copied up |
| AttendanceController.FlattenReportsRoundTrip | backend/controllers/attendanceController.js:108-112 | dropping the copied fields recovers the query's rows |
| AttendanceController.GetReports | backend/controllers/attendanceController.js:84-115 | 500 on a failed query, otherwise 200 with every row flattened in order, its `full_name` and `rut` copied from its joined employee; the query rows are recoverable from the reply |
| ScanEndpoint.HandleScan | api/attendance/scan.js:5-99 | CORS headers always; OPTIONS 200 without body; other non-POST 405; POST runs the flow, with a throw answered 500 with its message or the default |
| ScanEndpoint.EndpointAgreesWithController | api/attendance/scan.js:23-97 | the endpoint answers every POST with the controller's store calls, status and error bodies, and 500 where the controller gives no reply |
| Dashboard.StateAfter | src/pages/Dashboard.jsx:77-92 | ACTIVO after ENTRY or LUNCH_END, COLACIÓN after LUNCH_START, FINALIZADO after EXIT |
| Dashboard.StateOf | src/pages/Dashboard.jsx:66-94 | INACTIVO iff no log of the day is recognised |
| Dashboard.LogsOf | src/pages/Dashboard.jsx:65 | a log is kept iff it is one of the employee's logs |
| Dashboard.LogsOfAppend | src/pages/Dashboard.jsx:65 | the filter keeps the logs' order: a new log of the employee goes last, any other is dropped |
| Dashboard.LiveMinutes | src/pages/Dashboard.jsx:96-107 | the minutes so far in each case of entry, lunch and exit stamps |
| Dashboard.FinishedDayIgnoresNow | src/pages/Dashboard.jsx:98 | once the exit is stamped the figure does not move with the clock |
| Dashboard.LiveMinutesMatchDayTotal | src/pages/Dashboard.jsx:97-103 | with an entry and an exit, the live figure is the calculator's total |
| Dashboard.BoardAgreesWithCalculator | src/pages/Dashboard.jsx:75-107 | on server-written logs of a closed day, the board shows the stored total |
| Dashboard.LunchStatus | src/pages/Dashboard.jsx:114 | N/A iff no lunch start; Completada iff both lunch stamps; En proceso iff only the start |
| Dashboard.BoardTests | src/pages/Dashboard.jsx:76-92 | the board's four tests on the upper-cased type are the normalised reading |
| Dashboard.VisitLog | src/pages/Dashboard.jsx:75-94 | a recognised log sets the state it leads to and restamps its own type only; any other log changes nothing |
| Dashboard.StateAppend | src/pages/Dashboard.jsx:75-94 | a new recognised log decides the state; any other log leaves it |
| Dashboard.StateStep | src/pages/Dashboard.jsx:75-94 | the state after one more log of the list is the previous state moved on by that log, if recognised |
| Dashboard.FoldLogs | src/pages/Dashboard.jsx:67-94 | the loop yields the state after the last recognised event and the last stamp of each type |
| Dashboard.MinutesSoFar | src/pages/Dashboard.jsx:96-107 | the computed minutes are the live figure |
| Dashboard.EmployeeStatus | src/pages/Dashboard.jsx:64-118 | one employee's line is the state, stamps, lunch status and live minutes of their logs |
| Dashboard.BuildStatusMap | src/pages/Dashboard.jsx:64-118 | the pass yields the board: the employees mapped, in order, to their status lines |
| Dashboard.MapSeqAt | src/pages/Dashboard.jsx:64 | the k-th element of the mapped list is the callback applied to the k-th element |
| Dashboard.MapSeq | src/pages/Dashboard.jsx:64 | the mapped list has one element per input element |
| Dashboard.StatusMap | src/pages/Dashboard.jsx:64-118 | the board has one line per employee |
| Dashboard.StatusMapLine | src/pages/Dashboard.jsx:64-118 | the k-th line is the k-th employee's status from that employee's own logs only |
| Dashboard.StatusMapExtend | src/pages/Dashboard.jsx:64-118 | mapping one more employee adds that employee's line at the end and changes no earlier line |
| Dashboard.CountIn | src/pages/Dashboard.jsx:125-127 | a count never exceeds the number of lines |
| Dashboard.CountInExtremes | src/pages/Dashboard.jsx:125-127 | a count is zero iff no line is in the states, and the number of lines iff every line is |
| Dashboard.CountInUnion | src/pages/Dashboard.jsx:125-127 | counts over disjoint states add up |
| Dashboard.CountInAll | src/pages/Dashboard.jsx:123-128 | every line is counted under some state |
| Dashboard.StatsOf | src/pages/Dashboard.jsx:123-128 | the total is the number of employees; present counts ACTIVO lines, in lunch COLACION lines, inactive INACTIVO and FINALIZADO lines; each count is at most the number of lines |
| Dashboard.StatsPartition | src/pages/Dashboard.jsx:123-128 | present, at lunch and inactive add up to the total |
| Reports.FormatMinutes | src/pages/Reports.jsx:34-35 | a missing, null or zero figure prints as `00:00` |
| Reports.PaddedDigits | src/pages/Reports.jsx:38 | padding keeps the digits and the value, giving exactly two characters below 100 |
| Reports.FormatNonNegative | src/pages/Reports.jsx:34-39 | a non-negative figure prints as padded hours, `:`, padded minutes |
| Reports.FormatMinutesRoundTrip | src/pages/Reports.jsx:34-39 | the text splits at `:` into two digit strings giving back hours times 60 plus minutes, the minutes two digits below 60 |
| Reports.FormatMinutesWidth | src/pages/Reports.jsx:36-38 | below 6000 minutes the text is five characters with `:` in the middle; from 6000 on it is longer |
| Reports.NegativeMinutesShowBothSigns | src/pages/Reports.jsx:36-37 | five minutes under zero print as `-1:-5` |
| Reports.FormatTime | src/pages/Reports.jsx:41-44 | `--:--` for a missing or empty timestamp, otherwise its rendering |
| Kiosk.KioskNextEvent | src/pages/Kiosk.jsx:54-65 | refused iff four or more logs, with the complete message; otherwise the count-th label |
| Kiosk.KioskAgreesWithCheckStatus | src/pages/Kiosk.jsx:54-59 | the kiosk refuses exactly when the status endpoint reports the day complete, and otherwise offers the same label |
| Kiosk.KioskScreen.constructor | src/pages/Kiosk.jsx:9-12 | an idle screen with nothing pending, no error, no location and no submissions |
| Kiosk.KioskScreen.OnPosition | src/pages/Kiosk.jsx:18-23 | records the location and nothing else |
| Kiosk.KioskScreen.OnPrompt | src/pages/Kiosk.jsx:27-32 | an empty or cancelled prompt changes nothing; a non-empty id runs the scan: an unknown worker or a complete day is an error, otherwise confirming with the next label |
| Kiosk.KioskScreen.ProcessScan | src/pages/Kiosk.jsx:34-76 | an unknown worker or a complete day is an error keeping the pending punch; otherwise confirming with the next label |
| Kiosk.KioskScreen.ConfirmMarking | src/pages/Kiosk.jsx:78-101 | nothing without a pending punch; otherwise one submission appended, then success or the server's error or the default |
| Kiosk.KioskScreen.Cancel | src/pages/Kiosk.jsx:175 | back to idle with the pending punch dropped |
| Kiosk.KioskScreen.Retry | src/pages/Kiosk.jsx:225 | back to idle, the message and the pending punch kept |
| Kiosk.KioskScreen.ErrorTimeout | src/pages/Kiosk.jsx:74 | back to idle, all else kept |
| Kiosk.KioskScreen.SuccessTimeout | src/pages/Kiosk.jsx:92-95 | back to idle with the pending punch cleared |
| Scanner.SuccessTicket | src/pages/Scanner.jsx:109 | the on-screen ticket is three lines: the event type, the hash and the local date |
| Scanner.SuccessTicketLines | src/pages/Scanner.jsx:109 | when no value holds a line break, the ticket splits back into exactly those three lines |
| Scanner.ScannerScreen.constructor | src/pages/Scanner.jsx:15-16 | an idle screen with nothing pending, no error, ticket or location, no submissions |
| Scanner.ScannerScreen.OnPosition | src/pages/Scanner.jsx:22-27 | records the location and nothing else |
| Scanner.ScannerScreen.OnCameraFailure | src/pages/Scanner.jsx:39-41 | the camera message is set and nothing else changes |
| Scanner.ScannerScreen.OnDecode | src/pages/Scanner.jsx:34-38 | a decode without a result or while not idle changes nothing; a decode while idle runs the scan: an unknown worker is an error, otherwise confirming with the next punch and completeness |
| Scanner.ScannerScreen.HandleScan | src/pages/Scanner.jsx:51-87 | an unknown worker is an error; otherwise confirming with the cap policy's next punch and completeness |
| Scanner.ScannerScreen.ConfirmMarking | src/pages/Scanner.jsx:89-121 | nothing when no punch is pending or the day is complete; otherwise one submission appended, then the success ticket with the pending punch cleared, or the error |
| Scanner.ScannerScreen.Cancel | src/pages/Scanner.jsx:171 | back to idle with the pending punch dropped |
| Scanner.ScannerScreen.CloseTicket | src/pages/Scanner.jsx:231 | back to idle with the ticket cleared |
| Scanner.ScannerScreen.DismissError | src/pages/Scanner.jsx:249 | the error message is cleared and nothing else changes |
| Scanner.ScannerScreen.ErrorTimeout | src/pages/Scanner.jsx:85 | back to idle, all else kept |
| Scanner.ScannerScreen.SuccessTimeout | src/pages/Scanner.jsx:112-115 | back to idle with the ticket cleared |

## Left out

- Classifier.ScanTypes: each punch sees the previous punch as its last log, which is the newest log only when instants strictly rise; the rotation lemmas require rising instants (`Rapid`), and out-of-order client timestamps are not modelled.
- Supabase queries are not modelled: their filters (employee, date window, `active`), their ordering and `.single()` are taken as given, and their answers are parameters.
- RecalculateDay: the upsert is returned as the row to write (`Upsert` models its effect on the table); the upsert's own failure, thrown at line 64, is not modelled.
- GenerateHash: SHA-256 is the parameter `digest`, so collision resistance is not modelled; only the preimage is.
- date-fns `format`, `parseISO` and `new Date(...)` are not modelled: instants are integer milliseconds, rendered texts are parameters, and invalid timestamps (NaN) are not modelled.
- Floating point is left out: the dashboard's `accumulatedHours` and `overtime` columns (`toFixed(1)`, `weekly_hours_agreed`) and the report's compliance figures.
- Timers, geolocation, the camera and `prompt` are callbacks: the model offers them as methods the environment calls, without timing.
- The intermediate `scanning` and `submitting` states are set and left inside one method, so only each method's final state is modelled; concurrent callbacks (a second decode while a request is in flight) are not modelled.
- The edge function `process-attendance` that the screens post to is not part of this model; its reply is the parameter `outcome`.
- scanQR calls `recalculateDay(employeeId)` without a date; the model records the call as a step and takes whether it threw as a parameter.
- Text.ToUpper covers ASCII and the Latin-1 lower-case letters only. JavaScript's `toUpperCase` also maps letters outside Latin-1 onto letters of the labels (`ı` to `I`, `ſ` to `S`, the ligature `ﬆ` to `ST`), so a type such as "ınıcıo colacıón" reads as LUNCH_START on the board but as no event in the model.
- RegisterScan takes the ticket formatter as a parameter; the controller and the endpoint pass `formatTicket` with the rendered date and hour.
- Dashboard.FoldLogs: the unused `lastLog` variable is not modelled.
- Scanner.ScannerScreen.HandleScan: the default message "Error al identificar QR" is kept but cannot be reached, since the thrown error always has a message.
- The Express runtime's handling of the unhandled rejection in scanQR is modelled as no reply being sent.
- The Dashboard's own load error path and the report page's fetch are not modelled.
