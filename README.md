# trackivity-v2 in Dafny

A model of the logic at the heart of trackivity-v2, a system for recording
student participation in university activities. Students show a QR code.
Administrators scan it, create activities and follow their lifecycle. The
system then totals each student's activity hours against the faculty and
university requirements.

The model covers these parts of the system:

- **The Rust backend.** It reads the session token from the `Authorization`
  header or the `Cookie` header and builds the `Set-Cookie` value. The login
  handler checks in a fixed order, and the session row and the token share one
  expiry. It also models logout, the password-reset expiry with revocation of
  the user's sessions, and scan-token minting. For activities it models the
  list visibility rule and the admin gates. The dynamic `UPDATE` builder is
  modelled so that each placeholder number lines up with its bind. A second
  join of the same activity is a conflict.
- **Authorization in the SvelteKit server and the two client stores.** This
  covers the admin-level hierarchies, the permission tables and the
  `require*` guards. The server hook sorts paths into public, student and
  admin routes by prefix. The JWT expiry cut-off is included, and so are the
  auth-store state transitions of both clients.
- **Navigation.** The route table is filtered recursively by permission. The
  model also covers the public-path rule, route lookup and breadcrumbs.
- **Scan outcomes.** API error codes are normalised: each code maps to itself,
  a few aliases are accepted, and anything else falls back. The model covers
  the category table, the standardised scan result and the detail lines.
- **Activities and hours.** Statuses are computed from dates by an update
  loop that is idempotent. Status spellings are converted between the
  frontend and the backend. Participations are deduplicated per activity,
  and hours are totalled by level. The model includes requirement progress
  and the participant and view-count labels.
- **Input validation.** The zod schemas are written as plain predicates. They
  cover login and registration, admin creation, activity creation, the
  profile update with its Thai phone rule, and password change. The order in
  which the profile and password handlers decide their replies is modelled
  too, along with the field-error grouping they share.
- **Client keep-alive trackers.** Both `ActivityTracker` classes are modelled
  as classes whose methods update `lastActivity`, the pending timer and
  `isTracking`. Time is an explicit parameter.
- **Thai dates.** This covers the Buddhist-era conversion, month and year
  names, the option lists and `ThaiDateFormatter.format`.
- **The QR payload.** The payload of `/api/qr/generate` is modelled as base64
  (section 4 of RFC 4648) of its JSON.

Most core files are one module each (file `x_y.dfy`, module `XY`). Two
modules serve several route files: `FieldErrors` holds the field-error
grouping that the profile and password-change handlers share, and
`UserStore` the user rows both of them read and write. `Common` holds the
shared helpers: Option/Result, prefix tests, subsequences, splitting, ASCII
trimming and lower-casing, and decimal text. Some calls cannot be seen from the
modelled code: JWT signing and verification, Argon2, UUIDs, randomness,
`fetch` and the database. Each of these is a parameter: a function value, a
given outcome, or a table held in a `seq` or `map` field. Clocks are
parameters in milliseconds, or in seconds on the Rust side.

## Model

| member | source | states |
|---|---|---|
| ActivityCreate.PartsMinutes | src/routes/admin/activities/create/+page.server.ts:49-52 | a time whose first two colon-separated parts `Number` reads as x and y counts as x * 60 + y minutes |
| ActivityCreate.SameParts | src/routes/admin/activities/create/+page.server.ts:49-52 | two times whose first parts `Number` reads alike and whose second parts are equal count as the same minute |
| ActivityCreate.LeadingSpaceIgnored | src/routes/admin/activities/create/+page.server.ts:46-52 | a leading space makes an accepted time fail the regex, yet the refinement reads it as the same minute, since `Number` trims |
| ActivityCreate.PaddedStartTimeOrdered | src/routes/admin/activities/create/+page.server.ts:49-52 | example: " 9:00" reads as 540 minutes and "10:00" as 600 |
| ActivityCreate.PaddedStartPassesRefinement | src/routes/admin/activities/create/+page.server.ts:46-54 | example: on one day, start " 9:00" fails the time regex but end "10:00" counts as after it, so the refinement adds no end_time issue |
| ActivityCreate.TimeTextRoundTrip | src/routes/admin/activities/create/+page.server.ts:21-22 | every HH:MM time of day passes the time regex and reads back, through split and `Number`, as its minute of the day |
| ActivityCreate.ShapedTimeInDay | src/routes/admin/activities/create/+page.server.ts:21-22 | any text the time regex accepts reads back as a minute below 24*60 |
| ActivityCreate.ParseIntOfDigits | src/routes/admin/activities/create/+page.server.ts:32 | on non-empty digit text `parseInt` gives the number the digits write |
| ActivityCreate.ParseIntOfHex | src/routes/admin/activities/create/+page.server.ts:152-153 | `parseInt` on "0x" followed by hexadecimal digits reads them in base 16, and on a bare "0x" gives NaN |
| ActivityCreate.HexTextExample | src/routes/admin/activities/create/+page.server.ts:152-153 | example: `parseInt("0x10")` is 16 |
| ActivityCreate.BareHexPrefixExample | src/routes/admin/activities/create/+page.server.ts:152-153 | example: `parseInt("0x")` is NaN |
| ActivityCreate.ParseDecimal | src/routes/admin/activities/create/+page.server.ts:152-153 | the decimal reading fails exactly when the text has no leading digit |
| ActivityCreate.ParseHex | src/routes/admin/activities/create/+page.server.ts:152-153 | the base-16 reading fails exactly when the text has no leading hexadecimal digit |
| ActivityCreate.NonBlankPieces | src/routes/admin/activities/create/+page.server.ts:139 | keeps exactly the pieces whose trim is non-empty, as a subsequence of the list, and is empty exactly when every piece is blank |
| ActivityCreate.NonBlankKeepsCounts | src/routes/admin/activities/create/+page.server.ts:139 | each non-blank piece is kept as often as it occurs, and each blank one never |
| ActivityCreate.NameIssues | src/routes/admin/activities/create/+page.server.ts:11 | no issue exactly when the name has 1 to 255 characters |
| ActivityCreate.DescriptionIssues | src/routes/admin/activities/create/+page.server.ts:12 | no issue exactly when the description is absent or at most 2000 characters |
| ActivityCreate.DateIssues | src/routes/admin/activities/create/+page.server.ts:13-20 | no issue exactly when both dates are non-empty and parse |
| ActivityCreate.TimeIssues | src/routes/admin/activities/create/+page.server.ts:21-22 | no issue exactly when both times match the time regex |
| ActivityCreate.LocationIssues | src/routes/admin/activities/create/+page.server.ts:26 | no issue exactly when the location has 1 to 500 characters |
| ActivityCreate.HoursIssues | src/routes/admin/activities/create/+page.server.ts:28-32 | no issue exactly when hours is non-empty digit text whose value is positive |
| ActivityCreate.OrganizerIssues | src/routes/admin/activities/create/+page.server.ts:33 | no issue exactly when the organizer has 1 to 255 characters |
| ActivityCreate.EligibleIssues | src/routes/admin/activities/create/+page.server.ts:34-37 | no issue exactly when the comma-separated list has at least one non-blank entry |
| ActivityCreate.EmptyListHasNoEntry | src/routes/admin/activities/create/+page.server.ts:34-37 | the empty eligible-organizations text yields no entry, so it is refused |
| ActivityCreate.RefinementIssues | src/routes/admin/activities/create/+page.server.ts:39-59 | with a valid activity type, no refinement issue exactly when the end date is not before the start date and, on one day, the end time is after the start time |
| ActivityCreate.NoIssuesIffValid | src/routes/admin/activities/create/+page.server.ts:10-59 | the schema reports no issue exactly when the form meets every field rule and both refinements |
| ActivityCreate.SameMinuteRefused | src/routes/admin/activities/create/+page.server.ts:46-55 | a single-day activity whose start and end times are equal is never valid |
| ActivityCreate.ActivityDataOf | src/routes/admin/activities/create/+page.server.ts:138-157 | the body sent to the API: name, dates, times, type, location, organizer and year passed through; the description kept exactly when its trim is non-empty, else ""; max participants null when absent or empty, else `parseInt` of it; hours 1 when empty, else `parseInt` of it; the organizations the non-blank comma-separated entries, as a subsequence of the pieces, none for empty text |
| ActivityCreate.ActivityDataCounts | src/routes/admin/activities/create/+page.server.ts:138-155 | each non-blank organization entry is sent as often as the form lists it, and blank entries never |
| ActivityCreate.ValidFormData | src/routes/admin/activities/create/+page.server.ts:138-157 | a valid form sends numeric hours equal to the digits' value and positive, and a non-empty organization list with no blank entry |
| ActivityCreate.CreateAction | src/routes/admin/activities/create/+page.server.ts:122-193 | an invalid form fails with 400; the action succeeds exactly when the form is valid and the API accepts; an API failure passes its status and error, message or the default text; a throw gives 500 |
| ActivityHours.CountedIds | frontend/src/lib/utils/activity-hours.ts:64-76 | an activity id is in the counted set exactly when some record for it counts: a checked-out or completed participation in a completed activity |
| ActivityHours.CompletedIsDistinctCount | frontend/src/lib/utils/activity-hours.ts:64-86 | `completedActivities` equals the number of distinct counted activity ids, never more than the records |
| ActivityHours.RepeatIgnored | frontend/src/lib/utils/activity-hours.ts:71-75 | a further record for an activity already counted changes no counter |
| ActivityHours.CalculateCumulativeHours | frontend/src/lib/utils/activity-hours.ts:57-95 | the forEach loop yields the faculty and university hours of the distinct counted activities, their sum as total, the distinct count as completed, and the record count as total activities |
| ActivityHours.Percentage | frontend/src/lib/utils/activity-hours.ts:127-139 | the capped percentage lies in 0..100, is 100 for a zero requirement, reaches 100 exactly when the requirement is met, and is otherwise current/required*100 |
| ActivityHours.CalculateRequirementProgress | frontend/src/lib/utils/activity-hours.ts:100-164 | without requirements every level is complete at 100%; with them each level carries its requirement and the capped percentage of its current hours, is complete when met, and overall carries the total, its percentage of the summed requirement, and needs both levels |
| ActivityHours.OverallIsBothLevels | frontend/src/lib/utils/activity-hours.ts:154-162 | when the total is the sum of the levels, overall is complete exactly when both levels are, and then its percentage is 100 |
| ActivityHours.FullOverallPercentageNotComplete | frontend/src/lib/utils/activity-hours.ts:138-161 | a 100% overall percentage does not imply completion (20 faculty hours, none university, 10 + 10 required) |
| ActivityHours.GetProgressStatusText | frontend/src/lib/utils/activity-hours.ts:176-202 | complete when overall is complete, in progress with the one-decimal percentage when some hours exist, not started otherwise, with the matching colours |
| ActivityHours.CalculateRemainingHours | frontend/src/lib/utils/activity-hours.ts:207-220 | each remaining figure is the shortfall clamped at zero |
| ActivityHours.RemainingMatchesCompletion | frontend/src/lib/utils/activity-hours.ts:141-220 | a level has nothing remaining exactly when it is complete, and overall completion leaves no total remaining |
| ActivityStatus.ConvertStatusForBackend | src/lib/utils/activity.ts:8-18 | a valid frontend status maps into the backend spellings; any other text comes back unchanged |
| ActivityStatus.ConvertStatusFromBackend | src/lib/utils/activity.ts:25-35 | a backend spelling maps to a valid frontend status; any other text comes back lower-cased |
| ActivityStatus.TablesCorrespond | src/lib/utils/activity.ts:9-15 | the two tables are inverse, entry by entry |
| ActivityStatus.FrontendRoundTrip | src/lib/utils/activity.ts:8-49 | a valid frontend status survives the trip to the backend and back |
| ActivityStatus.BackendRoundTrip | src/lib/utils/activity.ts:8-35 | a backend spelling survives the trip to the frontend and back |
| ActivityStatus.LowerOfBackendIsFrontend | src/lib/utils/activity.ts:25-35 | each backend spelling lower-cases to its frontend spelling, so the table agrees with the fallback |
| ActivityStatus.ForThenFromIsLowercase | src/lib/utils/activity.ts:8-35 | for every text, to the backend and back is lower-casing |
| ActivitySummary.ActivityId | src/lib/utils/activity-summary.ts:79-80 | a record has an activity key exactly when its activity is present with a non-empty id, and the key is that id |
| ActivitySummary.KeptIds | src/lib/utils/activity-summary.ts:76-88 | the deduplicated map holds exactly the ids some record carries, its key order lists each of them once, and records without an id are dropped |
| ActivitySummary.KeptIsLatest | src/lib/utils/activity-summary.ts:78-86 | the record kept for an id is one of its records with the greatest timestamp, and the earliest such record in the history |
| ActivitySummary.LastReplaces | src/lib/utils/activity-summary.ts:82-85 | a newer (or first) record for an id replaces the kept one and is then the latest |
| ActivitySummary.EarlierStays | src/lib/utils/activity-summary.ts:82-85 | a record that is not strictly newer leaves the earlier latest record in place |
| ActivitySummary.CompletedOf | src/lib/utils/activity-summary.ts:91-93 | a record is kept exactly when it is in the input and its status is completed or checked_out |
| ActivitySummary.CompletedKeepsOrder | src/lib/utils/activity-summary.ts:91-93 | each completed record is kept as often as in the input, in input order, and no other record |
| ActivitySummary.AddToTally | src/lib/utils/activity-summary.ts:125-139 | the entry for the added type is a new entry with count 1 and its hours, or the old entry with count one higher and its hours added; every other type's entry is unchanged; count and hours sums rise by one and by the hours |
| ActivitySummary.ByTypeSums | src/lib/utils/activity-summary.ts:121-140 | within a level, the by-type counts sum to its activities and the by-type hours sum to its hours |
| ActivitySummary.TotalCoversLevels | src/lib/utils/activity-summary.ts:109-141 | total hours are at least faculty plus university hours, with equality when every completed activity is at one of those levels |
| ActivitySummary.CompletionRate | src/lib/utils/activity-summary.ts:144-154 | the rate is 0 without kept records and lies in 0..100 |
| ActivitySummary.RateAtMostHundred | src/lib/utils/activity-summary.ts:144-154 | the rounded rate in hundredths never exceeds 100 when completed is at most total |
| ActivitySummary.Deduplicate | src/lib/utils/activity-summary.ts:76-86 | the forEach over the history yields the deduplicated map and its key order |
| ActivitySummary.Tally | src/lib/utils/activity-summary.ts:96-141 | the forEach over the completed records yields the total hours and both level statistics |
| ActivitySummary.CalculateActivitySummary | src/lib/utils/activity-summary.ts:74-156 | the summary of the history: completed at most total, total hours covering both levels, by-type counts summing per level, and an empty history giving zero activities and a zero rate |
| ActivitySummary.CalculatePercentage | src/lib/utils/activity-summary.ts:215-218 | 0 for a zero total, otherwise the nearest whole number to value/total*100, halves rounded up |
| ActivitySummary.FullPercentage | src/lib/utils/activity-summary.ts:215-218 | a value reaching a positive total gives at least 100 |
| ActivitySummary.LevelProgress | src/lib/utils/activity-summary.ts:224-238 | a level carries its current and required hours; the percentage is 0 for no requirement, 100 once met, else the rounded share of current over required; the shortfall is clamped at zero; it passes exactly when the requirement is met, exactly when nothing remains |
| ActivitySummary.CalculateProgress | src/lib/utils/activity-summary.ts:223-256 | both levels as LevelProgress, the overall current and required as sums with the percentage and shortfall LevelProgress gives for them, and overall passing exactly when both levels pass |
| ActivitySummary.OverallRemaining | src/lib/utils/activity-summary.ts:240-249 | overall passing leaves nothing remaining, yet 20 faculty and 0 university hours against 10 + 10 leaves nothing remaining while not passing |
| ActivitySummary.ZeroRequirementShowsZero | src/lib/utils/activity-summary.ts:215-229 | a zero requirement passes while showing 0 percent |
| ActivitySummary.GetProgressColor | src/lib/utils/activity-summary.ts:277-302 | green exactly when passing or at 100 or more, blue at 75 to 99, yellow at 50 to 74, red below 50 |
| ActivitySummary.ColorMonotone | src/lib/utils/activity-summary.ts:277-302 | a higher percentage never gives a worse colour |
| ActivityTracking.FormatParticipantCount | frontend/src/lib/utils/activity-tracking.ts:26-31 | "count/max" when the limit is truthy, the bare count otherwise |
| ActivityTracking.ParticipantCountRoundTrip | frontend/src/lib/utils/activity-tracking.ts:26-31 | the text reads back as the count and, when a limit was shown, the limit |
| ActivityTracking.CalculateParticipationRate | frontend/src/lib/utils/activity-tracking.ts:36-39 | 0 without a truthy limit, otherwise the nearest whole number to count/max*100, halves rounded up |
| ActivityTracking.RateMonotone | frontend/src/lib/utils/activity-tracking.ts:36-39 | for a fixed limit the rate never falls as the count grows |
| ActivityTracking.GetParticipationVariant | frontend/src/lib/utils/activity-tracking.ts:44-53 | outline without a limit; otherwise default at 90 or more, secondary at 70 to 89, outline at 50 to 69, destructive below 50 |
| ActivityTracking.VariantMonotone | frontend/src/lib/utils/activity-tracking.ts:44-53 | for a fixed limit, more participants never give a lower badge in the order destructive, outline, secondary, default |
| ActivityTracking.FormatViewCount | frontend/src/lib/utils/activity-tracking.ts:58-66 | millions with an M suffix, thousands with a K suffix, and counts below 1000 as plain decimal text |
| ActivityTracking.SmallViewCountRoundTrip | frontend/src/lib/utils/activity-tracking.ts:58-66 | a count below 1000 is shown as digits that read back as the count |
| Common.NumberOfString | src/routes/api/admin/activities/+server.ts:33-36 | `Number` on non-empty digit text is the value the digits write, and on blank text 0 |
| Common.NumberOfIntText | src/routes/api/admin/activities/+server.ts:33-36 | `Number` reads the decimal text of any integer back as that integer |
| Common.SignedNumberText | src/routes/api/admin/activities/+server.ts:33-36 | `Number` reads one `+` or `-` before digit text as the sign of the value |
| Common.NumberOfSpaced | src/routes/admin/activities/create/+page.server.ts:49-50 | `Number` ignores a leading space before text that neither starts nor ends with whitespace |
| AdminActivityCreate.NumberOf | src/routes/api/admin/activities/+server.ts:33-36 | `Number` keeps a number and gives NaN for undefined |
| AdminActivityCreate.MissingOf | src/routes/api/admin/activities/+server.ts:16-17 | a key is listed exactly when it is required and its value is missing, falsy or blank once stringified and trimmed |
| AdminActivityCreate.NoneMissing | src/routes/api/admin/activities/+server.ts:17-20 | nothing is missing exactly when every required key has a non-blank value |
| AdminActivityCreate.MissingInOrder | src/routes/api/admin/activities/+server.ts:17-19 | missing keys are reported in declaration order |
| AdminActivityCreate.FirstBlankPrecedes | src/routes/api/admin/activities/+server.ts:17-19 | when the first required key and a later one are both blank, the first is reported before it |
| AdminActivityCreate.TrimmedPieces | src/routes/api/admin/activities/+server.ts:26-29 | a string is kept exactly when it is non-empty and the trim of some piece |
| Common.TrimAll | src/routes/api/admin/activities/+server.ts:28 | the `.map` step: the same number of pieces, each trimmed in its place |
| AdminActivityCreate.TrimmedKeepsOrder | src/routes/api/admin/activities/+server.ts:26-29 | the filter after the trim is a subsequence of the trimmed pieces and keeps each non-empty one as often as it occurs, the empty ones never |
| AdminActivityCreate.EligibleFromString | src/routes/api/admin/activities/+server.ts:23-30 | a string `eligible_organizations` yields the non-empty trimmed pieces: membership both ways, each as often as it occurs, in the order of the pieces |
| AdminActivityCreate.MaxParticipantsOf | src/routes/api/admin/activities/+server.ts:32-34 | undefined, null and blank text give null; any other value gives `Number` of it, so digit text gives the number it writes |
| AdminActivityCreate.HoursOf | src/routes/api/admin/activities/+server.ts:36 | hours are never 0: `Number(hours)` when it is a non-zero number, and 1 for 0 or NaN |
| AdminActivityCreate.CreateActivity | src/routes/api/admin/activities/+server.ts:9-66 | invalid JSON gives 400 first; missing keys give 400 listing them; creation happens exactly when no key is missing and the insert succeeds, and then returns the inserted id; a failed insert gives 500 with the creation-failed message |
| AdminActivityCreate.OrganizationOnlyForOrganizationAdmin | src/routes/api/admin/activities/+server.ts:38-58 | only an OrganizationAdmin's insert carries an organization id, its own; every insert records the caller as creator |
| AdminActivityCreate.EmptyArrayIsMissing | src/routes/api/admin/activities/+server.ts:17 | an empty array value stringifies to "" and so counts as missing |
| AdminActivityCreate.SeparatedArrayIsPresent | src/routes/api/admin/activities/+server.ts:17 | an array of blank strings stringifies to a comma and so counts as present |
| AuthSchemas.FirstLine | src/lib/schemas/auth.ts:86 | the part of the text the regex's `.` can reach: a prefix with no line terminator, stopping just before the first one |
| AuthSchemas.WholeFirstLine | src/lib/schemas/auth.ts:86 | in a text with no line break the lookaheads see the whole text |
| AuthSchemas.FirstLineStopsAtBreak | src/lib/schemas/auth.ts:86 | the lookaheads see only what precedes the first line break |
| AuthSchemas.ClassesMustPrecedeLineBreak | src/lib/schemas/auth.ts:86 | "abc1" followed by a line break and "X" fails the character-class regex, while "Xabc1" passes |
| AuthSchemas.StudentIdIssues | src/lib/schemas/auth.ts:5-9 | no issue exactly when the student id has at least 8 characters, all digits |
| AuthSchemas.EmptyStudentIdIssues | src/lib/schemas/auth.ts:5-9 | an empty student id reports the required, digits and length messages, in that order |
| AuthSchemas.LoginPasswordIssues | src/lib/schemas/auth.ts:10-13 | no issue exactly when the password has at least 6 characters |
| AuthSchemas.EmailIssues | src/lib/schemas/auth.ts:22-25 | no issue exactly when the email is non-empty and well-formed |
| AuthSchemas.NameIssues | src/lib/schemas/auth.ts:64-73 | no issue exactly when a name has 2 to 50 characters |
| AuthSchemas.LoginSchema | src/lib/schemas/auth.ts:4-18 | login parses exactly when the student id is 8 or more digits and the password 6 or more characters; remember_me defaults to false; issues name only the two fields |
| AuthSchemas.AdminLoginSchema | src/lib/schemas/auth.ts:21-34 | admin login parses exactly when the email is non-empty and well-formed and the password 6 or more characters; remember_me defaults to false |
| AuthSchemas.RegisterSchema | src/lib/schemas/auth.ts:57-99 | registration parses exactly when every field rule holds (prefix Mr, Mrs or Miss, names 2 to 50, the three character classes) and the passwords match; a mismatch is reported last, on confirmPassword |
| AuthSchemas.AdminCreateWith | src/lib/schemas/auth.ts:101-149 | parses exactly when no field issue is raised and the refinement does not fire; the refinement fires exactly for the level it names with an empty organization id; permissions default to [] |
| AuthSchemas.AdminCreateSchemaAsWritten | src/lib/schemas/auth.ts:101-149 | the schema as written: it parses exactly when the field checks pass, because the refinement compares against a level the enum does not define |
| AuthSchemas.AdminCreateSchema | src/lib/schemas/auth.ts:101-149 | the corrected schema parses exactly when no field issue is raised and a FacultyAdmin names an organization; a parse keeps email, password, level and organization id |
| AuthSchemas.SampleFieldsPass | src/lib/schemas/auth.ts:101-139 | a sample form passes every field check for any valid level and organization id |
| AuthSchemas.OrganizationRefinementNeverFires | src/lib/schemas/auth.ts:140-149 | a FacultyAdmin without an organization parses as written, is refused by the corrected schema, and a SuperAdmin without one parses |
| AuthSchemas.CorrectedIsStricter | src/lib/schemas/auth.ts:140-149 | the corrected schema accepts only what the written one accepts, and agrees with it for every level other than FacultyAdmin |
| AuthSchemas.SamplePasswordPasses | src/lib/schemas/auth.ts:86 | "Passw0rd" has the letter classes and the digit the regex asks for |
| AuthSchemas.LetterAfterBreakIgnored | src/lib/schemas/auth.ts:86 | a capital letter after a line break does not count toward the regex |
| AuthService.LookupKey | src/lib/server/auth-service.ts:31-35 | the user is looked up by e-mail whenever one is given, by student id otherwise |
| AuthService.PasswordDisabledMeaning | src/lib/server/auth-service.ts:47-51 | a hash is disabled exactly when it is missing, all whitespace or the DISABLED marker |
| AuthService.ConvertAdminLevel | src/lib/server/auth-service.ts:74-86 | no level gives null; super_admin and organization_admin map to SuperAdmin and OrganizationAdmin and only they do; every other level becomes RegularAdmin |
| AuthService.OrganizationLevelUnknownToGuards | src/lib/server/auth-service.ts:79-80 | the OrganizationAdmin level this issues meets no requirement of the server-side level hierarchy |
| AuthService.PermissionsFor | src/lib/server/auth-service.ts:90-120 | the super, organization, other-admin and non-admin permission lists, chosen by the admin row's level |
| AuthService.PermissionCounts | src/lib/server/auth-service.ts:90-120 | 11, 7, 3 and 2 permissions respectively, and ViewPersonalQR exactly for non-admins |
| AuthService.ExpiresInSeconds | src/lib/server/auth-service.ts:123 | 30 days with remember_me, 7 days without, in seconds |
| AuthService.FallbackSessionId | src/lib/server/auth-service.ts:181 | the fallback session id is the first 16 characters of the preliminary token, or all of a shorter one |
| AuthService.Issue | src/lib/server/auth-service.ts:64-213 | the issued result names the user's id, e-mail and student id, expires now plus the lifetime, carries the permission list and an admin role exactly for admins (same permissions, converted level), and holds the session-bearing token or, when session creation fails, the preliminary token with its fallback id |
| AuthService.AuthenticateAndIssueToken | src/lib/server/auth-service.ts:22-214 | a missing password or missing e-mail and student id fails with VALIDATION_ERROR first; an unknown user and a wrong password both fail as Invalid credentials; a disabled hash fails with PASSWORD_DISABLED before verification; success exactly when the hash is enabled and verifies, and then the result is as Issue states |
| ClientAuthStore.AuthStore.constructor | src/lib/stores/auth.ts:28-45 | the store starts in the initial state: no user, not loading, not authenticated, no error, not initialized, and no session check yet |
| ClientAuthStore.AuthStore.Login | src/lib/stores/auth.ts:56-91 | success stores the user, authenticated, not loading, no error, initialized; a throw clears the user and stores the message; an outcome that neither succeeds nor throws leaves isLoading true and the user untouched and answers Login failed |
| ClientAuthStore.AuthStore.Register | src/lib/stores/auth.ts:97-123 | never touches the user or authentication; success clears loading and error, a throw stores the message, and anything else leaves isLoading true and answers Registration failed |
| ClientAuthStore.AuthStore.Logout | src/lib/stores/auth.ts:129-155 | whatever the server says, the state becomes the initial one with isInitialized true, the session-check time is reset to 0, and the redirect target defaults to /login |
| ClientAuthStore.AuthStore.ValidateSession | src/lib/stores/auth.ts:161-219 | records the time in lastSessionCheck; success stores the user as authenticated; a no-session API error clears the user with no error; any other API error keeps the user and stores the message; a network error changes nothing |
| ClientAuthStore.AuthStore.SetUser | src/lib/stores/auth.ts:232-239 | sets the user, authenticated exactly when there is one, and initialized, leaving error and loading alone |
| ClientAuthStore.AuthStore.SetError | src/lib/stores/auth.ts:244-246 | sets the error and nothing else |
| ClientAuthStore.AuthStore.ClearError | src/lib/stores/auth.ts:251-253 | clears the error and nothing else |
| ClientAuthStore.AuthStore.SetLoading | src/lib/stores/auth.ts:258-260 | sets the loading flag and nothing else |
| ClientAuthStore.AuthStore.SetInitialized | src/lib/stores/auth.ts:265-267 | sets the initialized flag and nothing else |
| ClientAuthStore.FacultyId | src/lib/stores/auth.ts:332-335 | the user's faculty id when truthy, else the admin role's, and nothing without a user |
| AuthViews.Levels | src/lib/stores/auth.ts:408 | the client level list is regular, faculty, super, in that order, in either store's spelling |
| AuthViews.Permissions | src/lib/stores/auth.ts:295 | the user's permissions, or none without a user |
| AuthViews.HasAnyPermission | src/lib/stores/auth.ts:304-308 | held exactly when some required permission is held; false for an empty list and without a user |
| AuthViews.HasAllPermissions | src/lib/stores/auth.ts:310-314 | held exactly when every required permission is held; true for an empty list |
| AuthViews.AllImpliesAny | src/lib/stores/auth.ts:304-314 | for a non-empty list, holding all the permissions implies holding one |
| AuthViews.AdminLevel | src/lib/stores/auth.ts:297 | a level exactly when the user has an admin role, and it is that role's |
| AuthViews.RequireAuth | src/lib/stores/auth.ts:374-383 | yields the user exactly when there is one, otherwise throws Authentication required |
| AuthViews.RequirePermission | src/lib/stores/auth.ts:388-396 | passes exactly when the permission is held, otherwise throws naming it |
| AuthViews.RequireAdminLevel | src/lib/stores/auth.ts:401-417 | passes exactly when the user is an admin whose level's index in the list is at least the required level's; otherwise throws the authentication, admin-access or level message in that order |
| AuthViews.PredicatesMatchLevelChecks | frontend/src/lib/stores/auth.ts:320-332 | isFacultyAdmin is the faculty-level requirement, isSuperAdmin the super-level one, and the regular-level requirement admits exactly admins with a listed level |
| AuthViews.ClientOrderIsServerHierarchy | src/lib/stores/auth.ts:401-417 | on the three listed levels, the client index order agrees with the server hierarchy |
| AuthViews.UnlistedRequirementDiffers | src/lib/stores/auth.ts:408-414 | a required level missing from the list is met by everyone on the client, by no one on the server |
| AuthUtils.PermissionsFor | src/lib/server/auth-utils.ts:53-76 | 11 permissions for SuperAdmin, 7 for FacultyAdmin, the 3 scanner permissions for any other admin level, and exactly ViewPersonalQR and ViewPersonalHistory for non-admins |
| AuthUtils.PermissionTiersSeparate | src/lib/server/auth-utils.ts:53-76 | ViewPersonalQR exactly for non-admins, ScanQRCodes exactly for admins of another level, ViewAllUsers exactly for SuperAdmin |
| AuthUtils.GetAuthenticatedUser | src/lib/server/auth-utils.ts:47-98 | null exactly when there is no local user; otherwise its id, student id, e-mail, first and last name and faculty, no department and no organization, the synthetic session id, the permission table, a week's expiry, and an admin role exactly for admins, with its id, the level defaulting to RegularAdmin, the user's faculty, no organization and the same permissions |
| AuthUtils.RoleLevel | src/lib/server/auth-utils.ts:91 | the admin role's level is the stored one when truthy, else RegularAdmin |
| AuthUtils.RequireAuth | src/lib/server/auth-utils.ts:103-112 | passes exactly when there is a user, otherwise redirects to /login with the encoded return path |
| AuthUtils.RequireAdmin | src/lib/server/auth-utils.ts:117-126 | passes exactly for admins; a signed-in non-admin is redirected to /admin/login, an anonymous caller to /login |
| AuthUtils.RequireAdminLevel | src/lib/server/auth-utils.ts:131-142 | passes exactly for admins whose level meets the requirement in the hierarchy; other admins go to /unauthorized |
| AuthUtils.RequirePermission | src/lib/server/auth-utils.ts:147-158 | passes exactly when the permission is in the user's table; a signed-in user without it goes to /unauthorized |
| AuthUtils.RequireSuperAdmin | src/lib/server/auth-utils.ts:176-178 | passes exactly for SuperAdmin admins |
| AuthUtils.RequireFacultyAdmin | src/lib/server/auth-utils.ts:183-192 | passes exactly for admins whose level is SuperAdmin or FacultyAdmin |
| AuthUtils.RequireFacultyAccess | src/lib/server/auth-utils.ts:197-216 | passes exactly for SuperAdmin, or for a FacultyAdmin whose faculty id is the requested one |
| AuthUtils.FacultyAdminIsLevelCheck | src/lib/server/auth-utils.ts:131-192 | requireFacultyAdmin decides exactly as requireAdminLevel at FacultyAdmin |
| AuthUtils.FacultyAccessNeedsFacultyAdmin | src/lib/server/auth-utils.ts:183-216 | access to a faculty implies passing requireFacultyAdmin |
| AuthUtils.SuperAdminReach | src/lib/server/auth-utils.ts:57-216 | a SuperAdmin meets every known level and every faculty, yet lacks the FacultyAdmin-only ManageFacultyActivities permission |
| AuthUtils.UnlistedLevelLockedOut | src/lib/server/auth-utils.ts:69-192 | an admin with a level outside the hierarchy (such as OrganizationAdmin) gets the scanner permissions but fails every level requirement and requireFacultyAdmin |
| FrontendAuth.JwtSecret | src/lib/server/auth-utils.ts:6 | the JWT secret is the environment's when set and non-empty, else the literal fallback |
| FrontendAuth.ValidateJwtToken | src/lib/server/auth-utils.ts:28-41 | the verified payload unless verification fails or its exp second has been reached |
| FrontendAuth.ExpiryCutOff | src/lib/server/auth-utils.ts:33-35 | a token is rejected at exactly exp*1000 ms and accepted one millisecond earlier |
| FrontendAuth.NoExpiryNeverExpires | src/lib/server/auth-utils.ts:33 | a payload without a truthy exp is never rejected for age |
| FrontendAuth.LevelRank | src/lib/server/auth-utils.ts:164-168 | a rank exists exactly for SuperAdmin, FacultyAdmin and RegularAdmin |
| FrontendAuth.HierarchyOrder | src/lib/server/auth-utils.ts:163-171 | the hierarchy is reflexive on the known levels and transitive, SuperAdmin meets every known level, FacultyAdmin meets RegularAdmin but not SuperAdmin |
| FrontendAuth.UnknownLevelNeverMatches | src/lib/server/auth-utils.ts:163-171 | a level outside the table neither meets nor is met by any level |
| FrontendAuth.MissingLevels | src/lib/stores/auth.ts:408-414 | a user level missing from the list fails every listed requirement, and a required level missing from the list is met by everyone |
| FrontendAuth.ListOrder | src/lib/stores/auth.ts:408-414 | on distinct listed levels a later level meets an earlier one and not conversely |
| Hooks.MatchesAnyPublic | src/hooks.server.ts:54-65 | a path is public exactly when some PUBLIC entry matches it: '/' only exactly, other entries the path itself or anything below entry + '/' |
| Hooks.AtOrBelowAny | src/hooks.server.ts:70-74 | a path is under a list exactly when it equals an entry or starts with entry + '/' |
| Hooks.PublicExamples | src/hooks.server.ts:26-65 | '/', '/api' and '/api/x' are public; '/apix' and '/x' are not |
| Hooks.LongEntryMisses | src/hooks.server.ts:57-63 | an entry other than '/' that is not the path and is at least as long cannot match it |
| Hooks.ApixNotPublic | src/hooks.server.ts:54-65 | '/apix' is not public |
| Hooks.ShortPathsArePrivate | src/hooks.server.ts:28-33 | no path of at most four characters other than '/' and '/api' is public |
| Hooks.PublicRulesDisagree | src/hooks.server.ts:54-65 | the hook's public rule refuses '/apix' while the navigation module's plain prefix rule accepts it |
| Hooks.AdminExamples | src/hooks.server.ts:79-90 | '/admin' and '/admin/users' are admin-protected; '/admin/login', its sub-paths and '/administrator' are not |
| Hooks.AdminProtectedIsUnderAdmin | src/hooks.server.ts:79-90 | every admin-protected path starts with '/admin' |
| Hooks.ProtectionsDisjoint | src/hooks.server.ts:36-90 | no path is both admin-protected and student-protected |
| Hooks.CreateRedirectUrl | src/hooks.server.ts:119-122 | the login path, then '?redirectTo=', then the encoded path and search |
| Hooks.Guard | src/hooks.server.ts:163-202 | public paths resolve without redirect; an unauthenticated request to a protected path goes to /admin/login for admin paths and /login otherwise; an authenticated non-admin on an admin path goes to /unauthorized; a resolved request was allowed, and non-public resolutions carry the security headers |
| Hooks.LocalUserOf | src/hooks.server.ts:144-153 | the local user copies the token's id, level and faculty, and is an admin exactly when is_admin is true |
| Hooks.RequestEvent.constructor | src/hooks.server.ts:129-136 | a request starts with its path, search and cookie, and no user |
| Hooks.RequestEvent.Handle | src/hooks.server.ts:128-203 | the user is set exactly when the cookie's token validates; an invalid cookie is deleted and the user stays null; the response is the guard's decision for that user |
| BackendActivities.Published | backend/src/modules/activities/handlers.rs:57 | only and all the Published rows, taken from the table |
| BackendActivities.PublishedKeepsOrder | backend/src/modules/activities/handlers.rs:57 | the Published rows keep the table's order, each as often as the table holds it, and no other row appears |
| BackendActivities.ListActivities | backend/src/modules/activities/handlers.rs:45-66 | an admin caller sees every row; anyone else, including a caller whose token fails, sees only Published rows |
| BackendActivities.NonAdminSeesOnlyPublished | backend/src/modules/activities/handlers.rs:49-58 | for a non-admin, an activity is listed exactly when it is in the table and Published |
| BackendActivities.ProvidedFields | backend/src/modules/activities/handlers.rs:151-156 | at most six provided fields, in the order title, description, location, status, registration_open, max_participants |
| BackendActivities.AssignmentAt | backend/src/modules/activities/handlers.rs:151-156 | the j-th assignment numbered from k names the j-th field and placeholder k + j |
| BackendActivities.BindValueAt | backend/src/modules/activities/handlers.rs:164-169 | the j-th bind is the j-th provided field's value |
| BackendActivities.AssignmentsSnoc | backend/src/modules/activities/handlers.rs:151-156 | one more provided field appends one assignment with the next placeholder |
| BackendActivities.BindValuesSnoc | backend/src/modules/activities/handlers.rs:164-169 | one more provided field appends its value to the binds |
| BackendActivities.PushAssignment | backend/src/modules/activities/handlers.rs:151 | one `i += 1` and push keeps the SET parts equal to updated_at followed by the numbered assignments of the fields seen so far |
| BackendActivities.PushIfProvided | backend/src/modules/activities/handlers.rs:151-156 | a conditional push adds an assignment exactly when the field is provided and keeps i one above the number of assignments |
| BackendActivities.BuildSetParts | backend/src/modules/activities/handlers.rs:148-156 | the SET parts are "updated_at = NOW()" followed by "col = $k" for each provided field, k running from 2 with no gaps |
| BackendActivities.PushBind | backend/src/modules/activities/handlers.rs:164-169 | one conditional bind appends the field's value after the earlier binds |
| BackendActivities.BindProvided | backend/src/modules/activities/handlers.rs:163-169 | the binds are the activity id, then the provided values in field order |
| BackendActivities.BuildUpdate | backend/src/modules/activities/handlers.rs:147-169 | the statement joins the SET parts with ", " inside "UPDATE activities SET … WHERE id = $1", with the binds as BindProvided states |
| BackendActivities.PlaceholdersMatchBinds | backend/src/modules/activities/handlers.rs:148-169 | there are as many binds as SET parts, $1 receives the activity id, and each placeholder $k receives the (k-1)-th provided value |
| BackendActivities.PlaceholdersDistinct | backend/src/modules/activities/handlers.rs:151-156 | distinct assignments carry distinct placeholder numbers |
| BackendActivities.EmptyUpdate | backend/src/modules/activities/handlers.rs:148-160 | with no optional field the statement is exactly "UPDATE activities SET updated_at = NOW() WHERE id = $1" |
| BackendActivities.ApplyUpdate | backend/src/modules/activities/handlers.rs:147-184 | the row after the update: title, description, location, status, registration_open and max_participants each take the provided value or keep their own, updated_at is now, and id, type, dates, times, hours, organizer, creator and academic year are unchanged; an empty update only sets updated_at |
| BackendActivities.ApplyUpdateIdempotent | backend/src/modules/activities/handlers.rs:147-184 | applying the same update twice at the same instant is applying it once |
| BackendActivities.NewActivity | backend/src/modules/activities/handlers.rs:101-125 | a created activity is always Published with registration open, has the new id and the caller as creator, and empty description and location when none are given |
| BackendActivities.ActivityTable.constructor | backend/src/modules/activities/handlers.rs:85-134 | the store starts with the given activities and no participations |
| BackendActivities.ActivityTable.CreateActivity | backend/src/modules/activities/handlers.rs:85-134 | a token failure passes its error and a non-admin gets 403, both with no write; an unparseable user id gives 401; otherwise exactly the new activity is stored under the new id |
| BackendActivities.ActivityTable.UpdateActivity | backend/src/modules/activities/handlers.rs:136-184 | a token failure or a non-admin caller leaves the store alone (403 for the latter); an unknown id gives 404; otherwise exactly that row is replaced by its update |
| BackendActivities.ActivityTable.DeleteActivity | backend/src/modules/activities/handlers.rs:186-203 | a token failure or a non-admin caller leaves activities and registrations alone; otherwise exactly that id is removed and, by the cascade, every registration for it |
| BackendActivities.WithoutActivity | src/lib/server/db/schema.ts:250-252 | exactly the registrations for other activities, in order |
| BackendActivities.CascadeClearsRegistrations | src/lib/server/db/schema.ts:250-252 | after the cascade no user is registered for the deleted activity |
| BackendActivities.ActivityTable.JoinActivity | backend/src/modules/activities/handlers.rs:205-239 | a second registration for the same user and activity gives 409 with no insert; an unknown activity gives 500 with the database message; otherwise one registered participation is appended |
| BackendActivities.JoinTwiceConflicts | backend/src/modules/activities/handlers.rs:215-232 | after a successful join the same user and activity count as registered, so joining again conflicts |
| BackendAuth.FirstSessionValue | backend/src/modules/auth/handlers.rs:42-48 | no value exactly when no trimmed part starts with "session_token="; otherwise the value of the first part that does |
| BackendAuth.FirstSessionValueAt | backend/src/modules/auth/handlers.rs:42-48 | the first session part decides, whatever follows it |
| BackendAuth.ClaimsFromHeaders | backend/src/modules/auth/handlers.rs:28-52 | an unreadable Authorization header is refused; a Bearer header is decided by its token alone; otherwise a missing or unreadable cookie is refused, each with its own 401 message |
| BackendAuth.FirstSessionPartDecides | backend/src/modules/auth/handlers.rs:39-48 | without a Bearer header, the first session_token part of the cookie is the one verified, under the "Invalid or expired session" message |
| BackendAuth.NoSessionPartIsMissing | backend/src/modules/auth/handlers.rs:39-51 | a readable cookie with no session_token part gives 401 "Missing authentication" |
| BackendAuth.BearerIgnoresCookie | backend/src/modules/auth/handlers.rs:30-36 | once a Bearer header is present the cookie has no influence on the outcome |
| BackendAuth.RepeatedBearerPrefix | backend/src/modules/auth/handlers.rs:33 | trim_start_matches strips every leading repetition of "Bearer ", not only the first |
| BackendAuth.GetClaimsFromHeaders | backend/src/modules/auth/handlers.rs:28-52 | the header walk returns exactly the outcome ClaimsFromHeaders describes |
| BackendAuth.SessionLifetime | backend/src/modules/auth/handlers.rs:55 | thirty days in seconds with remember-me, seven days otherwise |
| BackendAuth.BuildCookieAttributes | backend/src/modules/auth/handlers.rs:54-65 | the cookie's name/value pair is session_token=token, followed by HttpOnly, Secure in production only, SameSite=Lax, Path=/, the Max-Age and the Domain when one is configured, in that order |
| BackendAuth.SecureIffProduction | backend/src/modules/auth/handlers.rs:56 | the cookie carries the Secure attribute exactly in production |
| BackendAuth.LookupKeyOf | backend/src/modules/auth/handlers.rs:71-83 | an email is looked up when given, else a student id, and no key exactly when neither is given |
| BackendAuth.FindUser | backend/src/modules/auth/handlers.rs:72-87 | no row exactly when no user matches the key; otherwise a matching user from the table |
| BackendAuth.Authenticate | backend/src/modules/auth/handlers.rs:71-98 | 400 without a key; for the first matching user that is active, success with that user when the password verifies and 500 "Invalid password hash stored" when the hash cannot be read; success only in that case; 401 exactly for no user or a wrong password; 403 exactly when the user found is not active |
| BackendAuth.InactiveBeforePassword | backend/src/modules/auth/handlers.rs:89-97 | an inactive account is refused with 403 whatever the password |
| BackendAuth.EmailTakesPrecedence | backend/src/modules/auth/handlers.rs:71-80 | when an email is given the student id plays no part |
| BackendAuth.EnabledRole | backend/src/modules/auth/handlers.rs:100-104 | none exactly when the user has no enabled admin role; otherwise one of the user's enabled roles |
| BackendAuth.NewSession | backend/src/modules/auth/handlers.rs:107-118 | the session row belongs to the user, is active, and expires thirty or seven days after now depending on remember-me |
| BackendAuth.IssueSession | backend/src/modules/auth/handlers.rs:106-172 | without JWT_SECRET a 500; on success the token's claims share the session's id and expiry, are issued now for the user, mark an admin exactly when an enabled role exists, and the cookie carries the signed token |
| BackendAuth.BumpLoginCount | backend/src/modules/auth/handlers.rs:120-124 | only the logged-in user's login count goes up by one |
| BackendAuth.Deactivate | backend/src/modules/auth/handlers.rs:181-184 | only the named session is marked inactive and no session is added or removed |
| BackendAuth.DeactivateIdempotent | backend/src/modules/auth/handlers.rs:180-185 | logging the same session out twice is logging it out once |
| BackendAuth.DeactivateUser | backend/src/modules/auth/handlers.rs:431-434 | every session of the user, and only those, is marked inactive |
| BackendAuth.SetPasswordHash | backend/src/modules/auth/handlers.rs:419-424 | only the user's password hash is replaced |
| BackendAuth.Database.constructor | backend/src/modules/auth/handlers.rs:67-436 | the store starts with the given users and admin roles and no sessions or reset tokens |
| BackendAuth.Database.LoginHandler | backend/src/modules/auth/handlers.rs:67-174 | a refused login writes nothing; an accepted one inserts the new session and bumps the user's login count, with the result Login describes |
| BackendAuth.Database.LogoutHandler | backend/src/modules/auth/handlers.rs:176-193 | always 200 with the clearing cookie; the session named by valid claims is deactivated, and nothing changes without them |
| BackendAuth.Database.ForgotPasswordHandler | backend/src/modules/auth/handlers.rs:328-386 | always 200 with the same message; a reset token valid for thirty minutes is stored only when the email belongs to a user |
| BackendAuth.Database.ResetPasswordHandler | backend/src/modules/auth/handlers.rs:388-436 | an unknown token changes nothing; an expired one is deleted with 400; a valid one sets the new hash, deletes the token and deactivates all the user's sessions |
| BackendAuth.ResetRevokesAllSessions | backend/src/modules/auth/handlers.rs:431-434 | after a reset no session of that user remains active |
| BackendModels.VerifyToken | backend/src/modules/auth/handlers.rs:17-26 | 500 without JWT_SECRET, 401 when the token does not decode under it, otherwise exactly the decoded claims |
| BackendQr.ScanSecret | backend/src/modules/qr/handlers.rs:45 | the configured JWT_SECRET, or "secret" when none is set |
| BackendQr.ScanClaimsFor | backend/src/modules/qr/handlers.rs:31-43 | the scan token names the caller and the caller's session, is issued now and lives exactly three minutes |
| BackendQr.GenerateQr | backend/src/modules/qr/handlers.rs:24-59 | a header failure becomes 401 "Unauthorized: " plus its message; otherwise success exactly when signing succeeds, and then the reply carries the token id, the caller, the signed scan token and an expiry three minutes from now |
| BackendQr.ScanExpiryIgnoresSessionExpiry | backend/src/modules/qr/handlers.rs:37-43 | the scan token's lifetime does not depend on the session token's expiry |
| BackendQr.FallbackSecretUnreachable | backend/src/modules/qr/handlers.rs:28-45 | without JWT_SECRET the request is already refused with 401 by the header check, so the "secret" fallback never signs anything |
| Base64.Encode | src/routes/api/qr/generate/+server.ts:25 | the text has a length divisible by four and is empty exactly when the input is |
| Base64.EncodedLength | src/routes/api/qr/generate/+server.ts:25 | four characters for every started group of three bytes |
| Base64.DecodeEncode | src/routes/api/qr/generate/+server.ts:25 | decoding the encoding gives the bytes back |
| Base64.EncodeDecode | src/routes/api/qr/generate/+server.ts:25 | every text the strict decoder accepts is the encoding of what it decodes to |
| Base64.Btoa | src/routes/api/qr/generate/+server.ts:25 | btoa succeeds exactly when every character is below 256 |
| Base64.AtobBtoa | src/routes/api/qr/generate/+server.ts:25 | atob undoes btoa on every text btoa accepts |
| QrGenerate.EscapeLatin1 | src/routes/api/qr/generate/+server.ts:25 | JSON string escaping keeps text within U+00FF, so it cannot be what makes btoa throw |
| QrGenerate.PayloadJsonLatin1 | src/routes/api/qr/generate/+server.ts:19-25 | the payload's JSON is within U+00FF whenever the user id and session id are |
| QrGenerate.HexOf | src/routes/api/qr/generate/+server.ts:6 | two lower-case hex digits per byte |
| QrGenerate.Generate | src/routes/api/qr/generate/+server.ts:8-45 | no user gives 401 NO_SESSION; a QR code belongs to the user, is created now, expires five minutes later, is active with no uses, and its qr_data is btoa of the payload's JSON; a user whose ids are within U+00FF always gets one |
| QrGenerate.Base64Json | src/routes/api/qr/generate/+server.ts:25-44 | the 500 of the catch happens only when the JSON has a character above U+00FF; otherwise the reply carries its btoa |
| QrGenerate.QrDataDecodes | src/routes/api/qr/generate/+server.ts:19-25 | decoding a returned qr_data gives back the JSON of the payload with uid, sid, ts and an exp five minutes on |
| ChangePassword.PasswordIssues | src/routes/api/student/profile/change-password/+server.ts:23-36 | no issue exactly when the current password is non-empty, the new one has 8 to 128 characters on one line with a letter and a digit, and the confirmation matches; a mismatch always ends the list with the confirm_password issue |
| ChangePassword.NewPasswordExamples | src/routes/api/student/profile/change-password/+server.ts:28-31 | "password1" passes the letter-and-digit rule, "password" fails it, and a line break defeats it |
| ChangePassword.UpdatePasswordRows | src/routes/api/student/profile/change-password/+server.ts:129-138 | only the caller's row gets the new hash and update time |
| ChangePassword.Post | src/routes/api/student/profile/change-password/+server.ts:41-154 | the handler's reply and the table afterwards are exactly the outcome ChangeOutcome prescribes for the old table |
| ChangePassword.WrittenOnlyAfterEveryCheck | src/routes/api/student/profile/change-password/+server.ts:41-138 | the table changes only after a present and valid session, a body that passes the schema, a found user and a matching current password |
| ChangePassword.ChangeTouchesOnlyCaller | src/routes/api/student/profile/change-password/+server.ts:128-143 | a successful change rewrites exactly the caller's row with the hash of the new password |
| ChangePassword.WrongPasswordNoWrite | src/routes/api/student/profile/change-password/+server.ts:108-126 | a wrong current password gives 400 INVALID_PASSWORD with a field error on current_password only and writes nothing |
| ChangePassword.SchemaBeforeStore | src/routes/api/student/profile/change-password/+server.ts:68-90 | a mismatched confirmation gives VALIDATION_ERROR naming confirm_password, whatever the store holds |
| ChangePassword.SessionCheckedFirst | src/routes/api/student/profile/change-password/+server.ts:43-63 | without a session token 401 NO_SESSION, with one that fails verification 401 INVALID_SESSION, and nothing written |
| FieldErrors.MessagesAt | src/routes/api/student/profile/+server.ts:205-211 | a field's list is empty exactly when no issue has that path |
| FieldErrors.FirstSeen | src/routes/api/student/profile/+server.ts:204-211 | each field that has an issue appears once and no other field appears |
| FieldErrors.CollectFieldErrors | src/routes/api/student/profile/+server.ts:204-211 | the loop builds exactly the grouping of the issues by path, fields in order of first appearance |
| FieldErrors.NoMessageLost | src/routes/api/student/profile/+server.ts:204-211 | the lists together hold as many messages as there were issues |
| FieldErrors.ListedIffReported | src/routes/api/student/profile/+server.ts:204-211 | a field is a key exactly when some issue has that path, and then its list is non-empty |
| FieldErrors.MessagesInOrder | src/routes/api/student/profile/+server.ts:205-211 | two issues on the same field keep their relative order in that field's list |
| FieldErrors.MessageIndex | src/routes/api/student/profile/+server.ts:205-211 | every issue's message is found in its field's list |
| UserStore.FindById | src/routes/api/student/profile/+server.ts:229 | none exactly when no row has the id; otherwise the first row with that id |
| UserStore.FindByEmail | src/routes/api/student/profile/+server.ts:243-247 | none exactly when no row has the email; otherwise a row of the table with that email |
| UserStore.UserTable.constructor | src/routes/api/student/profile/+server.ts:229 | the table starts with the given rows |
| StudentProfile.DigitsOnly | src/routes/api/student/profile/+server.ts:38 | only digits remain, never more characters than the input had, and an all-digit text is unchanged |
| StudentProfile.DigitsOnlyKeepsEveryDigit | src/routes/api/student/profile/+server.ts:38 | every digit of the input is kept as often as it occurs, in input order, and no other character |
| StudentProfile.SeparatorsIgnored | src/routes/api/student/profile/+server.ts:38 | a dash between two digit runs is dropped and the digits kept in order |
| StudentProfile.DashedPhoneAccepted | src/routes/api/student/profile/+server.ts:34-39 | "081-2345678" passes the phone rule |
| StudentProfile.DashedNumberAccepted | src/routes/api/student/profile/+server.ts:34-39 | ten digits starting with 0 pass however one dash splits them |
| StudentProfile.ShortPhoneRefused | src/routes/api/student/profile/+server.ts:34-39 | "12345" fails the phone rule |
| StudentProfile.BlankPhoneAccepted | src/routes/api/student/profile/+server.ts:34-35 | an absent phone and an all-blank one both pass |
| StudentProfile.ProfileIssuesIffInvalid | src/routes/api/student/profile/+server.ts:24-41 | the schema reports no issue exactly when the prefix is a listed option, both names have 1 to 100 characters, the email is valid and at most 255 characters, the phone passes and the address is at most 500 characters |
| StudentProfile.Stored | src/routes/api/student/profile/+server.ts:270-271 | null exactly when the value is absent or blank; otherwise its trimmed, non-empty text |
| StudentProfile.UpdateProfileRows | src/routes/api/student/profile/+server.ts:264-290 | only the caller's row takes the new names, email, trimmed phone and address, and update time |
| StudentProfile.Patch | src/routes/api/student/profile/+server.ts:174-317 | the handler's reply and the table afterwards are exactly the outcome PatchOutcome prescribes for the old table |
| StudentProfile.SessionCheckedFirst | src/routes/api/student/profile/+server.ts:176-196 | no token gives NO_SESSION and a token that fails verification gives 401 INVALID_SESSION, whatever the body |
| StudentProfile.OnlyTheCallerChanges | src/routes/api/student/profile/+server.ts:174-306 | a failure writes nothing; a success follows a valid session and body, leaves every other row alone and keeps the caller's password hash |
| StudentProfile.ValidationErrorsGrouped | src/routes/api/student/profile/+server.ts:202-224 | an invalid body gives 400 VALIDATION_ERROR whose non-empty field errors hold every issue of the schema |
| StudentProfile.EmailTakenOnlyByOthers | src/routes/api/student/profile/+server.ts:241-262 | EMAIL_TAKEN exactly when the email changes and another user already has it |
| NavRoutes.HasRoutePermission | src/lib/navigation/routes.ts:190-210 | a route with admin levels refuses a caller with no level or an unlisted one; past that, a route with no permissions admits everyone and otherwise exactly callers holding one of its permissions |
| NavRoutes.FilterRoutes | src/lib/navigation/routes.ts:212-226 | a route is kept exactly when it is a permitted input route, rebuilt with its children filtered the same way, that is not a parent left with no children; never more routes than given |
| NavRoutes.FilterOne | src/lib/navigation/routes.ts:219-224 | a route keeps every field but its children, and has children exactly when the original had them |
| NavRoutes.FilterIdempotent | src/lib/navigation/routes.ts:212-226 | filtering an already filtered table changes nothing |
| NavRoutes.Shells | src/lib/navigation/routes.ts:219-224 | each route with its children removed, position by position |
| NavRoutes.FilterKeepsOrder | src/lib/navigation/routes.ts:217-225 | the kept routes appear in their original order |
| NavRoutes.ToNavItems | src/lib/navigation/routes.ts:236-248 | one menu item per route, the k-th converted from the k-th route |
| NavRoutes.ItemsOfRoutes | src/lib/navigation/routes.ts:236-248 | an item is in the converted list exactly when it is the conversion of some route |
| NavRoutes.MenuRoutes | src/lib/navigation/routes.ts:235 | exactly the routes other than "/" whose path does not contain login, register or unauthorized, as a subsequence of the table |
| NavRoutes.MenuKeepsCounts | src/lib/navigation/routes.ts:235 | each menu route is kept as often as the table lists it, and no other route |
| NavRoutes.GetNavigationItems | src/lib/navigation/routes.ts:228-237 | every item points at a menu path |
| NavRoutes.NavigationItemsExactly | src/lib/navigation/routes.ts:228-237 | an item is produced exactly when it converts a route the filter keeps whose path is a menu path |
| NavRoutes.MenuItemsOf | src/lib/navigation/routes.ts:234-236 | the items of the menu routes of any list are exactly the conversions of its routes with menu paths |
| NavRoutes.RequiresAuthentication | src/lib/navigation/routes.ts:251-267 | authentication is needed exactly off the four public paths and the /api, /_app and /favicon prefixes |
| NavRoutes.PublicRouteExamples | src/lib/navigation/routes.ts:251-263 | "/apix" is public by prefix while "/login/" and "/dashboard" are not |
| NavRoutes.FindWithPath | src/lib/navigation/routes.ts:286 | a found route has the path and comes from the list |
| NavRoutes.FindWithPathFirst | src/lib/navigation/routes.ts:286 | nothing is found exactly when no route has the path; a found route is the first that has it |
| NavRoutes.FindRoute | src/lib/navigation/routes.ts:279-294 | a found route has the path asked for |
| NavRoutes.FindRouteIsFirstCandidate | src/lib/navigation/routes.ts:279-294 | the lookup returns the first match in the order top-level route, then its children, then the next route |
| NavRoutes.FindRouteByPath | src/lib/navigation/routes.ts:279-294 | the loop returns what FindRoute describes |
| NavRoutes.GetRequiredPermissions | src/lib/navigation/routes.ts:269-272 | the found route's permissions, or none for an unknown path |
| NavRoutes.GetRequiredAdminLevels | src/lib/navigation/routes.ts:274-277 | the found route's admin levels, or none for an unknown path |
| NavRoutes.NonEmpty | src/lib/navigation/routes.ts:299 | exactly the non-empty segments, as a subsequence of the pieces |
| NavRoutes.NonEmptyKeepsCounts | src/lib/navigation/routes.ts:299 | each non-empty segment is kept as often as it occurs, the empty ones never |
| NavRoutes.GetBreadcrumbs | src/lib/navigation/routes.ts:297-318 | the loop returns one crumb per segment prefix that names a route, in CrumbsFrom's order |
| NavRoutes.CrumbsBound | src/lib/navigation/routes.ts:302-315 | at most one crumb per path segment |
| NavRoutes.CrumbsOrdered | src/lib/navigation/routes.ts:302-315 | each crumb lies below the starting prefix, and every later crumb's path strictly extends the earlier ones |
| NavRoutes.SpelledExtends | src/lib/navigation/routes.ts:303 | the path rebuilt from the segments extends its starting prefix |
| NavRoutes.CrumbsArePrefixes | src/lib/navigation/routes.ts:302-315 | every crumb's path is a prefix of the full path rebuilt from the segments |
| NavRoutes.PermissionRouter.CanAccess | src/lib/navigation/routes.ts:327-332 | an unknown path is refused; a known one exactly when its route is permitted to this router's user |
| NavRoutes.PermissionRouter.GetDefaultRoute | src/lib/navigation/routes.ts:334-344 | the system dashboard for SuperAdmin, the organization dashboard for FacultyAdmin, the scanner for RegularAdmin, the student dashboard otherwise |
| NavRoutes.PermissionRouter.GetAvailableRoutes | src/lib/navigation/routes.ts:346-348 | exactly the filtered router table for this router's permissions and level |
| NavRoutes.PermissionRouter.NavigationItems | src/lib/navigation/routes.ts:350-352 | exactly the items converted from available routes with menu paths |
| NavRoutes.NoLevelNoAdminRoutes | src/lib/navigation/routes.ts:9-187 | a caller with no admin level keeps no route that lists admin levels |
| QrStatus.CategoryTable | src/lib/utils/qr-status.ts:81-353 | repeated check-ins and check-outs count as success, a completed participation as a flow violation, missing check-ins and expired codes as restricted, unknown students and invalid codes as errors |
| QrStatus.MapApiErrorToStatusCode | src/lib/utils/qr-status.ts:358-397 | an API error never maps to one of the two success codes |
| QrStatus.MapIsIdentity | src/lib/utils/qr-status.ts:358-397 | every status code other than the two success codes maps to itself |
| QrStatus.RepeatedCodesAreIdentity | src/lib/utils/qr-status.ts:363-366 | the four already-done codes map to themselves |
| QrStatus.TimingCodesAreIdentity | src/lib/utils/qr-status.ts:369-373 | the faculty and activity-timing codes map to themselves |
| QrStatus.EntryCodesAreIdentity | src/lib/utils/qr-status.ts:374-377 | the capacity and not-checked-in codes map to themselves |
| QrStatus.StateCodesAreIdentity | src/lib/utils/qr-status.ts:378-381 | the inactive-account, expired-QR and checkout-status codes map to themselves |
| QrStatus.NotFoundCodesAreIdentity | src/lib/utils/qr-status.ts:385-387 | the activity and student not-found codes map to themselves |
| QrStatus.LookupCodesAreIdentity | src/lib/utils/qr-status.ts:388-389 | the invalid-QR and department-not-found codes map to themselves |
| QrStatus.AccountCodesAreIdentity | src/lib/utils/qr-status.ts:390-391 | the no-department and auth codes map to themselves |
| QrStatus.ErrorCodesAreIdentity | src/lib/utils/qr-status.ts:392-393 | the validation and internal codes map to themselves |
| QrStatus.SuccessCodesFallBack | src/lib/utils/qr-status.ts:358-397 | the two success codes are missing from the table and fall back to INTERNAL_ERROR |
| QrStatus.SuccessCodeFallsBack | src/lib/utils/qr-status.ts:358-397 | either success code passed as an error code becomes INTERNAL_ERROR |
| QrStatus.Aliases | src/lib/utils/qr-status.ts:358-397 | the short backend spellings NOT_ONGOING, NOT_REGISTERED, INVALID_STATUS, NOT_FOUND and USER_NOT_FOUND map to their status codes |
| QrStatus.UnknownIsInternal | src/lib/utils/qr-status.ts:396 | any name outside the table becomes INTERNAL_ERROR |
| QrStatus.MapIdempotent | src/lib/utils/qr-status.ts:358-397 | mapping the name of a mapped code gives the same code |
| QrStatus.ProcessQRScanResult | src/lib/utils/qr-status.ts:526-551 | success exactly when the API said so, then category success with the API's data; otherwise the mapped code, its configured category and the fallback message, with no data and the API's details |
| QrStatus.ErrorMessageFallback | src/lib/utils/qr-status.ts:541-545 | a failure's message is the error's message, else the top-level message, else the generic failure text |
| QrStatus.FailureIsNeverSuccessCode | src/lib/utils/qr-status.ts:535-547 | a failed scan never carries a success status code |
| QrStatus.ActivityStatusText | src/lib/utils/qr-status.ts:500-509 | the five activity statuses are translated and any other text is shown unchanged |
| QrStatus.UserStatusText | src/lib/utils/qr-status.ts:514-521 | the three account states are translated and any other text is shown unchanged |
| QrStatus.FormatStatusDetails | src/lib/utils/qr-status.ts:443-477 | no details give no lines; otherwise exactly the candidate lines whose field is present, in push order |
| QrStatus.DetailLineCount | src/lib/utils/qr-status.ts:443-477 | one line per present field, and none when every field is absent |
| ServerAuth.ExtractUser | src/lib/server/auth.ts:39 | the response's user, else its data, else its session's user, and none exactly when all three are missing |
| ServerAuth.RequireAuth | src/lib/server/auth.ts:15-54 | a user exactly when a session cookie exists and the /me response yields one; every refusal redirects with 303 to /login carrying the encoded path, and the cookie is deleted exactly when it existed but was refused |
| ServerAuth.RequireAdmin | src/lib/server/auth.ts:59-98 | a user exactly when the session's /me user has an admin role; refusals redirect to /admin/login, deleting an existing cookie |
| ServerAuth.AdminLevelCheck | src/lib/server/auth.ts:109-113 | the admin passes exactly when the hierarchy ranks the level at or above the one required; otherwise 303 to /unauthorized |
| ServerAuth.PermissionCheck | src/lib/server/auth.ts:125-129 | the admin passes exactly when the role lists the permission; otherwise 303 to /unauthorized |
| ServerAuth.FacultyAdminCheck | src/lib/server/auth.ts:142-151 | only SuperAdmin and FacultyAdmin pass; otherwise 303 to /unauthorized |
| ServerAuth.FacultyAccessCheck | src/lib/server/auth.ts:156-175 | a SuperAdmin always passes, a FacultyAdmin only for its own faculty, anyone else is sent to /unauthorized |
| ServerAuth.RequireAdminLevel | src/lib/server/auth.ts:103-114 | a user exactly when requireAdmin admits one whose level is high enough; an admitted admin of too low a level is sent to /unauthorized without losing the cookie |
| ServerAuth.FacultyAdminIsLevelCheck | src/lib/server/auth.ts:142-151 | the faculty-admin gate is the level check against FacultyAdmin |
| ServerAuth.FacultyAccessBounds | src/lib/server/auth.ts:156-175 | faculty access implies passing the faculty-admin gate, a SuperAdmin reaches every faculty, and a FacultyAdmin reaches only one |
| ServerAuth.GetAuthUser | src/lib/server/auth.ts:193-227 | a user exactly when a session cookie exists and /me yields one; the cookie is deleted exactly when it existed and no user came back |
| ServerAuth.OptionalAgreesWithRequired | src/lib/server/auth.ts:15-227 | getAuthUser yields a user exactly when requireAuth admits, the same user, and deletes the cookie in the same cases |
| ServerAuth.Logout | src/lib/server/auth.ts:232-251 | the backend is told only when a session cookie exists, and the cookie is always deleted |
| SessionTracker.ActivityTracker.constructor | src/lib/activity-tracker.ts:10-20 | a fresh tracker records now as the last activity, is not tracking and has no refresh pending |
| SessionTracker.ActivityTracker.UpdateActivity | src/lib/activity-tracker.ts:42-48 | activity records now and starts tracking, scheduling a refresh thirty minutes on only when tracking was off |
| SessionTracker.ActivityTracker.StartTracking | src/lib/activity-tracker.ts:50-55 | a second start changes nothing; a first start tracks and schedules a refresh thirty minutes on |
| SessionTracker.ActivityTracker.StopTracking | src/lib/activity-tracker.ts:57-64 | tracking stops and no refresh stays pending |
| SessionTracker.ActivityTracker.ScheduleRefresh | src/lib/activity-tracker.ts:66-74 | the pending refresh is replaced by one thirty minutes on, and nothing else changes |
| SessionTracker.ActivityTracker.CheckAndRefresh | src/lib/activity-tracker.ts:76-100 | as written: off, nothing happens; idle over five minutes, tracking stops; otherwise a refresh is scheduled again, but tracking continues only if the refresh succeeded |
| SessionTracker.ActivityTracker.CheckAndRefreshCorrected | src/lib/activity-tracker.ts:76-100 | as intended: a refresh stays scheduled only while tracking, so an idle user or a failed refresh leaves the tracker stopped with nothing pending |
| SessionTracker.ActivityTracker.IsUserActive | src/lib/activity-tracker.ts:106-109 | active exactly when at most five minutes have passed since the last activity |
| SessionTracker.FailedRefreshKeepsTimer | src/lib/activity-tracker.ts:88-99 | an active user's failed refresh leaves the tracker stopped yet with a refresh pending |
| FrontendSessionTracker.ActivityTracker.constructor | frontend/src/lib/activity-tracker.ts:13-26 | a fresh tracker records now as the last activity, is not tracking and has no check pending |
| FrontendSessionTracker.ActivityTracker.OnUserActivity | frontend/src/lib/activity-tracker.ts:41-47 | activity records now and starts tracking, scheduling a check thirty minutes on only when tracking was off |
| FrontendSessionTracker.ActivityTracker.OnVisibilityChange | frontend/src/lib/activity-tracker.ts:35-38 | a tab becoming visible counts as activity; becoming hidden changes nothing |
| FrontendSessionTracker.ActivityTracker.StartTracking | frontend/src/lib/activity-tracker.ts:49-53 | a second start changes nothing; a first start tracks and schedules a check thirty minutes on |
| FrontendSessionTracker.ActivityTracker.StopTracking | frontend/src/lib/activity-tracker.ts:55-61 | tracking stops and no check stays pending |
| FrontendSessionTracker.ActivityTracker.ScheduleCheck | frontend/src/lib/activity-tracker.ts:63-66 | the pending check is replaced by one thirty minutes on, and nothing else changes |
| FrontendSessionTracker.ActivityTracker.RunCheck | frontend/src/lib/activity-tracker.ts:68-96 | logout is requested exactly when a tracking, active user's check is rejected with 401 or 403; idle over an hour stops tracking; any other outcome, a network failure included, schedules the next check |
| FrontendSessionTracker.ActivityTracker.IsUserActive | frontend/src/lib/activity-tracker.ts:98-100 | active exactly when at most an hour has passed since the last activity |
| FrontendSessionTracker.LogoutLeavesTrackerIdle | frontend/src/lib/activity-tracker.ts:83-96 | after a rejected check the tracker still counts as tracking, so later activity schedules no new check |
| FrontendAuthStore.ThrownMessage | frontend/src/lib/stores/auth.ts:74 | an ApiError's non-empty message, otherwise the fallback text |
| FrontendAuthStore.FormatLoginError | frontend/src/lib/stores/auth.ts:75-98 | text that is not JSON is shown as is; JSON yields its error field, else its message field, else the raw text |
| FrontendAuthStore.LoginErrorNonEmpty | frontend/src/lib/stores/auth.ts:73-98 | a failed login always leaves a non-empty error message |
| FrontendAuthStore.AuthStore.constructor | frontend/src/lib/stores/auth.ts:28-45 | the initial state: no user, not loading, not authenticated, no error, not initialized, no session check yet |
| FrontendAuthStore.AuthStore.Login | frontend/src/lib/stores/auth.ts:56-100 | a successful login stores the user with no error; a failed one clears the user and stores the formatted message; either way loading ends and the store is initialized |
| FrontendAuthStore.AuthStore.Register | frontend/src/lib/stores/auth.ts:106-127 | registration never signs the user in; a failure stores ThrownMessage's text as the error and loading ends |
| FrontendAuthStore.AuthStore.Logout | frontend/src/lib/stores/auth.ts:134-160 | the state returns to the initial one but marked initialized, the session check time resets, and the target is the given path or "/" |
| FrontendAuthStore.AuthStore.ValidateSession | frontend/src/lib/stores/auth.ts:166-223 | the time is recorded in lastSessionCheck; a user from /me signs in; 401 or 403 signs out silently; another API error keeps the user and records its message; a network error changes nothing; only a success returns a user |
| FrontendAuthStore.AuthStore.SetUser | frontend/src/lib/stores/auth.ts:236-243 | the user is stored, authenticated exactly when present, and the store initialized |
| FrontendAuthStore.AuthStore.SetError | frontend/src/lib/stores/auth.ts:248-250 | only the error changes |
| FrontendAuthStore.AuthStore.ClearError | frontend/src/lib/stores/auth.ts:255-257 | only the error is cleared |
| FrontendAuthStore.AuthStore.SetLoading | frontend/src/lib/stores/auth.ts:262-264 | only the loading flag changes |
| FrontendAuthStore.AuthStore.SetInitialized | frontend/src/lib/stores/auth.ts:269-271 | only the initialized flag changes |
| FrontendAuthStore.OrganizationId | frontend/src/lib/stores/auth.ts:334-337 | the user's organization id when truthy, else the admin role's, and none without a user |
| FrontendAuthStore.SnakeOrder | frontend/src/lib/stores/auth.ts:416-420 | the snake-case list ranks super_admin over organization_admin over regular_admin, and a PascalCase level meets none of them |
| ThaiDate.ToBuddhistEra | src/lib/utils/thai-date.ts:49-51 | the Buddhist-era year is 543 ahead of the Gregorian one |
| ThaiDate.FromBuddhistEra | src/lib/utils/thai-date.ts:58-60 | the Gregorian year is 543 behind the Buddhist-era one |
| ThaiDate.EraRoundTrip | src/lib/utils/thai-date.ts:49-60 | the two conversions undo each other in both orders |
| ThaiDate.MonthNames | src/lib/utils/thai-date.ts:11-42 | twelve names in either format |
| ThaiDate.FormatThaiMonth | src/lib/utils/thai-date.ts:85-92 | a name exactly for indices 0 to 11, the one at that index; any other index is the thrown range error |
| ThaiDate.FormatThaiYear | src/lib/utils/thai-date.ts:99-101 | the Buddhist-era year after the "พ.ศ. " label |
| ThaiDate.ThaiYearRoundTrip | src/lib/utils/thai-date.ts:99-101 | from 543 BCE on, reading the label back gives the Gregorian year |
| ThaiDate.FormatThaiDate | src/lib/utils/thai-date.ts:68-77 | the day, the month's name in the chosen format and the Buddhist-era year, separated by single spaces |
| ThaiDate.GetThaiMonthOptions | src/lib/utils/thai-date.ts:108-115 | twelve options valued 1 to 12, each labelled with the name of month value - 1 |
| ThaiDate.YearOptions | src/lib/utils/thai-date.ts:123-134 | one option per year from start to end inclusive, none when the range is empty |
| ThaiDate.GetThaiYearOptions | src/lib/utils/thai-date.ts:123-134 | the loop yields the options in year order, each valued by its Gregorian year and labelled with digits that convert back to it |
| ThaiDate.DayPart | src/lib/utils/thai-date.ts:176-181 | the day text always starts with a digit |
| ThaiDate.YearPart | src/lib/utils/thai-date.ts:194-207 | the year text always ends with a digit |
| ThaiDate.FormatDate | src/lib/utils/thai-date.ts:152-210 | appending the day, month and year parts step by step and trimming gives exactly the text Format describes |
| ThaiDate.FormatUntrimmed | src/lib/utils/thai-date.ts:166-209 | with the defaults filled in, the formatted date is the day, month and year parts with nothing for trim to remove |
| ThaiDate.DefaultFormatIsLongDateWithEra | src/lib/utils/thai-date.ts:166-209 | with no options the formatter prints the day, the full month name and the labelled Buddhist-era year |
| ThaiDate.DefaultFormatLongerThanThaiDate | src/lib/utils/thai-date.ts:68-209 | the default formatter's text is formatThaiDate's long text plus exactly the era label |
| ThaiDate.NumericFormatText | src/lib/utils/thai-date.ts:177-205 | numeric day and month without era give "day/month year" with a one-based month and the Gregorian year |
| ThaiDate.NumericFormatRoundTrip | src/lib/utils/thai-date.ts:177-205 | the numeric, era-less text can be read back to the same day, month index and year |
| UpdateStatuses.ComputeStatus | src/routes/api/admin/activities/update-statuses/+server.ts:7-15 | published exactly before the start, ongoing exactly from the start through the end, completed exactly after the end |
| UpdateStatuses.StatusOnlyAdvances | src/routes/api/admin/activities/update-statuses/+server.ts:7-15 | as the clock moves forward a status never moves back along published, ongoing, completed |
| UpdateStatuses.Scope | src/routes/api/admin/activities/update-statuses/+server.ts:21-24 | the rows are narrowed to one organization exactly when the caller is an OrganizationAdmin naming one |
| UpdateStatuses.Selected | src/routes/api/admin/activities/update-statuses/+server.ts:26-35 | a row is selected exactly when it is in the table and in the scope |
| UpdateStatuses.SelectedKeepsOrder | src/routes/api/admin/activities/update-statuses/+server.ts:26-35 | the selection holds each scoped row as often as the table does, in table order |
| UpdateStatuses.Target | src/routes/api/admin/activities/update-statuses/+server.ts:40-46 | a row is recomputed exactly when it has both dates and is neither cancelled nor draft, and then gets computeStatus of its dates |
| UpdateStatuses.WritesFor | src/routes/api/admin/activities/update-statuses/+server.ts:39-54 | never more writes than rows |
| UpdateStatuses.Updated | src/routes/api/admin/activities/update-statuses/+server.ts:47-51 | a row with a target status gets exactly that status and nothing else changes; a skipped row is unchanged |
| UpdateStatuses.AfterRun | src/routes/api/admin/activities/update-statuses/+server.ts:39-54 | each row as the loop leaves it |
| UpdateStatuses.SecondRunWritesNothing | src/routes/api/admin/activities/update-statuses/+server.ts:39-54 | running the update again at the same instant issues no write |
| UpdateStatuses.WritesAreChanges | src/routes/api/admin/activities/update-statuses/+server.ts:47-52 | every write targets a row it applies to and sets the status the dates call for, which differs from the stored one |
| UpdateStatuses.WritesForStep | src/routes/api/admin/activities/update-statuses/+server.ts:39-54 | each row adds its write after the earlier rows' writes, and only when its status changes |
| UpdateStatuses.UpdateStatuses | src/routes/api/admin/activities/update-statuses/+server.ts:17-56 | the loop issues exactly the writes WritesFor describes for the selected rows and reports their number as updated |

## Left out

- Check-in and check-out: `backend/src/main.rs` routes `/activities/:id/checkin` and `/checkout`, but their handlers are not part of `backend/src/modules/qr/handlers.rs`. Their state machine is not part of this model.
- The Rust files `backend/src/auth.rs`, `backend/src/activities.rs` and `backend/src/organizations.rs` are not modelled. They are never compiled, because `backend/src/main.rs` declares only `models` and `modules`.
- Database failures are not modelled. Every query succeeds, so the 500 replies built from SQL errors are not produced. The exceptions are the failed participation insert in `join_activity` and the failed activity insert of the SvelteKit `POST /api/admin/activities`, which are modelled. Of the foreign keys, only the cascade from activities to their participations (src/lib/server/db/schema.ts:252) is modelled, in `delete_activity`.
- JWT signing and verification, Argon2 hashing, UUID generation and random bytes are not modelled. Each is a parameter: a function, a given outcome, or a given value.
- Email syntax is not modelled. zod's email check is the parameter `isEmail`.
- The JSON parser in the client login error is the parameter `parse`.
- Floating point is not modelled. The activity-hours percentages are exact rationals, and `completionRate` is `Math.round` to two decimals computed exactly, without binary rounding error. `toFixed` and `toISOString` are left out, and timestamps stay as numbers.
- Timers and asynchrony are not modelled. The trackers' pending `setTimeout` is modelled only as the time it would fire, and event listeners and the `browser` check are left out.
- The 500 ms de-duplication of concurrent `validateSession` calls is not modelled, and neither is the 100 ms reset of `sessionValidationPromise`. Only `lastSessionCheck` is kept.
- Strings are modelled as sequences of characters. Trimming and lower-casing cover ASCII only. zod's lengths are counted in characters, not UTF-16 code units.
- JavaScript `Number(...)` is modelled on text with surrounding ASCII whitespace trimmed: blank text (0), plain decimal digits, and decimal digits after one `+` or `-` sign. The same function reads the time parts of the create form and the API's `max_participants` and `hours`. Text with a fraction, an exponent, a `0x`/`0o`/`0b` prefix or `Infinity` is treated as not a number, although JavaScript reads it.
- `parseInt` is modelled with its sign and its `0x`/`0X` prefix, so "0x10" reads as 16 and "0x" as NaN. It skips only ASCII whitespace.
- A zod field that is absent from the body reports "Required". The forms are modelled as records whose fields are always present, so that issue is not modelled.
- `atob` is modelled as the strict decoder. The browser's lenient forms (missing padding, non-zero unused bits) are not modelled.
- Lookups in plain JavaScript objects also find the names inherited from `Object.prototype`, such as "constructor" or "toString", and then return a function, not a string. The model treats such a name like any other unknown key. This affects `QrStatus.MapApiErrorToStatusCode`, `QrStatus.ActivityStatusText`, `QrStatus.UserStatusText`, `ActivityStatus.ConvertStatusForBackend` and `ActivityStatus.ConvertStatusFromBackend`. For those names, the "any other text" clauses of these members and of `ActivityStatus.ForThenFromIsLowercase` hold only of the model.
- Navigation after a logout (`goto`) is left out. Effects of `authStore.logout()` triggered by the frontend tracker are reported as a flag, not carried out.
- Console logging and `handleError` are not modelled. For the security headers set in `src/hooks.server.ts`, only the flag saying they are set is modelled. Their values are not.
- The route gates `requireOrganizationAdmin` and `requireFacultyAdmin`, which the admin API routes call first, are not modelled inside those routes. The handlers are modelled from the point where the caller is known.
- The register payload sent by the client stores is not modelled. Neither are the faculties fetch and the `load` of the activity-creation page.
- `ThaiDateFormatter.format` has two gaps. An option passed explicitly as `undefined` overrides the default in `{ ...defaults, ...options }`, and the model treats it as absent. The unused `locale` field is dropped.
- Helpers outside the named core are not modelled: `formatHours`, `getActivityTypeDisplayName`, `getActivityLevelColor`, `formatHoursDisplay` and `calculateActivitySummaryWithProgress`. Neither are `adminUpdateSchema`, the backend's `get_dashboard_activities`, `get_activity` and `get_my_participations`, and `me_handler` and `register_handler`.
- Base64.Encode: its own contract gives only the length's divisibility by four. The exact length is the separate lemma Base64.EncodedLength.
- UpdateStatuses.WritesFor: its own contract bounds only the number of writes. What the writes are is stated by UpdateStatuses.WritesAreChanges and UpdateStatuses.SecondRunWritesNothing.
- BackendActivities.ListActivities: the rows are taken to be given already in `created_at` descending order, as `ORDER BY a.created_at DESC` returns them, and `created_at` is not a column of the model. The sort itself is the database's and is not modelled. The result keeps the given order: all rows for an admin, and the published subsequence otherwise.
- BackendActivities.Published: the same holds. It keeps the order of the rows given, as BackendActivities.PublishedKeepsOrder states, so the `created_at` order that PostgreSQL returns carries over.
- ChangePassword.ChangeOutcome and AuthService.AuthenticateAndIssueToken: the password check is a boolean parameter, `matches` in the first and `verify` in the second. So argon2's `verify` throwing on a hash it cannot parse is not modelled. In the change-password handler that throw becomes the INTERNAL_ERROR reply of its `catch`. In `authenticateAndIssueToken` it propagates to the caller. The Rust login does model this case, as `Unparseable` in `BackendAuth.Authenticate`.
- QrStatus.MapApiErrorToStatusCode: its own contract only excludes the success codes. The table is stated by QrStatus.MapIsIdentity, QrStatus.Aliases and QrStatus.UnknownIsInternal.

## Findings

| source | as written | input that shows it | evidently intended | confidence | as-written member | corrected member |
|---|---|---|---|---|---|---|
| src/lib/schemas/auth.ts:140-149 | the refinement compares `admin_level` with `AdminLevel.OrganizationAdmin`, which the enum in src/lib/types/admin.ts:1-5 does not define, so the comparison is always false | a FacultyAdmin form with no organization_id passes | an organization-level admin (FacultyAdmin) must name an organization | medium; not executed | AuthSchemas.AdminCreateSchemaAsWritten, AuthSchemas.OrganizationRefinementNeverFires | AuthSchemas.AdminCreateSchema |
| src/lib/activity-tracker.ts:88-99 | after a failed refresh `stopTracking` runs and `scheduleRefresh` still follows it, so a refresh is pending while the tracker is stopped | an active user whose refresh fails | a failed refresh leaves the tracker stopped with nothing pending | medium; not executed | SessionTracker.ActivityTracker.CheckAndRefresh, SessionTracker.FailedRefreshKeepsTimer | SessionTracker.ActivityTracker.CheckAndRefreshCorrected |
