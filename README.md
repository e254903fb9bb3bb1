# Health dashboard list-state model

This project is a Dafny model of the state logic under a client-side health
dashboard written in React. Each page keeps small in-memory collections and
changes them through event handlers:

- the medications page: medications, a dose log, reminders, and the "today's
  medications" view derived from them;
- the challenges page: join, leave and progress;
- the appointments page: book, cancel, and a two-step reschedule, plus the
  upcoming/history split;
- the notifications page: a type filter combined with per-type settings, and
  the read flags;
- the dashboard: case-insensitive search over the care team and the medication
  schedule, the schedule's "Take" button, and the section visibility flags;
- the sidebar: a link label becomes a route path, the active-link test, and
  the guest profile card.

Each page is a `class` whose fields are the page's held state. Its methods
update those fields, and each method's `ensures` ties the new state to a pure
function of the old state. The properties the page promises are proved about
those functions as lemmas. The current date, new ids and the toast timer are
not read from a clock. They are method parameters, or an explicit
`ClearToast` event.

Files:

- `strings.dfy`: `Options` (the option type) and `Strings`, which holds ASCII
  `toLowerCase`, `includes`, `split`/`join` with a string separator, and
  single-character global replace.
- `medications.dfy`, `challenges.dfy`, `appointments.dfy`,
  `notifications.dfy`, `dashboard.dfy`, `sidebar.dfy`: one module per page.

## Model

| member | source | states |
|---|---|---|
| Strings.IncludesIff | src/pages/DashboardPage.tsx:107 | `includes` holds exactly when the needle occurs at some position of the text |
| Strings.IncludesEmpty | src/pages/DashboardPage.tsx:107 | every text includes the empty string |
| Strings.Lower | src/pages/DashboardPage.tsx:107 | the result has the input's length and contains no upper-case ASCII letter; each upper-case letter becomes its own lower-case letter (code + 32) and every other character is kept |
| Strings.Includes | src/pages/DashboardPage.tsx:107 | a text can only include a needle that is no longer than itself |
| Strings.Split | src/pages/MedicationsPage.tsx:140 | splitting always yields at least one piece, even for an empty string |
| Strings.SplitPiecesFree | src/pages/MedicationsPage.tsx:140 | the string is cut at every occurrence of the separator: no piece still contains it |
| Strings.SplitJoin | src/pages/MedicationsPage.tsx:140 | splitting on ", " loses nothing: joining the pieces with the separator gives the time string back |
| Medications.TodayLogs | src/pages/MedicationsPage.tsx:135 | never longer than the log, and every log it keeps is dated today |
| Medications.LogsFor | src/pages/MedicationsPage.tsx:141 | never longer than the log, and every log it keeps names the medication |
| Medications.FilteredLogsExact | src/pages/MedicationsPage.tsx:135-141 | the two filters keep exactly the logs dated today, and exactly the logs of the medication |
| Medications.FindStatus | src/pages/MedicationsPage.tsx:146 | "pending" exactly when no log has the time |
| Medications.RowsFor | src/pages/MedicationsPage.tsx:140-147 | one row per `", "`-separated piece of the time string, in split order, each carrying the medication, that piece, and the status found among that medication's logs for that exact time |
| Medications.Expand | src/pages/MedicationsPage.tsx:139-148 | the view has exactly `Slots` rows; every row's medication is in the list and active; its time is a piece of that medication's time string; its status is the one found for its slot |
| Medications.ExpandCons | src/pages/MedicationsPage.tsx:139 | an active medication at the head contributes its rows first; an inactive one contributes none |
| Medications.TodayMedications | src/pages/MedicationsPage.tsx:137-149 | today's view has exactly `Slots` rows, and each row's medication is in the list and active and its time is a piece of that medication's time string |
| Medications.ExpandKeepsOrder | src/pages/MedicationsPage.tsx:139-148 | the rows follow the medication list order: the view of a concatenation is the concatenation of the views |
| Medications.TodayRowStatus | src/pages/MedicationsPage.tsx:136-146 | every row of today's view belongs to an active medication and shows the slot status of its medication and time |
| Medications.SlotStatusStep | src/pages/MedicationsPage.tsx:135-146 | over a non-empty log, the first log decides the slot when it matches it; otherwise the rest of the log does |
| Medications.SlotStatusIsFirstMatch | src/pages/MedicationsPage.tsx:136-146 | a slot is "pending" iff no log dated today matches its medication id and exact time; otherwise it shows the status of the FIRST matching log; logs of other days play no part |
| Medications.SlotStatusAfterLog | src/pages/MedicationsPage.tsx:146-186 | appending a log changes a slot only when the slot was pending and the log matches it; then the slot takes the log's status |
| Medications.FirstLogStays | src/pages/MedicationsPage.tsx:146 | a slot that already shows a status keeps it when another log for the same slot is appended |
| Medications.TodayAfterLog | src/pages/MedicationsPage.tsx:151-189 | after appending a log dated today, the view has the same rows in the same order; only pending rows of the logged slot change, to the new status |
| Medications.RowCountIgnoresLogs | src/pages/MedicationsPage.tsx:317 | the "Total Today" count depends only on the active medications and their time strings, never on the logs |
| Medications.CountStatus | src/pages/MedicationsPage.tsx:329-355 | a count never exceeds the number of rows, and it is zero exactly when no row has that status |
| Medications.SummaryAddsUp | src/pages/MedicationsPage.tsx:317-355 | the taken, missed and pending counts plus the skipped rows add up to the total |
| Medications.StatusText | src/pages/MedicationsPage.tsx:204-215 | "Taken", "Missed" and "Skipped" are returned exactly for their codes; every other code reads "Pending" |
| Medications.StatusTextDistinct | src/pages/MedicationsPage.tsx:204-215 | the four row statuses get four different labels |
| Medications.DoseLog | src/pages/MedicationsPage.tsx:152-159 | the log a dose action writes is dated today, names the medication and time slot, and carries the action's status |
| Medications.NewMedication | src/pages/MedicationsPage.tsx:219-234 | rejected iff name, dosage or time is empty; otherwise it copies the form's fields, starts today, has no end date and is active |
| Medications.ToggleReminder | src/pages/MedicationsPage.tsx:249-255 | length kept; only the reminder with the id has `isActive` flipped; every other field and reminder is unchanged |
| Medications.ToggleReminderTwice | src/pages/MedicationsPage.tsx:249-255 | toggling the same reminder twice restores the list |
| Medications.MedicationsPage.constructor | src/pages/MedicationsPage.tsx:121-133 | the page starts with the given collections, the default form (frequency "Once daily"), no modal and no toast |
| Medications.MedicationsPage.TakeMedication | src/pages/MedicationsPage.tsx:151-161 | exactly one "taken" log is appended and all else is kept, toast included; today's view changes only by marking that slot |
| Medications.MedicationsPage.SkipMedication | src/pages/MedicationsPage.tsx:163-175 | exactly one "skipped" log is appended; the toast reads "Medication marked as skipped"; today's view changes only by marking that slot |
| Medications.MedicationsPage.MissedMedication | src/pages/MedicationsPage.tsx:177-189 | exactly one "missed" log is appended; the toast reads "Medication marked as missed"; today's view changes only by marking that slot |
| Medications.MedicationsPage.AddMedication | src/pages/MedicationsPage.tsx:217-247 | an incomplete form leaves the medications and form unchanged and sets the required-fields toast; a complete form appends one medication, resets the form, closes the modal and sets the success toast |
| Medications.MedicationsPage.ToggleReminderActive | src/pages/MedicationsPage.tsx:249-255 | reminders become `ToggleReminder` of the old list; nothing else changes |
| Medications.MedicationsPage.SetAddModal | src/pages/MedicationsPage.tsx:265 | the "Add Medication" button opens the modal and its "Cancel" button (line 565) closes it; the form keeps what was typed |
| Medications.MedicationsPage.EditForm | src/pages/MedicationsPage.tsx:512-558 | a field edit replaces the add form with the edited one |
| Medications.MedicationsPage.ClearToast | src/pages/MedicationsPage.tsx:174 | the timer's callback empties the toast |
| Challenges.ChallengesPage.ClearToast | src/pages/ChallengesPage.tsx:215-225 | the timers set by joining (line 215) and leaving (line 225) empty the toast and change nothing else |
| Challenges.Joined | src/pages/ChallengesPage.tsx:208-213 | length kept; only challenges with the id change, becoming active with one more participant |
| Challenges.Left | src/pages/ChallengesPage.tsx:218-223 | length kept; only challenges with the id change, becoming inactive with `max(0, participants - 1)` participants, never negative; no other field changes |
| Challenges.Progressed | src/pages/ChallengesPage.tsx:228-233 | length kept; only `current` of the matching challenges changes, to the smaller of the target and the new value, so it never exceeds the target; there is no lower clamp |
| Challenges.JoinTwice | src/pages/ChallengesPage.tsx:208-213 | joining is not idempotent: joining twice adds two participants |
| Challenges.ProgressIdempotent | src/pages/ChallengesPage.tsx:228-233 | applying the same progress update twice equals applying it once |
| Challenges.HandlersKeepBounds | src/pages/ChallengesPage.tsx:208-233 | join, leave and progress keep `current <= target` and non-negative participants, and keep every challenge's id in place |
| Challenges.ActiveCount | src/pages/ChallengesPage.tsx:260 | the header's active count never exceeds the number of challenges |
| Challenges.ActiveCountAfterJoin | src/pages/ChallengesPage.tsx:209-213 | joining raises the active count by exactly the number of inactive challenges with that id |
| Challenges.ActiveCountAfterLeave | src/pages/ChallengesPage.tsx:219-223 | leaving lowers the active count by exactly the number of active challenges with that id |
| Challenges.ChallengesPage.constructor | src/pages/ChallengesPage.tsx:205-206 | the page starts with the given challenges, 1250 points and no toast |
| Challenges.ChallengesPage.JoinChallenge | src/pages/ChallengesPage.tsx:208-216 | challenges become `Joined` of the old list; the active count grows as `ActiveCountAfterJoin` says; the toast reads "Challenge joined successfully!" |
| Challenges.ChallengesPage.LeaveChallenge | src/pages/ChallengesPage.tsx:218-226 | challenges become `Left` of the old list; the active count shrinks as `ActiveCountAfterLeave` says; the toast reads "Challenge left successfully!" |
| Challenges.ChallengesPage.UpdateProgress | src/pages/ChallengesPage.tsx:228-234 | challenges become `Progressed` of the old list and stay within their targets; the toast is untouched |
| Appointments.NewAppointment | src/pages/AppointmentsPage.tsx:26-33 | the booked entry carries the new id, the form's doctor, date, time and telehealth flag, and status "upcoming" |
| Appointments.CancelledAll | src/pages/AppointmentsPage.tsx:41-42 | length kept; appointments with the id become "cancelled" with all other fields kept; the rest are unchanged |
| Appointments.CancelIdempotent | src/pages/AppointmentsPage.tsx:42 | cancelling is terminal: cancelling again changes nothing |
| Appointments.CancelAbsent | src/pages/AppointmentsPage.tsx:42 | cancelling an id no appointment carries is a no-op |
| Appointments.Rescheduled | src/pages/AppointmentsPage.tsx:56-60 | length, ids and statuses kept; only the appointment whose id is the one being rescheduled takes the form's doctor, date, time and telehealth flag; with no id set nothing changes |
| Appointments.Find | src/pages/AppointmentsPage.tsx:49 | finds nothing iff no appointment has the id; otherwise it returns the FIRST appointment of the list with that id (every earlier one has another id) |
| Appointments.RescheduleUnchanged | src/pages/AppointmentsPage.tsx:47-60 | with unique ids, submitting the pre-filled form unchanged leaves the list as it was |
| Appointments.SubmitsAsReschedule | src/pages/AppointmentsPage.tsx:95 | the form submits as a reschedule iff an id is set and it is non-zero (a truthiness test); otherwise it books |
| Appointments.UpcomingOf | src/pages/AppointmentsPage.tsx:72 | holds exactly the appointments whose status is "upcoming" |
| Appointments.HistoryOf | src/pages/AppointmentsPage.tsx:73 | holds exactly the appointments whose status is not "upcoming" |
| Appointments.UpcomingHistoryPartition | src/pages/AppointmentsPage.tsx:72-73 | the two lists' lengths add up to the total, and together they hold every appointment exactly as often as the list does |
| Appointments.UpcomingKeepsOrder | src/pages/AppointmentsPage.tsx:72 | the upcoming list keeps the original order |
| Appointments.HistoryKeepsOrder | src/pages/AppointmentsPage.tsx:73 | the history list keeps the original order |
| Appointments.AppointmentsPage.constructor | src/pages/AppointmentsPage.tsx:8-18 | the page starts with the given appointments, an empty closed form, no reschedule id and no toast |
| Appointments.AppointmentsPage.Book | src/pages/AppointmentsPage.tsx:22-39 | exactly one new upcoming appointment is appended from the form; earlier ones are unchanged; the form is reset and closed; toast "Appointment booked successfully!" |
| Appointments.AppointmentsPage.Cancel | src/pages/AppointmentsPage.tsx:41-45 | the list becomes `CancelledAll` of the old list; toast "Appointment cancelled." |
| Appointments.AppointmentsPage.Reschedule | src/pages/AppointmentsPage.tsx:47-52 | the list is untouched; the id is remembered, the form is pre-filled from the first appointment with that id, and the form opens |
| Appointments.AppointmentsPage.RescheduleSubmit | src/pages/AppointmentsPage.tsx:54-66 | the list becomes `Rescheduled` by the remembered id and form; the form is reset and closed; the id is cleared; toast "Appointment rescheduled." |
| Appointments.AppointmentsPage.Submit | src/pages/AppointmentsPage.tsx:95 | when `SubmitsAsReschedule` holds, the list becomes `Rescheduled`, the id is cleared and the toast reads "Appointment rescheduled."; otherwise one appointment is appended, the id is left as it was (an id of 0 stays set) and the toast reads "Appointment booked successfully!"; either way the form is reset and closed |
| Appointments.AppointmentsPage.EditForm | src/pages/AppointmentsPage.tsx:99-113 | a field edit replaces the form with the edited one |
| Appointments.AppointmentsPage.ClearToast | src/pages/AppointmentsPage.tsx:38-65 | the timers set by booking (line 38), cancelling (line 44) and rescheduling (line 65) empty the toast and change nothing else |
| Appointments.AppointmentsPage.CloseForm | src/pages/AppointmentsPage.tsx:117 | the form's Cancel button closes the form and clears the id, leaving the list and form contents |
| Notifications.Filtered | src/pages/NotificationsPage.tsx:25-27 | holds exactly the notifications whose type passes the filter ("All" or equal) and is enabled in the settings; never longer than the list |
| Notifications.FilteredKeepsOrder | src/pages/NotificationsPage.tsx:25-27 | the filtered list keeps the list's order |
| Notifications.DisabledNeverShown | src/pages/NotificationsPage.tsx:26 | a type disabled in the settings never appears, even under "All" |
| Notifications.AllShowsEverything | src/pages/NotificationsPage.tsx:23-27 | with every type enabled (the initial settings), "All" shows the whole list |
| Notifications.ToggledRead | src/pages/NotificationsPage.tsx:29-31 | length kept; `read` flips exactly on notifications with the id; every other field is kept |
| Notifications.ToggleReadTwice | src/pages/NotificationsPage.tsx:29-31 | toggling the same notification twice restores the list |
| Notifications.MarkedAllRead | src/pages/NotificationsPage.tsx:33-35 | length kept; every notification is read; ids and all other fields are kept |
| Notifications.MarkAllReadIdempotent | src/pages/NotificationsPage.tsx:33-35 | marking all read twice equals doing it once |
| Notifications.ToggledSetting | src/pages/NotificationsPage.tsx:37-39 | exactly the one type's flag flips (a missing key counts as off); every other type keeps its flag |
| Notifications.ToggleSettingTwice | src/pages/NotificationsPage.tsx:37-39 | toggling a type twice restores its flag |
| Notifications.NotificationsPage.constructor | src/pages/NotificationsPage.tsx:14-23 | the page starts with the given notifications, filter "All" and every type enabled |
| Notifications.NotificationsPage.SetFilter | src/pages/NotificationsPage.tsx:55 | a filter button sets the filter and nothing else |
| Notifications.NotificationsPage.ToggleRead | src/pages/NotificationsPage.tsx:29-31 | notifications become `ToggledRead` of the old list; the filter and settings are kept |
| Notifications.NotificationsPage.MarkAllRead | src/pages/NotificationsPage.tsx:33-35 | notifications become `MarkedAllRead` of the old list; the filter and settings are kept |
| Notifications.NotificationsPage.SettingChange | src/pages/NotificationsPage.tsx:37-39 | settings become `ToggledSetting` of the old settings; the list and filter are kept |
| Dashboard.EmptySearchMatches | src/pages/DashboardPage.tsx:107 | an empty search matches every text |
| Dashboard.MatchesSearchIgnoresCase | src/pages/DashboardPage.tsx:107-113 | the search ignores case: texts and searches that differ only in ASCII case give the same answer |
| Dashboard.FilteredCareTeam | src/pages/DashboardPage.tsx:105-109 | holds exactly the members whose lower-cased name or role contains the lower-cased search |
| Dashboard.CareTeamKeepsOrder | src/pages/DashboardPage.tsx:105-109 | the filtered care team keeps the team's order |
| Dashboard.CareTeamEmptySearch | src/pages/DashboardPage.tsx:105-109 | with an empty search the whole team is listed |
| Dashboard.FilteredMedications | src/pages/DashboardPage.tsx:111-114 | the filtered schedule is never longer than the schedule |
| Dashboard.MedicationsShown | src/pages/DashboardPage.tsx:111-114 | a row is shown iff it is in the schedule and its lower-cased name (only the name) contains the lower-cased search |
| Dashboard.MedicationsKeepOrder | src/pages/DashboardPage.tsx:111-114 | the filtered schedule keeps the schedule's order |
| Dashboard.MedicationsEmptySearch | src/pages/DashboardPage.tsx:111-114 | with an empty search the whole schedule is listed |
| Dashboard.Take | src/pages/DashboardPage.tsx:116-121 | length kept; the row at the index becomes "Taken" with its other fields kept; every other row is unchanged |
| Dashboard.TakeOutOfRange | src/pages/DashboardPage.tsx:118-119 | an index outside the list changes nothing |
| Dashboard.TakeIdempotent | src/pages/DashboardPage.tsx:116-121 | taking the same index twice equals taking it once |
| Dashboard.OriginalIndex | src/pages/dashboard/MedicationSchedule.tsx:41-63 | the k-th shown row's own position in the full schedule: a row that matches the search, equal to the k-th shown row, with exactly k shown rows before it |
| Dashboard.TakeClickedAsWritten | src/pages/dashboard/MedicationSchedule.tsx:63 | as written, the row at the filtered position k of the FULL schedule becomes "Taken" and every other row is unchanged, so whenever the clicked row sits elsewhere (`OriginalIndex` differs from k) the clicked row is left as it was |
| Dashboard.TakeClicked | src/pages/dashboard/MedicationSchedule.tsx:63 | as intended: the clicked row, at its place in the full schedule, becomes "Taken" and every other row is unchanged |
| Dashboard.AsWrittenAgreesOnEmptySearch | src/pages/DashboardPage.tsx:111-121 | with an empty search the button as written updates exactly the clicked row |
| Dashboard.AsWrittenTakesWrongRow | src/pages/dashboard/MedicationSchedule.tsx:63 | with a non-empty search the button as written can mark a different row than the one clicked |
| Dashboard.ToggleSection | src/pages/DashboardPage.tsx:126-128 | exactly the one section's flag flips; the other three keep theirs |
| Dashboard.ToggleSectionTwice | src/pages/DashboardPage.tsx:126-128 | toggling a section twice restores the flags |
| Dashboard.DashboardPage.constructor | src/pages/DashboardPage.tsx:51-88 | the page starts with the given schedule and team, an empty search, every section shown and no toast |
| Dashboard.DashboardPage.HandleTake | src/pages/DashboardPage.tsx:116-124 | the schedule becomes `Take` of the old schedule at the index; toast "Medication marked as taken!" |
| Dashboard.DashboardPage.TakeShownRow | src/pages/dashboard/MedicationSchedule.tsx:63 | the corrected button: the schedule becomes `TakeClicked` for the k-th shown row |
| Dashboard.DashboardPage.SectionToggle | src/pages/DashboardPage.tsx:126-128 | the flags become `ToggleSection` of the old flags; nothing else changes |
| Dashboard.DashboardPage.ClearToast | src/pages/DashboardPage.tsx:123 | the timer's callback empties the toast and changes nothing else |
| Sidebar.LinkPath | src/layout/Sidebar.tsx:124 | the path is one longer than the label, starts with '/', and position k+1 holds label position k lower-cased, with a space turned into '-' |
| Sidebar.PathShape | src/layout/Sidebar.tsx:124 | every path starts with '/', is one longer than its label and contains no space |
| Sidebar.PathIs | src/layout/Sidebar.tsx:124 | a label's path is a given route when they agree character by character |
| Sidebar.LinksReachRoutes | src/App.tsx:44-49 | each of the six sidebar labels leads to the route the application declares for its page, e.g. "Health Insights" to "/health-insights" |
| Sidebar.IsActive | src/layout/Sidebar.tsx:125 | a link is highlighted exactly when the location is '/' followed by the label character by character, lower-cased and with spaces turned into '-' |
| Sidebar.AtMostOneActive | src/layout/Sidebar.tsx:125 | at any location at most one sidebar link is highlighted |
| Sidebar.ActiveOnOwnRoute | src/layout/Sidebar.tsx:123-125 | on a page's own route its link is highlighted and no other link is |
| Sidebar.IsGuest | src/layout/Sidebar.tsx:48 | guest iff name, email and avatar are all empty |
| Sidebar.ProfileCard | src/layout/Sidebar.tsx:64-67 | a guest's card reads "Guest" / "Not logged in"; anyone else's shows their name and email |

## Left out

- All rendering, styling, animation and the presentational subcomponents. They hold no logic beyond the props they receive.
- The charts and chart helpers (glucose and health-insights charts, the custom tooltip and bar).
- The challenges page's progress percentage: it divides floating-point numbers.
- The badges, leaderboard and user-points display of the challenges page. Only the starting points value is modelled.
- The toast timers. A handler sets the toast string; its clearing is the separate `ClearToast` event. Timer ordering and overlap are not modelled.
- Clock reads. New ids (`Date.now()`) and today's date are parameters, so the model does not capture id collisions within one millisecond.
- The window-width bar sizing on the dashboard. It is layout.
- The video-call `alert` on the appointments page.
- The booking form's HTML `required` attributes. They are browser validation and the only check on a booking, so `Book` accepts any form.
- Theme context, router navigation, the header's date label, and the files that are not part of this model: Book.tsx and the health-insights page.
- Unicode case folding. `Strings.Lower` folds ASCII letters only, so the search, and the label-to-path step, match the source only for ASCII text.
- Literal seed data (the initial medications, logs, reminders, challenges, appointments, notifications, schedule and team). Each page's constructor takes its initial collections as parameters.
- The challenge's icon (a rendered element) and the care-team members' badge, unread flag and messages. They are display-only.
- The medications page's history and reminder views and the display of its modals. They only display the state modelled here.
- A simulated "new System notification" after mark-all-read. It does not occur in this source: `handleMarkAllRead` only marks every notification read.
- Medications.SlotStatusIsFirstMatch: it follows `find`, which takes the FIRST matching log of the day. A later log for a slot that already has one is ignored, so the slot keeps its first status (`FirstLogStays`).
- Opening the appointment form for a new booking. The button that does it lives in Book.tsx, which is not part of this model; `EditForm` covers the form's field edits.
- Non-integer challenge numbers. A challenge's `target`, `current`, `participants` and `points` are JavaScript numbers, modelled as unbounded integers. Fractional values, NaN and infinities are not modelled (for example `Math.min(target, NaN)` is NaN), and `Progressed`'s `current <= target` relies on that.
- Appointments.AppointmentsPage.Reschedule: requires the id to be in the list, because the source dereferences the found appointment without a check.
- Dashboard.FilteredMedications: its own contract bounds only the length. Membership in both directions is `MedicationsShown` and order is `MedicationsKeepOrder`.

## Findings

| source | as written | input that shows it | evidently intended | confidence | as-written member | corrected member |
|---|---|---|---|---|---|---|
| src/pages/dashboard/MedicationSchedule.tsx:63 | the "Take" button passes its index in the search-filtered schedule, and `handleTake` (src/pages/DashboardPage.tsx:116-121) uses it as an index into the unfiltered schedule | schedule rows "a" (missed) and "b" (upcoming), search "b": only "b" is shown, at position 0; clicking it marks "a" taken and leaves "b" upcoming | the clicked row is the one marked taken | not executed; latent in this source because the dashboard never changes its search text from "", and with an empty search both agree (`AsWrittenAgreesOnEmptySearch`) | Dashboard.TakeClickedAsWritten, Dashboard.AsWrittenTakesWrongRow | Dashboard.TakeClicked, Dashboard.DashboardPage.TakeShownRow |
