# Care portal core, modelled in Dafny

This project models the core of a React care-staffing portal. Care homes post
shifts, review applications, check timesheets and file incident reports. Care
workers register, apply for shifts, sign timesheets, read payslips and manage
their profile. The hosted database is modelled as abstract tables: the
`shifts` table is a map from shift id to row, and the `careworkers` and
`carehomes` tables are sequences of loosely typed rows. Each remote request is
one atomic step whose failure is a parameter. Browser `localStorage` is a map
from key to stored record.

Screens that change state step by step are classes, and their handlers are
methods proved against pure functions. These are the shift-management page,
the post-shift form, the timesheet review panel, the worker timesheet table and
signature pad, the two registration forms, the profile and password forms, and
the session store. Pure computation is functions and lemmas: the shift duration
arithmetic, status bucketing, counts, payslip sums, setting toggles, checklist
toggles, colour maps, labels and report lookup.

Module layout, one module per source file plus shared ones:

- `ShiftHours` holds `calculateHours`. It appears three times with identical
  text, in ManageShifts, AvailableShifts and MyShifts.
- `Shifts` holds the shift table.
- `Grouping` holds the `reduce` into status buckets.
- `Records` holds untyped rows and their tables.
- `Sessions` holds both session hooks and both route guards.
- `SettingsToggle` and `Checklist` hold helpers shared by two screens each;
  `JsStrings` holds string helpers shared by three (both registration screens and
  the incident screen).

## Model

| member | source | states |
|---|---|---|
| `ShiftHours.Split` | src/components/dashboard/ManageShifts.tsx:65-66 | `split(":")` always yields at least one piece and no piece contains the separator |
| `ShiftHours.JoinSplit` | src/components/dashboard/ManageShifts.tsx:65-66 | joining the pieces of a split gives back the original text, so no character is lost |
| `ShiftHours.SplitAfterPiece` | src/components/dashboard/ManageShifts.tsx:65-66 | a separator-free prefix followed by ":" splits off as exactly one piece |
| `ShiftHours.SplitNoSeparator` | src/components/dashboard/ManageShifts.tsx:65-66 | text without ":" is a single piece |
| `ShiftHours.ParseTime` | src/components/dashboard/ManageShifts.tsx:65-66 | a parsed `HH:MM` gives a non-negative hour and minute |
| `ShiftHours.NumberOf` | src/components/dashboard/ManageShifts.tsx:65-66 | `Number` of a piece: the empty piece is 0, a single digit is its value, a number is never negative, and a piece holding ":" is NaN |
| `ShiftHours.TwoDigits` | src/components/dashboard/ManageShifts.tsx:65-66 | zero-padded rendering of 0..99 is two decimal digits |
| `ShiftHours.FormatTime` | src/components/dashboard/ManageShifts.tsx:65-66 | the `HH:MM` text the parse reads: five characters with the one ":" at index 2 |
| `ShiftHours.TwoDigitsValue` | src/components/dashboard/ManageShifts.tsx:65-66 | `Number` of a two-digit rendering reads back the same number |
| `ShiftHours.ParseFormat` | src/components/dashboard/ManageShifts.tsx:65-66 | parsing the `HH:MM` text of a valid time gives that time back |
| `ShiftHours.ParseFormatSeconds` | src/components/dashboard/ManageShifts.tsx:65-66 | a trailing `:SS` (as the database's time columns carry) is ignored by the parse |
| `ShiftHours.ShiftMinutes` | src/components/dashboard/ManageShifts.tsx:68-73 | the duration equals the forward clock distance when the end hour is not earlier, adds a day when it is, and always agrees with end minus start modulo a day |
| `ShiftHours.WrapsModuloDay` | src/components/dashboard/ManageShifts.tsx:68-71 | for valid times, 60 × hours equals (end − start) mod 1440 exactly when the shift is not a same-hour shift with an earlier end minute |
| `ShiftHours.OvernightShift` | src/components/dashboard/ManageShifts.tsx:71 | an end hour earlier than the start hour yields a positive duration that wraps past midnight |
| `ShiftHours.EqualTimesZero` | src/components/dashboard/ManageShifts.tsx:68-73 | equal start and end give 0, not 24 hours |
| `ShiftHours.SameHourQuirk` | src/components/dashboard/ManageShifts.tsx:68-73 | the same hour with an earlier end minute gives a negative duration, since minutes are never normalised |
| `ShiftHours.ShiftMinutesRange` | src/components/worker-dashboard/AvailableShifts.tsx:46-56 | for valid times the result lies strictly between −1 hour and 24 hours |
| `ShiftHours.CalculateHours` | src/components/dashboard/ManageShifts.tsx:64-74 | `calculateHours` is a number exactly when both times parse, and 60 × it is the minute duration |
| `ShiftHours.ShiftPay` | src/components/dashboard/ManageShifts.tsx:209-211 | pay is defined exactly when the hours are, and is then `TimesRate` of the hours: hours × rate |
| `ShiftHours.TimesRate` | src/components/dashboard/ManageShifts.tsx:209-211 | the product is NaN (None) exactly when the hours are, and is hours × rate otherwise |
| `ShiftHours.TimesRateLinear` | src/components/dashboard/ManageShifts.tsx:209-211 | pay is linear in the rate: the pay at a sum of rates is the sum of the pays, and for non-negative hours a higher rate never pays less |
| `ShiftHours.CalculateHoursOfFormatted` | src/components/worker-dashboard/MyShifts.tsx:33-43 | for well-formed `HH:MM` times outside the quirk, 60 × hours is the forward distance modulo a day |
| `ShiftHours.NightShiftExample` | src/components/dashboard/ManageShifts.tsx:71 | 22:00 to 06:00 is 8 hours |
| `ShiftHours.NegativeQuarterExample` | src/components/worker-dashboard/MyShifts.tsx:37-42 | 10:30 to 10:15 is −0.25 hours |
| `ShiftHours.PayExample` | src/components/dashboard/ManageShifts.tsx:209-211 | 09:00 to 16:30 at 15 an hour pays 112.5 |
| `Shifts.OrUnknown` | src/components/worker-dashboard/AvailableShifts.tsx:117-118 | a missing or empty joined text reads "Unknown"; any other text is shown as is |
| `Shifts.RowsOfCareHome` | src/components/dashboard/ManageShifts.tsx:185-188 | the `care_home_id` filter keeps only the care home's own rows, and keeps all of them |
| `Shifts.RowsOfCareHomeAppend` | src/components/dashboard/ManageShifts.tsx:185-188 | the filter distributes over concatenation, so the kept rows stay in table order |
| `Shifts.WithStatus` | src/components/dashboard/ManageShifts.tsx:134-137 | setting a status changes only that row's status; the keys and every other row stay, and ids stay keyed |
| `Shifts.WithApplicant` | src/components/worker-dashboard/AvailableShifts.tsx:74-81 | applying makes the row pending with the worker's id and name; every other field and every other row stay |
| `Shifts.WithNewShift` | src/components/dashboard/PostShift.tsx:57-60 | an insert under a fresh id adds exactly that row and keeps all the others |
| `Shifts.ApplyAfterApproveLosesApproval` | src/components/worker-dashboard/AvailableShifts.tsx:74-81 | apply has no status guard, so an approved shift applied for again becomes pending |
| `Shifts.LastDecisionWins` | src/components/dashboard/ManageShifts.tsx:156-161 | approve and reject have no status guard, so the last decision overwrites the first |
| `Shifts.ShiftTable.UpdateStatus` | src/components/dashboard/ManageShifts.tsx:134-137 | the status update is applied to the table, or nothing changes when the request fails |
| `Shifts.ShiftTable.UpdateApplicant` | src/components/worker-dashboard/AvailableShifts.tsx:74-81 | the applicant update is applied to the table, or nothing changes when the request fails |
| `Shifts.ShiftTable.Insert` | src/components/dashboard/PostShift.tsx:57-60 | the new row is added, or nothing changes when the request fails |
| `Grouping.Selected` | src/components/dashboard/ManageShifts.tsx:196-218 | the reference bucket has no more entries than there are rows |
| `Grouping.GroupBy` | src/components/dashboard/ManageShifts.tsx:196-218 | the fold never drops a seed bucket, and a key that `keep` rejects keeps its seed bucket exactly |
| `Grouping.SelectedAppend` | src/components/dashboard/ManageShifts.tsx:196-218 | selection distributes over concatenation, which keeps fetch order inside a bucket |
| `Grouping.GroupByBucket` | src/components/dashboard/ManageShifts.tsx:196-218 | each bucket of the fold is the seed bucket followed by the views of the kept rows with that key, in order |
| `Grouping.GroupByKeys` | src/components/dashboard/ManageShifts.tsx:196-218 | the fold's buckets are the seed's plus those of kept rows |
| `Grouping.KeptKeysSnoc` | src/components/worker-dashboard/MyShifts.tsx:113-144 | one more row adds its key exactly when the row is kept |
| `Grouping.OccurrencesDistinct` | src/components/dashboard/ManageShifts.tsx:58-63 | in a list of distinct statuses each status occurs once or not at all |
| `Grouping.TotalSelectedCons` | src/components/dashboard/ManageShifts.tsx:196-218 | peeling off the first row lowers the total across buckets by exactly one for its key |
| `Grouping.SelectionsPartition` | src/components/dashboard/ManageShifts.tsx:196-218 | when every row's status is among distinct keys, the bucket sizes sum to the number of rows |
| `Grouping.TotalSelectedNil` | src/components/dashboard/ManageShifts.tsx:196-218 | no rows means empty buckets throughout |
| `ManageShifts.GroupShiftsBucket` | src/components/dashboard/ManageShifts.tsx:196-218 | every fetched row lands in the bucket of its status, in fetch order, and the empty seed is not mutated |
| `ManageShifts.GroupShifts` | src/components/dashboard/ManageShifts.tsx:196-218 | the four tabs active, pending, approved and rejected always exist after the reduce |
| `ManageShifts.GroupShiftsKeys` | src/components/dashboard/ManageShifts.tsx:58-63 | the buckets are the four seed statuses plus any other status a row carries |
| `ManageShifts.GroupShiftsSizes` | src/components/dashboard/ManageShifts.tsx:196-218 | when every status is one of the four, the four bucket sizes sum to the row count |
| `ManageShifts.ManageShiftsPage.constructor` | src/components/dashboard/ManageShifts.tsx:94-99 | the page opens on the active tab with empty buckets and the dialog closed |
| `ManageShifts.ManageShiftsPage.SelectTab` | src/components/dashboard/ManageShifts.tsx:254-272 | the Worker column shows iff the tab is not "active"; the approve/reject dialog only on "pending" |
| `ManageShifts.ManageShiftsPage.FetchShifts` | src/components/dashboard/ManageShifts.tsx:181-221 | without a care-home id, or when the query fails, the buckets stay; otherwise they are the grouping of the rows whose `care_home_id` is the session's |
| `ManageShifts.ManageShiftsPage.HandleApproveShift` | src/components/dashboard/ManageShifts.tsx:132-154 | approval sets "approved" on that row only; the dialog closes and a success toast appears, while on failure nothing changes and an error toast appears |
| `ManageShifts.ManageShiftsPage.HandleRejectShift` | src/components/dashboard/ManageShifts.tsx:156-178 | the same for "rejected" |
| `ManageShifts.ApproveKeepsWorker` | src/components/dashboard/ManageShifts.tsx:132-161 | approving or rejecting keeps the applicant's id and name |
| `AvailableShifts.ListingSnoc` | src/components/worker-dashboard/AvailableShifts.tsx:102-123 | the listing holds exactly the active rows, in order: one more row adds its card iff it is active |
| `AvailableShifts.Listing` | src/components/worker-dashboard/AvailableShifts.tsx:102-123 | never more cards than rows; `ListingSnoc` fixes exactly which |
| `AvailableShifts.FormatAvailable` | src/components/worker-dashboard/AvailableShifts.tsx:113-122 | a card keeps the row's id and rate, takes the joined care home name and postcode, and the hours of `calculateHours` |
| `AvailableShifts.CardFields` | src/components/worker-dashboard/AvailableShifts.tsx:113-122 | a card's care home and postcode fall back to "Unknown" without the join; its hours are `calculateHours` and its rate the hourly rate |
| `AvailableShifts.AvailableShiftsPage.constructor` | src/components/worker-dashboard/AvailableShifts.tsx:98 | the page opens with no shifts |
| `AvailableShifts.AvailableShiftsPage.FetchAvailableShifts` | src/components/worker-dashboard/AvailableShifts.tsx:101-127 | a successful fetch shows the listing of the rows, a failed one keeps the list, and the shown count never exceeds the rows fetched |
| `AvailableShifts.HandleApplyShift` | src/components/worker-dashboard/AvailableShifts.tsx:62-97 | without a worker id the table is unchanged with a login error; otherwise the row becomes pending with the worker, whatever its status was, or stays on failure |
| `AvailableShifts.AppliedShiftLeavesListing` | src/components/worker-dashboard/AvailableShifts.tsx:104-105 | a shift applied for is no longer active, so it drops out of the listing |
| `MyShifts.RowsOfWorker` | src/components/worker-dashboard/MyShifts.tsx:101-105 | the query keeps only the worker's own rows, and keeps all of them |
| `MyShifts.RowsOfWorkerAppend` | src/components/worker-dashboard/MyShifts.tsx:101-105 | the filter distributes over concatenation, so the worker's rows stay in table order |
| `MyShifts.MyShiftsBucket` | src/components/worker-dashboard/MyShifts.tsx:113-144 | pending, approved and completed rows land in their bucket in fetch order; no other status gets a bucket |
| `MyShifts.GroupMyShifts` | src/components/worker-dashboard/MyShifts.tsx:113-144 | the three tabs always exist, and every other status has an empty bucket |
| `MyShifts.FormatMyShift` | src/components/worker-dashboard/MyShifts.tsx:120-131 | a shown shift has shift type "Day", the row's id, status and rate, the joined care home name and the hours of `calculateHours` |
| `MyShifts.MyShiftsKeys` | src/components/worker-dashboard/MyShifts.tsx:91-95 | the result always has exactly the three buckets |
| `MyShifts.DroppedStatusIgnored` | src/components/worker-dashboard/MyShifts.tsx:115-138 | a row with any other status (active, rejected) leaves the accumulator unchanged |
| `MyShifts.MyShiftFields` | src/components/worker-dashboard/MyShifts.tsx:126-131 | every shift shown has shift type "Day" and the status of its bucket |
| `MyShifts.SelectedFormatted` | src/components/worker-dashboard/MyShifts.tsx:126-131 | the same, for the reference selection |
| `MyShifts.FetchMyShifts` | src/components/worker-dashboard/MyShifts.tsx:98-144 | without a worker id or with a failed query the tabs stay; otherwise there are exactly the three tabs, each holding the worker's own rows of that status, formatted, in fetch order |
| `MyShifts.SignedOutStaysEmpty` | src/components/worker-dashboard/MyShifts.tsx:91-100 | signed out, the three tabs stay empty |
| `MyShifts.RowTotal` | src/components/worker-dashboard/MyShifts.tsx:75 | the row total exists iff the hours do, is hours × rate, and is zero when the rate or the hours are |
| `MyShifts.RowTotalExample` | src/components/worker-dashboard/MyShifts.tsx:75 | 09:00 to 17:00 at 12.5 totals 100 |
| `MyShifts.RowTotalIsShiftPay` | src/components/worker-dashboard/MyShifts.tsx:75 | the worker's Total column equals the pay the care home's table shows for the same row |
| `PostShift.NewShiftRowFields` | src/components/dashboard/PostShift.tsx:43-55 | the new row is active, belongs to the session's care home, has no worker, and copies date, times, role, paid break, skills and requirements from the form |
| `PostShift.NewShiftRow` | src/components/dashboard/PostShift.tsx:43-55 | the inserted row is active, has no worker, and carries the session's care home and the new id |
| `PostShift.PostedShiftIsOpen` | src/components/dashboard/PostShift.tsx:43-60 | after posting, the table holds the new active row and every earlier row unchanged |
| `PostShift.PostShiftPage.constructor` | src/components/dashboard/PostShift.tsx:23-33 | the form opens blank with one staff member and no paid break |
| `PostShift.PostShiftPage.Edit` | src/components/dashboard/PostShift.tsx:105-233 | an input change replaces the form |
| `PostShift.PostShiftPage.HandleSubmit` | src/components/dashboard/PostShift.tsx:35-90 | without a care-home id nothing is inserted and the form stays; a failed insert keeps the form; a successful one adds the active row, reports its id and resets the form |
| `PostShift.PostShiftPage.Reset` | src/components/dashboard/PostShift.tsx:242 | the Reset button leaves the form exactly as it was |
| `Overview.CountStatus` | src/components/dashboard/Overview.tsx:46 | the count is bounded by the rows, zero iff no row has the status, and full iff all do |
| `Overview.CountStatusAppend` | src/components/dashboard/Overview.tsx:46-48 | counts add up over concatenated results |
| `Overview.CountMatchesTab` | src/components/dashboard/Overview.tsx:46 | the active count equals the size of the matching ManageShifts bucket |
| `Overview.CountIsSelectionSize` | src/components/dashboard/Overview.tsx:46 | the count equals the size of the rows selected by status |
| `Overview.FetchMetrics` | src/components/dashboard/Overview.tsx:35-52 | without a care-home id or with a failed query the metrics stay; otherwise, over the care home's own rows, active shifts is the size of the Manage Shifts active tab, urgent needs is the number of urgent rows, and available workers is 8 |
| `Overview.CountsDisjoint` | src/components/dashboard/Overview.tsx:46-48 | active and urgent shifts together never exceed the rows fetched |
| `Overview.SignedOutMetrics` | src/components/dashboard/Overview.tsx:29-37 | signed out, the metrics keep their initial zeros |
| `Overview.ColourThresholds` | src/components/dashboard/Overview.tsx:157 | red iff available < 0.3 × total, yellow iff between 0.3 and 0.6 of it, green otherwise |
| `Overview.AvailabilityColour` | src/components/dashboard/Overview.tsx:157 | a full roster (available at least the total) is green, and nobody available out of a positive total is red |
| `Overview.ColourMonotone` | src/components/dashboard/Overview.tsx:157 | more available workers never make the bar worse |
| `Overview.AvailabilityWidth` | src/components/dashboard/Overview.tsx:159 | the width is available / total × 100 percent, undefined for a zero total |
| `Overview.AvailabilityBars` | src/components/dashboard/Overview.tsx:143-159 | the sample bars: morning green at 80%, afternoon yellow, night yellow at 50% |
| `ReviewTimesheets.MockBucketsConsistent` | src/components/dashboard/Timesheets.tsx:37-88 | every sample timesheet sits under the key of its own status |
| `ReviewTimesheets.MockTotals` | src/components/dashboard/Timesheets.tsx:171 | the sample totals are hours × rate: 120, 96, 112 and 104 |
| `ReviewTimesheets.TotalAmount` | src/components/dashboard/Timesheets.tsx:171 | the total is non-negative for non-negative hours and rate, and zero when either is |
| `ReviewTimesheets.TotalAmountIsPay` | src/components/dashboard/Timesheets.tsx:171 | the total is the same hours × rate rule as shift pay (`ShiftHours.TimesRate`) |
| `ReviewTimesheets.TotalAmountMonotone` | src/components/dashboard/Timesheets.tsx:171 | at a fixed non-negative rate, more hours never give a smaller total |
| `ReviewTimesheets.BreakLabel` | src/components/dashboard/Timesheets.tsx:164-168 | the label is "Paid" iff the break is paid, "Unpaid" otherwise |
| `ReviewTimesheets.Stars` | src/components/dashboard/Timesheets.tsx:98-101 | five stars are drawn |
| `ReviewTimesheets.StarsFilled` | src/components/dashboard/Timesheets.tsx:98-101 | star i is filled iff i ≤ rating, so exactly `rating` stars are filled |
| `ReviewTimesheets.ReviewPanel.constructor` | src/components/dashboard/Timesheets.tsx:132-137 | nothing selected, empty comment, rating 0, unpaid break |
| `ReviewTimesheets.ReviewPanel.OpenReview` | src/components/dashboard/Timesheets.tsx:180-183 | opening a review selects the timesheet and copies its paid-break flag; rating and comment carry over |
| `ReviewTimesheets.ReviewPanel.ClickStar` | src/components/dashboard/Timesheets.tsx:102 | clicking star i sets the rating to i, filling i stars |
| `ReviewTimesheets.ReviewPanel.SetPaidBreak` | src/components/dashboard/Timesheets.tsx:250-253 | the checkbox sets the paid-break flag |
| `ReviewTimesheets.ReviewPanel.SetComment` | src/components/dashboard/Timesheets.tsx:135 | typing replaces the comment |
| `ReviewTimesheets.ReviewPanel.Approve` | src/components/dashboard/Timesheets.tsx:282-288 | approve only logs; no timesheet changes |
| `ReviewTimesheets.ReviewPanel.Reject` | src/components/dashboard/Timesheets.tsx:274-280 | reject only logs; no timesheet changes |
| `ReviewTimesheets.NoStarsInitially` | src/components/dashboard/Timesheets.tsx:136 | with the initial rating no star is filled |
| `WorkerTimesheets.MockTimesheetsConsistent` | src/components/worker-dashboard/Timesheets.tsx:37-63 | every sample sits under its own status; the totals are 200 and 160 |
| `WorkerTimesheets.Total` | src/components/worker-dashboard/Timesheets.tsx:134 | the total is non-negative for non-negative hours and rate, and zero when either is |
| `WorkerTimesheets.TotalIsPay` | src/components/worker-dashboard/Timesheets.tsx:134 | the total is the same hours × rate rule as shift pay (`ShiftHours.TimesRate`) |
| `WorkerTimesheets.TotalMonotone` | src/components/worker-dashboard/Timesheets.tsx:134 | at a fixed non-negative rate, more hours never give a smaller total |
| `WorkerTimesheets.SignatureCanvas.constructor` | src/components/worker-dashboard/Timesheets.tsx:67 | a new signature pad is unsigned |
| `WorkerTimesheets.SignatureCanvas.HandleSign` | src/components/worker-dashboard/Timesheets.tsx:70-73 | clicking the pad marks it signed and tells the table, which becomes signed |
| `WorkerTimesheets.TimesheetTable.constructor` | src/components/worker-dashboard/Timesheets.tsx:95-98 | nothing selected and not signed |
| `WorkerTimesheets.TimesheetTable.Open` | src/components/worker-dashboard/Timesheets.tsx:142-145 | opening a row selects it and clears the signature; a fresh pad appears only for a pending timesheet |
| `WorkerTimesheets.TimesheetTable.OnSign` | src/components/worker-dashboard/Timesheets.tsx:201 | signing enables submit |
| `WorkerTimesheets.TimesheetTable.ClickSubmit` | src/components/worker-dashboard/Timesheets.tsx:100-103 | submit goes through only when signed, then clears the selection; no timesheet changes |
| `WorkerTimesheets.SignThenSubmit` | src/components/worker-dashboard/Timesheets.tsx:198-213 | for a pending timesheet, submitting succeeds exactly when the pad was signed first |
| `Payslips.ReduceIsSum` | src/components/worker-dashboard/Payslips.tsx:86 | the `reduce` from a seed is the seed plus the sum of the amounts |
| `Payslips.SumAppend` | src/components/worker-dashboard/Payslips.tsx:86 | the sum of deductions adds up over concatenation |
| `Payslips.DetailsDeductions` | src/components/worker-dashboard/Payslips.tsx:83-86 | total deductions are National Insurance plus tax plus the other deductions, and just the first two when there are none |
| `Payslips.DetailsEarnings` | src/components/worker-dashboard/Payslips.tsx:81-82 | with non-negative parts, total earnings are at least each of basic, overtime and holiday pay |
| `Payslips.TableGross` | src/components/worker-dashboard/Payslips.tsx:171-172 | the table's gross pay equals the detail view's total earnings |
| `Payslips.TableDeductions` | src/components/worker-dashboard/Payslips.tsx:173-176 | the table's deductions are NI plus tax plus the plain sum of the other deductions |
| `Payslips.TableAgreesWithDetails` | src/components/worker-dashboard/Payslips.tsx:171-176 | the table's gross and deductions equal the detail view's totals |
| `Payslips.ExtraDeduction` | src/components/worker-dashboard/Payslips.tsx:83-86 | one more deduction raises the total by exactly its amount |
| `Payslips.NetPayNotRecomputed` | src/components/worker-dashboard/Payslips.tsx:141 | the net pay shown is the stored field, even when it disagrees with earnings minus deductions |
| `Payslips.MockPayslipsConsistent` | src/components/worker-dashboard/Payslips.tsx:41-78 | the samples agree: 3850 − 950 = 2900 and 3520 − 910 = 2610, each under its own status |
| `Payslips.PendingListedFirst` | src/components/worker-dashboard/Payslips.tsx:221 | the table lists all pending payslips, then all approved ones, each group in order |
| `Payslips.TableRows` | src/components/worker-dashboard/Payslips.tsx:221 | the pending payslips come first, nothing is listed without either group, and every row comes from one of the groups |
| `Payslips.MockTableOrder` | src/components/worker-dashboard/Payslips.tsx:221 | the sample table lists March then February |
| `SettingsToggle.ToggleSetting` | src/components/worker-dashboard/Settings.tsx:182-193 | length and order are kept; entries with the id flip `enabled`, all others stay |
| `SettingsToggle.ToggleTwice` | src/components/worker-dashboard/Settings.tsx:182-193 | toggling twice restores the list |
| `SettingsToggle.ToggleUnknownId` | src/components/dashboard/Settings.tsx:110-122 | an unknown id leaves the list unchanged |
| `SettingsToggle.ToggleCommutes` | src/components/dashboard/Settings.tsx:110-122 | toggles of two ids commute |
| `SettingsToggle.ToggleFlipsReading` | src/components/dashboard/Settings.tsx:110-122 | the switch of the toggled id flips and every other switch reads the same |
| `SettingsToggle.ToggleKeepsOther` | src/components/worker-dashboard/Settings.tsx:182-193 | another id's switch is unaffected |
| `WorkerSettings.DefaultSettings` | src/components/worker-dashboard/Settings.tsx:29-63 | all three notifications start on; two-factor off and login alerts on |
| `WorkerSettings.SavePayload` | src/components/worker-dashboard/Settings.tsx:128-146 | the update always carries the five profile columns, and carries the password iff a new one was typed |
| `WorkerSettings.ProfileColumns` | src/components/worker-dashboard/Settings.tsx:128-134 | exactly the five profile columns, without a password, and the email as typed |
| `WorkerSettings.SaveMessage` | src/components/worker-dashboard/Settings.tsx:158-163 | the "and password" message appears iff the password was sent |
| `WorkerSettings.WorkerSettingsPage.constructor` | src/components/worker-dashboard/Settings.tsx:69-114 | blank profile and default switches |
| `WorkerSettings.WorkerSettingsPage.EditProfile` | src/components/worker-dashboard/Settings.tsx:224-270 | an input change replaces the profile |
| `WorkerSettings.WorkerSettingsPage.ToggleNotification` | src/components/worker-dashboard/Settings.tsx:308-316 | a notification switch toggles by id |
| `WorkerSettings.WorkerSettingsPage.ToggleSecurity` | src/components/worker-dashboard/Settings.tsx:339-347 | a security switch toggles by id |
| `WorkerSettings.WorkerSettingsPage.HandleSaveChanges` | src/components/worker-dashboard/Settings.tsx:116-180 | the session check runs first, then the password confirmation, and both stop before any write; a failed update changes nothing; a successful one writes the payload to the worker's row and clears typed passwords |
| `WorkerSettings.SaveTouchesOnlyThisWorker` | src/components/worker-dashboard/Settings.tsx:148-151 | other workers' rows are untouched and the worker's row takes the typed email |
| `CareHomeSettings.DefaultSettings` | src/components/dashboard/Settings.tsx:27-67 | timesheet approvals off and the other three notifications on; two-factor off, login alerts on |
| `CareHomeSettings.EditField` | src/components/dashboard/Settings.tsx:150-188 | editing one field replaces it and keeps the other three |
| `CareHomeSettings.EditFieldLaws` | src/components/dashboard/Settings.tsx:150-188 | retyping a field's value changes nothing, and the last edit of a field wins |
| `CareHomeSettings.RowsFor` | src/components/dashboard/Settings.tsx:81-87 | the query keeps every registration with the manager's email and only those |
| `CareHomeSettings.FetchCareHome` | src/components/dashboard/Settings.tsx:79-101 | without an email, when the request fails, or unless exactly one registration matches, the form stays; otherwise it takes that row's name, address, phone and email |
| `CareHomeSettings.RowsForSubset` | src/components/dashboard/Settings.tsx:81-87 | every matched registration comes from the table |
| `CareHomeSettings.SignedOutKeepsBlank` | src/components/dashboard/Settings.tsx:71-80 | signed out, the form stays blank whether or not the request would fail |
| `ChangePassword.PasswordPatch` | src/components/auth/ChangePassword.tsx:64 | the update touches the password column and nothing else |
| `ChangePassword.ChangePasswordPage.constructor` | src/components/auth/ChangePassword.tsx:15-19 | all three fields start empty |
| `ChangePassword.ChangePasswordPage.Edit` | src/components/auth/ChangePassword.tsx:103-135 | an input change replaces the form |
| `ChangePassword.ChangePasswordPage.HandleSubmit` | src/components/auth/ChangePassword.tsx:21-83 | the checks run in order (session, confirmation, current password); each failure writes nothing and navigates nowhere; a failed update likewise; success writes the new password and returns to settings |
| `ChangePassword.OnlyPasswordChanges` | src/components/auth/ChangePassword.tsx:62-65 | only the worker's rows change, and in them only the password column |
| `ChangePassword.NewPasswordVerifies` | src/components/auth/ChangePassword.tsx:45-65 | after a change, at least one row matches the worker's id and the new password |
| `ChangePassword.NewPasswordVerifiesOnce` | src/components/auth/ChangePassword.tsx:45-65 | when only one row carries the worker's id, the `.single()` verification with the new password succeeds after a change |
| `ChangePassword.DuplicateIdFailsVerification` | src/components/auth/ChangePassword.tsx:45-65 | two rows sharing an id and password both take the new password, so `.single()` refuses the next verification |
| `Checklist.RemoveAll` | src/components/dashboard/IncidentReports.tsx:217 | the filter drops every copy of the item and keeps every other item with its multiplicity |
| `Checklist.RemoveAllAppend` | src/components/dashboard/IncidentReports.tsx:217 | filtering distributes over concatenation, so kept items stay in order |
| `Checklist.RemoveAbsent` | src/components/dashboard/Reports.tsx:145-147 | filtering out an absent item changes nothing |
| `Checklist.Toggle` | src/components/dashboard/IncidentReports.tsx:213-218 | the item is listed afterwards iff the box was checked; checking appends exactly it at the end, and unchecking keeps every other item's count |
| `Checklist.CheckUncheck` | src/components/dashboard/Reports.tsx:141-149 | checking then unchecking a new item restores the list |
| `Checklist.UncheckKeepsOthers` | src/components/dashboard/Reports.tsx:145-147 | unchecking one item keeps every other item's box as it was |
| `IncidentReports.SeverityColours` | src/components/dashboard/IncidentReports.tsx:112-125 | minor blue, moderate yellow, serious orange, severe red; gray iff anything else |
| `IncidentReports.StatusColours` | src/components/dashboard/IncidentReports.tsx:127-139 | reported red, resolved green, dismissed and anything else gray |
| `IncidentReports.SeverityColor` | src/components/dashboard/IncidentReports.tsx:112-125 | the colour is one of the five severity classes |
| `IncidentReports.StatusColor` | src/components/dashboard/IncidentReports.tsx:127-139 | the colour is one of the three status classes |
| `IncidentReports.IndexOf` | src/components/dashboard/IncidentReports.tsx:317 | `indexOf` finds the first occurrence, or −1 iff there is none |
| `IncidentReports.IndexOfUnique` | src/components/dashboard/IncidentReports.tsx:317 | a position holding the character with none before it is the index found |
| `IncidentReports.ReplaceFirstUnderscore` | src/components/dashboard/IncidentReports.tsx:317 | `replace("_", " ")` keeps the length, turns only the first underscore into a space, and leaves text without one unchanged |
| `IncidentReports.ReplaceAfterPrefix` | src/components/dashboard/IncidentReports.tsx:374 | whatever follows the first underscore, further underscores included, is kept |
| `IncidentReports.BehaviourLabel` | src/components/dashboard/IncidentReports.tsx:317 | "unprofessional_behavior" reads "unprofessional behavior" |
| `IncidentReports.ViolationLabel` | src/components/dashboard/IncidentReports.tsx:374 | "policy_violation" reads "policy violation" |
| `IncidentReports.OnlyFirstUnderscore` | src/components/dashboard/IncidentReports.tsx:317 | "negligence" is unchanged and "a_b_c" reads "a b_c" |
| `IncidentReports.Capitalize` | src/components/dashboard/IncidentReports.tsx:324-325 | the first character is upper-cased and the rest kept |
| `IncidentReports.CapitalizeLabels` | src/components/dashboard/IncidentReports.tsx:332-333 | capitalising is idempotent; "moderate" and "reported" read "Moderate" and "Reported" |
| `IncidentReports.MockIncidentsConsistent` | src/components/dashboard/IncidentReports.tsx:72-110 | each sample incident sits under its own status; resolved and dismissed are empty |
| `IncidentReports.WitnessToggle` | src/components/dashboard/IncidentReports.tsx:212-218 | a witness box is ticked iff checked, and unticking one keeps the others |
| `Reports.FirstIndex` | src/components/dashboard/Reports.tsx:94-96 | the first config of the type, or −1 iff none has it |
| `Reports.FindConfig` | src/components/dashboard/Reports.tsx:94-96 | `find` returns the first config of the type and nothing iff none has it |
| `Reports.CurrentConfigDefined` | src/components/dashboard/Reports.tsx:34-88 | every report type has a config, so `currentConfig` is always defined and of the selected type |
| `Reports.CurrentConfig` | src/components/dashboard/Reports.tsx:94-96 | a found config is one of the four and of the selected type |
| `Reports.InitialForm` | src/components/dashboard/Reports.tsx:91-92 | the form opens on incident reports with their six metrics, none checked |
| `Reports.ChangeType` | src/components/dashboard/Reports.tsx:105 | changing the type keeps every metric's box as it was |
| `Reports.ToggleMetric` | src/components/dashboard/Reports.tsx:140-149 | a metric box is ticked afterwards iff checked; checking appends the metric |
| `Reports.ToggleMetricLaws` | src/components/dashboard/Reports.tsx:141-149 | unchecking keeps the other boxes, and checking then unchecking a new metric restores the form |
| `Reports.HiddenMetricStaysSelected` | src/components/dashboard/Reports.tsx:105 | a metric checked under incidents stays selected after switching to shifts, whose list does not show it |
| `Notifications.TypeStyleCases` | src/components/dashboard/Notifications.tsx:48-57 | warning yellow, success green, blue iff any other type |
| `Notifications.TypeStyles` | src/components/dashboard/Notifications.tsx:48-57 | the style is one of the three: yellow, green or blue |
| `Notifications.UnreadCount` | src/components/dashboard/Notifications.tsx:67 | the unread count is bounded by the list, zero iff all are read, full iff none are |
| `Notifications.UnreadCountAppend` | src/components/dashboard/Notifications.tsx:67 | counts add up over concatenated lists |
| `Notifications.Buttons` | src/components/dashboard/Notifications.tsx:84-102 | the mark-as-read button shows iff the notification is unread; dismiss always shows |
| `Notifications.UnreadMatchesButtons` | src/components/dashboard/Notifications.tsx:67-94 | the unread count equals the number of mark-as-read buttons |
| `Notifications.CardEmphasis` | src/components/dashboard/Notifications.tsx:78 | unread cards are emphasised, read ones dimmed |
| `Notifications.DefaultUnread` | src/components/dashboard/Notifications.tsx:19-41 | two of the three default notifications are unread; the warning is yellow |
| `Registration.UploadedDocuments` | src/components/auth/Registration.tsx:493-500 | each document is listed iff its field is set |
| `Registration.GeneratedPassword` | src/components/auth/Registration.tsx:68 | the password is the last eight characters of the random text |
| `Registration.GeneratedWorkerId` | src/components/auth/Registration.tsx:69 | the worker id is characters 2 to 10 of the random text |
| `Registration.WorkerRow` | src/components/auth/Registration.tsx:73 | the inserted row is every form field plus the generated id and password |
| `Registration.InitialFormBlank` | src/components/auth/Registration.tsx:21-55 | every text field starts empty and every document null |
| `Registration.InitialFormGates` | src/components/auth/Registration.tsx:53-54 | both agreements start unticked, so submit starts disabled; no NMC field, no documents |
| `Registration.AgreementGate` | src/components/auth/Registration.tsx:549 | submit is enabled iff both agreements are ticked |
| `Registration.SubmitEnabled` | src/components/auth/Registration.tsx:549 | submit can only be enabled once both agreement fields have been set |
| `Registration.NurseOnlyNmc` | src/components/auth/Registration.tsx:336 | the NMC PIN field shows iff the chosen role is nurse |
| `Registration.NmcShown` | src/components/auth/Registration.tsx:336 | the NMC field can only show once a role has been chosen |
| `Registration.RegistrationPage.constructor` | src/components/auth/Registration.tsx:60 | the form starts as the initial state |
| `Registration.RegistrationPage.HandleInputChange` | src/components/auth/Registration.tsx:62-64 | an input change replaces only the named field |
| `Registration.RegistrationPage.HandleSubmit` | src/components/auth/Registration.tsx:66-95 | a failed insert writes nothing, shows the failure notice and stays; a successful one adds the row and goes to worker sign-in when data comes back; the form is kept |
| `CareHomeRegistration.InitialFormBlank` | src/components/auth/CareHomeRegistration.tsx:20-39 | every text field starts empty and every agreement unticked |
| `CareHomeRegistration.GeneratedPassword` | src/components/auth/CareHomeRegistration.tsx:56 | the password is characters 2 to 10 of the random text |
| `CareHomeRegistration.GeneratedCareHomeId` | src/components/auth/CareHomeRegistration.tsx:59-60 | the id is "CH" plus the upper-cased characters 2 to 8 of the random text, with no lower-case letter left |
| `CareHomeRegistration.CareHomeRow` | src/components/auth/CareHomeRegistration.tsx:64 | the inserted row is every form field plus the generated id and password |
| `CareHomeRegistration.CareHomeIdExample` | src/components/auth/CareHomeRegistration.tsx:59-60 | "0.k3x9ab7q" gives "CHK3X9AB" |
| `CareHomeRegistration.CareHomeRegistrationPage.constructor` | src/components/auth/CareHomeRegistration.tsx:43 | the form starts as the initial state |
| `CareHomeRegistration.CareHomeRegistrationPage.HandleInputChange` | src/components/auth/CareHomeRegistration.tsx:45-47 | an input change replaces only the named field |
| `CareHomeRegistration.CareHomeRegistrationPage.ResetForm` | src/components/auth/CareHomeRegistration.tsx:49-51 | reset, also used by Cancel, restores the initial state exactly |
| `CareHomeRegistration.CareHomeRegistrationPage.HandleSubmit` | src/components/auth/CareHomeRegistration.tsx:53-83 | submit is not gated on the agreements; a failed insert keeps table and form, a successful one adds the row and clears the form |
| `JsStrings.Substring` | src/components/auth/CareHomeRegistration.tsx:56 | `substring` within bounds is the slice, and never longer than asked |
| `JsStrings.SliceLast` | src/components/auth/Registration.tsx:68 | `slice(-n)` is a suffix of at most n characters |
| `JsStrings.UpperAscii` | src/components/auth/CareHomeRegistration.tsx:60 | upper-casing keeps the length, turns each lower-case letter into its own capital and keeps every other character |
| `JsStrings.UpperChar` | src/components/dashboard/IncidentReports.tsx:324 | a lower-case letter becomes its own capital, 32 code points lower; anything else is kept |
| `JsStrings.UpperAsciiLaws` | src/components/auth/CareHomeRegistration.tsx:60 | upper-casing distributes over concatenation and is idempotent |
| `Records.SetField` | src/components/auth/Registration.tsx:63 | a spread with one field changes only that field |
| `Records.Spread` | src/components/auth/Registration.tsx:73 | in a spread, the later properties win and the others stay |
| `Records.UpdateWhere` | src/components/auth/ChangePassword.tsx:62-65 | `update(...).eq(key, v)` patches every matching row and leaves the others |
| `Records.CountWhere2` | src/components/auth/ChangePassword.tsx:45-50 | the match count is zero iff no row matches both columns |
| `Records.CountWhere2Unique` | src/components/auth/ChangePassword.tsx:45-50 | when only one row carries the first column's value, at most one row matches both columns |
| `Records.RecordTable.Insert` | src/components/auth/Registration.tsx:71-74 | an insert appends the row, or nothing changes when it fails |
| `Records.RecordTable.Update` | src/components/worker-dashboard/Settings.tsx:148-151 | an update patches the matching rows, or nothing changes when it fails |
| `Sessions.LoadCareHome` | src/lib/hooks/useSession.ts:12-15 | the session is read back iff the key is stored |
| `Sessions.LoadWorker` | src/lib/hooks/useWorkerSession.ts:12-15 | the same for the worker slot |
| `Sessions.StoreCareHome` | src/lib/hooks/useSession.ts:8-10 | after `setSession(s)`, `getSession` returns s; the worker slot and every other key stay |
| `Sessions.RemoveCareHome` | src/lib/hooks/useSession.ts:17-19 | after `clearSession`, `getSession` returns null; the worker slot and other keys stay |
| `Sessions.StoreWorker` | src/lib/hooks/useWorkerSession.ts:8-10 | after `setSession(s)`, `getSession` returns s; the care-home slot stays |
| `Sessions.RemoveWorker` | src/lib/hooks/useWorkerSession.ts:17-19 | after `clearSession`, `getSession` returns null; the care-home slot stays |
| `Sessions.LastCareHomeWriteWins` | src/lib/hooks/useSession.ts:9 | a second `setSession` overwrites the first |
| `Sessions.LastWorkerWriteWins` | src/lib/hooks/useWorkerSession.ts:9 | the same for the worker slot |
| `Sessions.CareHomeRouteRedirect` | src/components/auth/ProtectedRoute.tsx:13-15 | the care-home pages redirect to sign-in iff no session is stored |
| `Sessions.WorkerRouteRedirect` | src/components/auth/WorkerProtectedRoute.tsx:12-14 | the worker pages redirect to sign-in iff no session is stored |
| `Sessions.SessionStore.SetCareHomeSession` | src/lib/hooks/useSession.ts:8-10 | storage takes the write; the care-home session reads back and the worker one is unchanged |
| `Sessions.SessionStore.ClearCareHomeSession` | src/lib/hooks/useSession.ts:17-19 | the care-home session reads null and the worker one is unchanged |
| `Sessions.SessionStore.SetWorkerSession` | src/lib/hooks/useWorkerSession.ts:8-10 | the worker session reads back and the care-home one is unchanged |
| `Sessions.SessionStore.ClearWorkerSession` | src/lib/hooks/useWorkerSession.ts:17-19 | the worker session reads null and the care-home one is unchanged |
| `Sessions.EmptyStorageHasNoSession` | src/lib/hooks/useSession.ts:13-14 | with nothing stored both hooks read null and both guards redirect |
| `Sessions.WorkerSessionCycle` | src/lib/hooks/useWorkerSession.ts:8-19 | a worker sign-in then sign-out leaves no worker session and the care-home session as it was |

## Left out

- Database I/O is not modelled. Queries, inserts and updates are atomic steps on abstract tables, and a request's failure is a boolean parameter. The realtime channel subscriptions that refetch on change are event delivery and are left out.
- Concurrency is not modelled. Two clients applying for, or deciding on, the same shift is a race. The model only records that apply, approve and reject have no status guard (`Shifts.ApplyAfterApproveLosesApproval`, `Shifts.LastDecisionWins`).
- Random text (`Math.random().toString(36)`) is a parameter of the registration submits.
- The database-assigned shift id is a parameter of `PostShift.PostShiftPage.HandleSubmit`, and so is the error message of a failed insert.
- `parseFloat`/`parseInt` of the post-shift rate and staff count are parameters.
- `toFixed(2)`, the `£` display, dates and clock time in the signature widgets are formatting and clock reads, and are left out.
- `ShiftHours.TimesRateLinear` and every other pay, hour and timesheet total are stated over exact `real` arithmetic. The source computes with IEEE-754 doubles, whose rounding (for example `minutes / 60`) is not captured, so linearity and monotonicity hold of the model and only up to rounding in the source.
- `Payslips.ReduceIsSum` and the other payslip amounts use whole pence (`int`) where the source holds pounds as JavaScript numbers. The sample amounts are exact in pence; the rounding of fractional pounds in doubles is not captured.
- JavaScript `NaN` from an unparsable time is `None`. `Number` is modelled for digit strings and the empty string only. Other numeric spellings (signs, decimals, spaces) also read as `None`.
- Upper-casing covers ASCII letters only. The random base-36 text and the labels involved are ASCII.
- JSON serialisation in the session hooks is assumed to round-trip and is not modelled.
- Fetching the worker details shown in the ManageShifts dialog is a read-only query and is not modelled.
- The profile fetch of the worker Settings screen is not modelled. Its effect depends on `getSession`, which `useWorkerSession` rebuilds on every render (`src/lib/hooks/useWorkerSession.ts:7-22`), so the fetch re-runs after every render and replaces the form with the stored row each time (`src/components/worker-dashboard/Settings.tsx:80-107`).
- `WorkerSettings.WorkerSettingsPage.EditProfile`: in the source a typed profile lasts only until the next profile fetch returns and overwrites it with the stored row, so `HandleSaveChanges` saves whatever the form holds at the click. The model keeps an edit until the next edit or save.
- `Overview.FetchMetrics`: the effect depends on `session`, a fresh `JSON.parse` object on every render (`src/lib/hooks/useSession.ts:12-15`, `src/components/dashboard/Overview.tsx:27-54`), so the metrics fetch repeats after every `setMetrics`. With an unchanged table each repeat yields the same metrics; the model is one fetch.
- A day is added only when the hour difference is negative. The minute difference is never normalised, so a same-hour shift ending earlier gives a negative duration (`ShiftHours.SameHourQuirk`).
- `CareHomeSettings.FetchCareHome` runs only when `user?.email` is set (`src/components/dashboard/Settings.tsx:70-80`). `UserProvider` starts `user` at null (`src/lib/contexts/UserContext.tsx:25`) and no screen in this model calls `setUser` with a user, since sign-in keeps the session in local storage instead. So this fetch probably never runs from the pages shown; it is modelled anyway.
- In the worker Settings screen no input sets `newPassword` or `confirmPassword`, so the password branch of the save cannot be reached from the page. It is modelled anyway, with the fields as optional text.
- The Report Incident form of the incident screen renders `Checkbox` without importing it (`src/components/dashboard/IncidentReports.tsx:210`), so opening the form fails and the witness boxes cannot be reached from the page. They are modelled anyway (`IncidentReports.WitnessToggle`).
- The `careworkers` table is not assumed to hold each `careworkerid` once. `ChangePassword.NewPasswordVerifiesOnce` needs that, and `ChangePassword.DuplicateIdFailsVerification` shows what happens without it.
- The registration success notice for a care home has no description; the model uses the empty text for it.
- `Registration.RegistrationPage.HandleSubmit`: `data` is an array on success, so `if (data)` is always taken in practice. The model keeps it as a parameter.
- Presentation components (sidebars, headers, layouts, static worker lists) and the sign-in screens are outside this model.
