# Alivio: a verified model of the record store and the screen logic

Alivio is a small migraine diary that runs in the browser. The user logs
episodes ("crises"): pain, migraine, medication, period or rest, each with a
date, start and end times, an intensity from 0 to 10, tags and
medications. The home screen shows statistics and a recommendation, and the
calendar shows icons per day.

This project models, in Dafny:

- **The record store** (`storeService.ts`), in `store.dfy`. It is a class
  `RecordStore` holding:
  - the two in-memory caches (`crisesCache`, `profileCache`);
  - the key-value store behind them (`localStorage`, as a map from key to
    parsed value).

  Every store operation is a method. Each one states the new caches, the
  new key-value store, and the list and profile the next read returns.
- **The statistics and insights** that the store computes (`getStats`,
  `getClinicalInsights`), in `analytics.dfy`. Statistics are a function;
  the tallies are loops over maps.
- **The record types** and the `{ ...c, ...updates }` merge, in `types.dfy`.
- **The screen logic** that decides what is saved and shown:
  - the crisis editor: form, tag toggles, medication list, duration text,
    the record it saves (`crisis_details.dfy`);
  - the calendar: filters, day icons, month grid, add guard, delete
    (`calendar.dfy`);
  - the home screen: mount, recommendation, quote rotation (`home.dfy`);
  - onboarding (`onboarding.dfy`);
  - the breathing exercise (`biofeedback.dfy`);
  - notifications (`notifications.dfy`).

  Component state that handlers update in place is a class. Pure helpers
  are functions.
- **The benchmarks' optimised routines**, each proved to compute what the
  routine it replaces computes:
  - the single-pass statistics (`stats_bench.dfy`);
  - the group-by-date maps of the calendar benchmarks (`calendar_bench.dfy`).
- **Shared helpers**: `Filter` (`collections.dfy`), and decimal text and
  JavaScript `trim` (`text.dfy`).

Dates of records are integer keys: millisecond timestamps for the
statistics, day keys for the calendar. The current time, the clock reading
`HH:MM` and fresh random identifiers are parameters.

## Model

| member | source | states |
|---|---|---|
| Types.MergeEmpty | storeService.ts:38 | An update with no fields leaves the record unchanged. |
| Types.MergeIdempotent | storeService.ts:38 | Applying the same update twice equals applying it once. |
| Types.MergeFullPatch | storeService.ts:36-41 | An update carrying every field except the id replaces the record but keeps its id. |
| Collections.FilterAppend | storeService.ts:45 | Filtering a concatenation filters each part. |
| Collections.FilterKeepsAll | storeService.ts:45 | A filter that every element passes returns the list unchanged. |
| Collections.FilterSubMultiset | storeService.ts:45 | A filter only drops elements; it never duplicates one. |
| Collections.WithoutSpec | screens/CrisisDetailsScreen.tsx:59 | Filtering out a value removes all its copies, keeps every other element with its count, and keeps their order. |
| Store.ValidateImport | storeService.ts:139-142 | A backup is refused exactly when the text does not parse, `version` is falsy or `crises` is not an array; otherwise it yields its records and profile. |
| Store.ExportAccepted | storeService.ts:125-135 | What `exportData` produces is always accepted by the import check, with the same records and profile. |
| Store.UpdateById | storeService.ts:36-41 | Same length and order; records with the id are merged with the update, every other record is unchanged. |
| Store.UpdateUnknownId | storeService.ts:38 | Updating an id that no record has changes nothing. |
| Store.UpdateWithCompleteRecord | storeService.ts:36-41 | An update with a whole record makes each matching entry that record, under the entry's own id. |
| Store.RemoveByIdSpec | storeService.ts:43-48 | No record with the id remains; every other record is kept; nothing is duplicated; deleting an absent id changes nothing. |
| Store.RecordStore.constructor | storeService.ts:4-9 | The application starts with both caches empty over the given key-value store. |
| Store.RecordStore.GetCrises | storeService.ts:12-22 | Returns the cache when loaded; otherwise returns the stored list. A missing key gives `[]` and is cached; unparseable text gives `[]` and is not cached. The visible list does not change. |
| Store.RecordStore.SaveCrisis | storeService.ts:24-34 | The new record is the draft with the fresh id, appended last. The cache and the crises key hold the new list; the profile is untouched. Ids stay unique when the fresh id is new. |
| Store.RecordStore.UpdateCrisis | storeService.ts:36-41 | The list becomes `UpdateById` of the old list, written to the cache and the crises key. |
| Store.RecordStore.DeleteCrisis | storeService.ts:43-48 | The list becomes `RemoveById` of the old list, written to the cache and the crises key. |
| Store.RecordStore.GetProfile | storeService.ts:50-60 | Returns the cached profile, else the stored one (caching it), else none. |
| Store.RecordStore.SaveProfile | storeService.ts:62-65 | The next read returns the saved profile; the records are untouched. |
| Store.RecordStore.ClearAllData | storeService.ts:67-72 | Both caches are reset and both keys removed, so there are no records and no profile; other keys stay. |
| Store.RecordStore.GetStats | storeService.ts:74-98 | Returns `ComputeStats` of the current records and changes none of them. |
| Store.RecordStore.GetClinicalInsights | storeService.ts:100-123 | None exactly when there are no records; otherwise each field is a most frequent tag of its kind, or the fallback text when there is none. |
| Store.RecordStore.ExportData | storeService.ts:125-135 | Returns a version-1 snapshot of the current records and profile. |
| Store.RecordStore.ImportData | storeService.ts:137-156 | Succeeds exactly when the import check accepts (storage writes are taken to succeed). When the check refuses, nothing changes. On success the records are replaced, and the profile only when the backup has one. |
| Store.ExportImportRoundTrip | storeService.ts:125-156 | Importing one's own export succeeds and restores the same records and profile. |
| Store.SaveThenClear | storeService.ts:62-72 | A saved profile is read back; after clearing there is no profile, no records, and neither key. |
| Analytics.MaxDate | storeService.ts:85-88 | The date of the first record after sorting newest first is a record's date, and no record is later. |
| Analytics.DaysSince | storeService.ts:89-96 | Whole days elapsed (floor), never negative. |
| Analytics.ComputeStats | storeService.ts:74-98 | `totalHistory` counts all records and `totalRecent` the last 30 days. The average is absent exactly when no record is recent, else it is their sum over their count. `daysFree` is 0 for no records, else the days since the latest record. |
| Analytics.DaysFreeZeroWhenLatestNotPast | storeService.ts:86-96 | A record dated now or later gives 0 free days. |
| Analytics.EmptyStats | storeService.ts:81-96 | No records: zero counts, average "0" (absent), zero free days. |
| Analytics.ThreeRecordExample | storeService.ts:74-98 | Records 40, 25 and 5 days old with intensities 4, 6 and 8 give 2 recent, mean 14/2, 3 total and 5 free days. |
| Analytics.CountTags | storeService.ts:109-110 | The loop leaves a tally map counting every tag seen so far. |
| Analytics.CountEffective | storeService.ts:111-115 | Only medications with total or moderate relief are added to the tally. |
| Analytics.TopTag | storeService.ts:118-120 | A tag of highest count; the fallback text when nothing was counted, or when the winning tag is the empty (falsy) string. |
| Analytics.ClinicalInsights | storeService.ts:100-123 | None exactly for no records; otherwise the three top tags, with fallbacks "Ninguno", "No registrado" and "Difusa". |
| Text.NatTextRoundTrip | screens/CrisisDetailsScreen.tsx:84 | Decimal text of a number is digits that read back as that number; one digit below 10, two below 100. |
| Text.Pad2Value | screens/BiofeedbackScreen.tsx:29 | `padStart(2, '0')` of a number below 100 is two digits reading back as the number. |
| Text.TrimEmptyIffBlank | screens/OnboardingScreen.tsx:45 | `trim()` is empty exactly when the text is all white space. |
| CrisisDetails.Toggle | screens/CrisisDetailsScreen.tsx:58-60 | The item is in the result exactly when it was not in the list; every other item's membership is unchanged. An absent item is appended at the end. A present item is removed with all its copies, and the other items keep their order and counts. |
| CrisisDetails.ToggleTwice | screens/CrisisDetailsScreen.tsx:58-60 | Selecting then deselecting a tag restores the list. |
| CrisisDetails.SplitOn | screens/CrisisDetailsScreen.tsx:78-79 | `split` returns at least one part, no part holds the separator, and joining the parts gives the text back. |
| CrisisDetails.SplitJoin | screens/CrisisDetailsScreen.tsx:78-79 | Splitting parts joined by the separator gives the parts back. |
| CrisisDetails.NumberOfDigits | screens/CrisisDetailsScreen.tsx:78-79 | `Number` of a digit string is its decimal value. |
| CrisisDetails.JsRem | screens/CrisisDetailsScreen.tsx:83 | JavaScript `%` agrees with the mathematical remainder on non-negative operands and stays within the divisor. |
| CrisisDetails.ClockTextMinutes | screens/CrisisDetailsScreen.tsx:78-80 | A clock reading `HH:MM` is five characters and reads as `60 * HH + MM` minutes. |
| CrisisDetails.DurationOfMinutes | screens/CrisisDetailsScreen.tsx:80-84 | The duration text is the minutes from start to end, wrapped into one day, as "Hh Mm" with fewer than 24 hours. |
| CrisisDetails.WrapDay | screens/CrisisDetailsScreen.tsx:80-81 | Adding 1440 to a negative difference is the difference modulo one day. |
| CrisisDetails.DurationOfReadings | screens/CrisisDetailsScreen.tsx:76-85 | For two non-empty fields that read as clock times, the duration is the wrapped elapsed minutes as "Hh Mm". |
| CrisisDetails.SameTimeIsZero | screens/CrisisDetailsScreen.tsx:76-85 | Equal start and end times give "0h 0m". |
| CrisisDetails.AcrossMidnight | screens/CrisisDetailsScreen.tsx:80-84 | 22:30 to 01:15 gives "2h 45m". |
| CrisisDetails.EmptyFieldNoDuration | screens/CrisisDetailsScreen.tsx:77 | An empty start or end field gives no duration text. |
| CrisisDetails.MissingMinutes | screens/CrisisDetailsScreen.tsx:78-84 | A time without a colon gives "NaNh NaNm". |
| CrisisDetails.SavedRecordOnCalendar | screens/CrisisDetailsScreen.tsx:88-109 | A positive intensity saves a pain record (matches the pain filter, shows the bolt). Medications show the pill. The period flag decides the period filter and shows the drop. Otherwise medication beats the chosen type. |
| CrisisDetails.ReopenAndSaveKeepsRecord | screens/CrisisDetailsScreen.tsx:24-53 | Reopening a saved record in the same mode and saving it unchanged stores the same record. |
| CrisisDetails.EditFromCalendarDropsDetails | screens/CrisisDetailsScreen.tsx:26 | Opened for editing without a mode, the form is in lite mode, so saving it unchanged clears the localization, pain-quality and symptom lists. |
| CrisisDetails.CrisisEditor.constructor | screens/CrisisDetailsScreen.tsx:24-56 | The form starts from the edited record's fields with the `\|\|` fallbacks, or from the defaults (selected date, pain, current time). |
| CrisisDetails.CrisisEditor.SetLite | screens/CrisisDetailsScreen.tsx:133-134 | The mode buttons set lite mode. |
| CrisisDetails.CrisisEditor.SetIntensity | screens/CrisisDetailsScreen.tsx:175 | The slider sets the intensity. |
| CrisisDetails.CrisisEditor.SetTempMedication | screens/CrisisDetailsScreen.tsx:239-240 | The small form's inputs set the pending name and dose. |
| CrisisDetails.CrisisEditor.ToggleTag | screens/CrisisDetailsScreen.tsx:198-218 | Toggles the item in exactly one of the three tag lists. |
| CrisisDetails.CrisisEditor.AddMedication | screens/CrisisDetailsScreen.tsx:62-74 | Without a name nothing changes. Otherwise it appends a moderate-relief entry and resets the small form. Medication ids stay distinct when the fresh id is new. |
| CrisisDetails.CrisisEditor.BuildRecord | screens/CrisisDetailsScreen.tsx:88-109 | The record built from the current form: type by intensity, then medications, then period; tag lists empty in lite mode; first medication's name and dose. |
| CrisisDetails.CrisisEditor.SetDate | screens/CrisisDetailsScreen.tsx:160 | The date input sets the day and nothing else. |
| CrisisDetails.CrisisEditor.TogglePeriod | screens/CrisisDetailsScreen.tsx:150 | The period switch flips the flag and nothing else. |
| CrisisDetails.CrisisEditor.SetStartTime | screens/CrisisDetailsScreen.tsx:164 | The start-time input sets the start time and nothing else. |
| CrisisDetails.CrisisEditor.SetImpact | screens/CrisisDetailsScreen.tsx:259 | An impact button sets the functional impact and nothing else. |
| CrisisDetails.CrisisEditor.SetNotes | screens/CrisisDetailsScreen.tsx:265 | The notes box sets the notes and nothing else. |
| CrisisDetails.CrisisEditor.RemoveMedication | screens/CrisisDetailsScreen.tsx:234 | The delete button removes the entries with that id; every other entry stays, in order, and the ids stay distinct. |
| CrisisDetails.WithoutMedicationSpec | screens/CrisisDetailsScreen.tsx:234 | Removing by id leaves no entry with that id, keeps every other entry in order, and keeps ids distinct. |
| CrisisDetails.NewEntryHasNoDuration | screens/CrisisDetailsScreen.tsx:33-36 | No input sets the end time, so a new entry starts with an empty end time and is saved with an empty end time and an empty duration (the duration is "" without an end time, lines 76-77). |
| CrisisDetails.CrisisEditor.Save | screens/CrisisDetailsScreen.tsx:87-117 | When editing, the record with that id is replaced by the built record under its own id. Otherwise the built record is appended under the fresh id. |
| Calendar.DayCrisesSpec | screens/CalendarScreen.tsx:56-63 | The day's list is exactly that day's records matching the filter; "Todos" lists the whole day; no filter lists more than the day. |
| Calendar.IconsFor | screens/CalendarScreen.tsx:65-80 | At most four icons in fixed order; each icon is present exactly when some record of the day has its property. |
| Calendar.DayIcons | screens/CalendarScreen.tsx:65-80 | The icon-building code returns `IconsFor` of the day's records. |
| Calendar.FiltersAgreeWithIcons | screens/CalendarScreen.tsx:56-80 | The pain, period and rest filters list something exactly when the day shows their icon; the medication filter listing something implies the pill. |
| Calendar.ListedIffDayMatches | screens/CalendarScreen.tsx:56-63 | The list is non-empty exactly when some record of the day matches the filter. |
| Calendar.StartOffset | screens/CalendarScreen.tsx:45-46 | The Monday-first offset is 0..6 and is the weekday of the 1st moved back one day. |
| Calendar.DayInItsWeekdayColumn | screens/CalendarScreen.tsx:45-54 | Every day of the month falls in the grid column of its own weekday. |
| Calendar.MonthGrid | screens/CalendarScreen.tsx:45-54 | In the grid of previous-month cells followed by the month's days, day d is the cell at offset + d - 1, that cell shows d, it sits in the column of d's weekday, and the cell before the 1st is the previous month's last day. |
| Calendar.PrevMonthFill | screens/CalendarScreen.tsx:54 | `startOffset` leading cells numbered from the previous month. |
| Calendar.PrevMonthFillEndsAtLastDay | screens/CalendarScreen.tsx:54 | The leading cells are consecutive and end with the previous month's last day. |
| Calendar.AddGuard | screens/CalendarScreen.tsx:367 | The `selectedDay <= today` comparison on `YYYY-MM-DD` strings holds exactly when the selected date's day key is at most today's, so adding is offered today and earlier, never later. |
| Calendar.CalendarView.constructor | screens/CalendarScreen.tsx:12-15 | As written: the record list starts empty, the selected day is today, the filter is "Todos"; adding is offered. |
| Calendar.CalendarView.Open | screens/CalendarScreen.tsx:14 | Corrected: the record list is the store's list, read without changing it; today is selected and adding is offered. |
| Calendar.CalendarView.SelectDay | screens/CalendarScreen.tsx:235 | Clicking a day selects it; afterwards the add button (line 367) is offered exactly when that day is today or earlier. |
| Calendar.CalendarView.SetFilter | screens/CalendarScreen.tsx:154 | A filter button sets the active filter. |
| Calendar.CalendarView.Delete | screens/CalendarScreen.tsx:298-302 | After deleting, the screen's list is the store's list, which is the old list without that id. |
| Calendar.UnloadedCalendarIsBlank | screens/CalendarScreen.tsx:14 | With the list never loaded, no day shows an icon or lists a record, whatever the store holds. |
| Calendar.LoadedCalendarShowsStoredPain | screens/CalendarScreen.tsx:65-74 | Once loaded, a day shows the bolt exactly when the store has a migraine or pain record for it. |
| Home.RecommendationFor | screens/HomeScreen.tsx:28-49 | "Sueño" exactly when more than 3 days free. "Estrés" exactly when at most 3 days free and the average is above 5. "Hidratación" otherwise. |
| Home.QuietMonthIsNotStress | screens/HomeScreen.tsx:45-49 | With no record in the last 30 days the recommendation is never stress. |
| Home.IntenseMonthIsStress | screens/HomeScreen.tsx:45-49 | A recent record, at most 3 free days and every recent intensity at least 6 give the stress recommendation. |
| Home.FirstThree | screens/HomeScreen.tsx:43 | The first three records in stored order (fewer when there are fewer). |
| Home.Mount | screens/HomeScreen.tsx:30-50 | Redirects to onboarding exactly when there is no profile. Otherwise shows the profile, the store's statistics, the first three records and the recommendation, leaving the store's contents unchanged. |
| Home.LoadDashboard | screens/HomeScreen.tsx:36-49 | The dashboard for a profile: statistics, first three records, recommendation. |
| Home.NewRecordNotListed | screens/HomeScreen.tsx:41-43 | With three or more records, a newly saved record is not among those shown. |
| Home.IndexOf | screens/HomeScreen.tsx:56 | `indexOf`: the first position of the quote, or -1 exactly when it is absent. |
| Home.QuoteCycle | screens/HomeScreen.tsx:53-60 | After n ticks from quote i the card shows quote (i + n) mod 9. |
| Home.UnknownQuoteRestarts | screens/HomeScreen.tsx:56-58 | A quote not in the list is followed by the first quote. |
| Home.QuoteCard.constructor | screens/HomeScreen.tsx:25-26 | The card starts at the first quote with key 0. |
| Home.QuoteCard.Tick | screens/HomeScreen.tsx:53-60 | Each tick moves to the next quote in the ring and increments the key. |
| Onboarding.FindType | screens/OnboardingScreen.tsx:46 | `find`: none exactly when no type has the id; otherwise the first type with it. |
| Onboarding.ListedTypeTitle | screens/OnboardingScreen.tsx:46-49 | A listed type saves its own title. |
| Onboarding.UnlistedTypeTitle | screens/OnboardingScreen.tsx:49 | An unknown type saves "No definido". |
| Onboarding.PickerTitles | screens/OnboardingScreen.tsx:32-49 | The default type saves "Migraña Común"; the two others save their own names. |
| Onboarding.OnboardingForm.constructor | screens/OnboardingScreen.tsx:40-42 | Empty name, type "Sin Aura", first avatar; start is disabled. |
| Onboarding.OnboardingForm.SetName | screens/OnboardingScreen.tsx:84 | Typing sets the name; start is enabled exactly when the name is not blank. |
| Onboarding.OnboardingForm.SelectType | screens/OnboardingScreen.tsx:121 | Sets the chosen type. |
| Onboarding.OnboardingForm.SelectAvatar | screens/OnboardingScreen.tsx:97 | Sets the chosen avatar. |
| Onboarding.OnboardingForm.Start | screens/OnboardingScreen.tsx:44-54 | Blank name: nothing is stored. Otherwise the profile is saved and the records are untouched. |
| Onboarding.StartedProfileNotBlank | screens/OnboardingScreen.tsx:44-52 | A started profile has a non-blank name and a non-empty type title. |
| Biofeedback.NextPhase | screens/BiofeedbackScreen.tsx:15-17 | Every phase moves to a different one. |
| Biofeedback.PhaseCycle | screens/BiofeedbackScreen.tsx:15-17 | Three phase changes return to the start. |
| Biofeedback.Advance | screens/BiofeedbackScreen.tsx:13-20 | The counter stays within 1..4. The phase changes exactly when the counter was 1, and then the counter restarts at 4. |
| Biofeedback.Countdown | screens/BiofeedbackScreen.tsx:21 | The time left drops by one and stops at 0. |
| Biofeedback.PhaseLastsFourTicks | screens/BiofeedbackScreen.tsx:13-20 | Each phase lasts four seconds. |
| Biofeedback.BreathingCycle | screens/BiofeedbackScreen.tsx:13-20 | After twelve seconds the breathing state is back where it was. |
| Biofeedback.Breathing.constructor | screens/BiofeedbackScreen.tsx:7-9 | Inhale, counter 4, 300 seconds left. |
| Biofeedback.Breathing.Tick | screens/BiofeedbackScreen.tsx:12-22 | One second: the phase and counter advance and the time left counts down. |
| Biofeedback.FormatTimeReadsBack | screens/BiofeedbackScreen.tsx:26-30 | `MM:SS` is five characters that read back as the number of seconds. |
| Biofeedback.SessionRunsOut | screens/BiofeedbackScreen.tsx:9-21 | After 300 or more ticks no time is left. |
| Biofeedback.StartsAtFiveMinutes | screens/BiofeedbackScreen.tsx:9-30 | The session starts at "05:00". |
| Notifications.MarkAsRead | screens/NotificationsScreen.tsx:16-18 | Same length and same ids in the same order. |
| Notifications.MarkAsReadSpec | screens/NotificationsScreen.tsx:16-18 | Items with the id become read and are otherwise unchanged; other items are unchanged. |
| Notifications.MarkAsReadIdempotent | screens/NotificationsScreen.tsx:16-18 | Marking twice equals marking once. |
| Notifications.MarkAsReadUnread | screens/NotificationsScreen.tsx:16-18 | The unread count never grows, and drops when an unread item has the id. |
| Notifications.DeleteSpec | screens/NotificationsScreen.tsx:20-22 | Exactly the items with the id are removed; the list is unchanged exactly when none has it. |
| Notifications.DeleteAfterMarkAsRead | screens/NotificationsScreen.tsx:16-22 | Marking read then deleting is the same as deleting. |
| Notifications.Clear | screens/NotificationsScreen.tsx:31-33 | After "Limpiar" the button is hidden. |
| Notifications.InitialList | screens/NotificationsScreen.tsx:6-10 | Three items, two unread; "Limpiar" is shown. |
| StatsBench.LatestOrZeroIsMax | benchmarks/stats_bench.ts:65-72 | The running latest date is the latest record date, or 0 when all are at or before the epoch. |
| StatsBench.RunningTotals | benchmarks/stats_bench.ts:63-78 | The running count and sum equal the length and the sum of the 30-day filter. |
| StatsBench.SinglePassAgrees | benchmarks/stats_bench.ts:33-95 | The single pass and the original agree on the recent count, the average and the total. They agree on everything when there are no records or the latest is after the epoch; otherwise the single pass reports 0 free days. |
| StatsBench.OptimizedStats | benchmarks/stats_bench.ts:59-95 | The loop computes the single-pass statistics. |
| StatsBench.PreEpochDiverges | benchmarks/stats_bench.ts:43-47 | A record dated before the epoch gives the original at least one free day and the single pass none. |
| CalendarBench.GroupByDate | benchmarks/calendar_perf.ts:43-47 | The grouping map returns, for every day, exactly the records that a filter by that date returns; no key maps to an empty list. |
| CalendarBench.CountByFilter | benchmarks/calendar_perf.ts:32-36 | The filter-in-loop count is the total of the per-day filters. |
| CalendarBench.CountByGroups | benchmarks/calendar_perf.ts:43-54 | The map-lookup count equals the filter-in-loop count. |
| CalendarBench.TotalAddEntry | benchmarks/calendar_perf.ts:33-36 | One more record adds the number of times its day is queried. |
| CalendarBench.CountsCoverAll | benchmarks/calendar_perf.ts:33-36 | Over distinct days covering every record date, the count is the number of records. |
| CalendarBench.MockEntries | benchmarks/calendar_perf.ts:16-25 | N mock records; record i is dated day `i mod 31 + 1`. |
| CalendarBench.MonthKeys | benchmarks/calendar_perf.ts:27-28 | The 31 date strings of the month in order. |
| CalendarBench.JuneKeysDiffer | benchmarks/calendar_perf.ts:28 | Different days give different date strings. |
| CalendarBench.MockCountsMatch | benchmarks/calendar_perf.ts:65-68 | On the mock data both counts equal N, so the benchmark's check passes. |
| CalendarBench.SomePainOnDate | benchmarks/calendar_lookup.cjs:38-41 | A day's filtered records contain pain exactly when some record of that day is pain. |
| CalendarBench.CurrentApproach | benchmarks/calendar_lookup.cjs:34-45 | Counts the queried days with a pain record. |
| CalendarBench.PrepareIconMap | benchmarks/calendar_lookup.cjs:48-65 | The map has exactly the days with a pain record, each set to true. |
| CalendarBench.RenderCount | benchmarks/calendar_lookup.cjs:67-73 | Counts the queried days the map marks. |
| CalendarBench.PreparedMapCounts | benchmarks/calendar_lookup.cjs:48-73 | Rendering from the prepared map counts the same days as the current approach. |
| CalendarBench.SomeMigraineOnDate | benchmarks/calendar_benchmark.ts:47-49 | A day's filtered records contain a migraine exactly when some record of that day is a migraine. |
| CalendarBench.FlagsByFilter | benchmarks/calendar_benchmark.ts:45-50 | One flag per day, set exactly when that day has a migraine. |
| CalendarBench.FlagsByMap | benchmarks/calendar_benchmark.ts:57-69 | The map version gives the same flags. |

## Left out

- JSON text. The key-value store holds parsed values: a list of records, a profile, or text that does not parse. Two things are not modelled:
  - a stored value of the wrong shape, such as `null` or an object where a list belongs;
  - a stored empty string, which `getCrises` reads as `[]` and caches, while the model reads it as unreadable and does not cache it.
- Store.RecordStore.ImportData: storage writes are taken never to throw. In the code a throwing `setItem` (a full quota, say) at storeService.ts:145 or :149 makes the import return `false` after the cache was already replaced. `saveCrisis`, `updateCrisis` and `deleteCrisis` (storeService.ts:31-32, :39-40, :46-47) likewise update the cache before writing, so a throwing write leaves the cache changed and the exception reaches the caller.
- Store.RecordStore.ImportData: imported records are trusted to be records. Nothing but `Array.isArray` is checked, and the model does not represent array elements of another shape.
- `crypto.randomUUID` is a `freshId` parameter. Unique ids are stated only for the case where the caller's id is new.
- Dates are integers:
  - `setDate(getDate() - 30)` is taken as exactly 30 days, ignoring daylight-saving changes;
  - ISO date strings, invalid dates and the timestamp in `exportData` are not modelled.
- Analytics.ComputeStats: `toFixed(1)` is not modelled; the average is the exact quotient. Home.RecommendationFor compares it with 5 as `20 * sum > 101 * count`, which is what rounding to one decimal and then comparing gives.
- Analytics.TopTag: it promises a tag of highest count. The tie-break is not modelled; in the code it follows the key order of a JavaScript object under a stable sort.
- Calendar.AddGuard: years are limited to 0..9999, the years a four-digit ISO string can hold. The model keys days as `YYYYMMDD` integers. The calendar builds each cell's key with `new Date(y, m, d).toISOString()`, which is the UTC date of local midnight. That is day d only where local time is at or behind UTC; east of UTC the key is the day before. This time-zone shift is not modelled.
- Calendar.CalendarView.Delete: models the confirmed dialog only; cancelling changes nothing.
- CalendarBench.CountsCoverAll: states the count over a given list of days. It does not state the count as a sum over the map's values.
- Stored order. A comment at `screens/HomeScreen.tsx:42` says the store keeps records newest first, but `saveCrisis` appends. The model follows the code: `Home.FirstThree` shows the first three stored records, not the newest three.
- Timers and React state batching. Each interval callback is one method call. `BiofeedbackScreen.tsx:24` restarts the interval on every phase change; only the one-second steps are modelled.
- Navigation and file upload:
  - `navigate`, `window.confirm` and the backup file picker (`FileReader`) are not modelled;
  - the editor's `preFill` data, which comes from the AI chat screen, is not modelled;
  - the editor has no input for the type or the end time (`setType` and `setEndTime` are never called), so the type is derived at save time and the end time keeps its initial value (`NewEntryHasNoDuration`).
- Display only: icons, colours, descriptions, the month selector and the avatar list beyond its first URL.
- Analytics.CountEffective: the tally is a `map<string, nat>`, while the code uses a plain object. A medication named after an inherited member, such as "constructor" or "toString", would start from a function and its count would become text; one named "__proto__" is never counted. Medication names are free text (screens/CrisisDetailsScreen.tsx:239), so this can happen; it is not modelled. `CountTags` has the same limit, but its tags come from fixed lists.
- CalendarBench: plain-object maps are `map<string, _>`, so keys such as `__proto__` are not treated specially. The mock data of `calendar_lookup.cjs` and `calendar_benchmark.ts` (`Math.random`) is not modelled.
- CrisisDetails.NumberOfDigits: `Number` is exact only for blank text and for digit strings, after trimming white space as `Number` does (so " 7" is 7). Other text that JavaScript accepts, such as "1.5", "+7", "1e2" or "0x1A", is modelled as NaN.

## Findings

| source | as written | input that shows it | evidently intended | confidence | as-written member | corrected member |
|---|---|---|---|---|---|---|
| screens/CalendarScreen.tsx:14 | The calendar's record list starts as `[]`, and only the delete button (line 301) ever sets it; the `useEffect` imported on line 2 is never used. | Open the calendar with a pain record saved for today: the day shows no bolt and lists nothing. | Load the store's records when the screen mounts. | not executed | Calendar.CalendarView.constructor, Calendar.UnloadedCalendarIsBlank | Calendar.CalendarView.Open, Calendar.LoadedCalendarShowsStoredPain |

Two related behaviours are proved but are not findings:

- `StatsBench.PreEpochDiverges`: the benchmark's single pass differs from the original for dates before 1970.
- `CrisisDetails.EditFromCalendarDropsDetails`: editing a record opened from the calendar saves it in lite mode.
