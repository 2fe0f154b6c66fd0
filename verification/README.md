# JEE Prep Meter — a verified model of the study tracker's logic

JEE Prep Meter is a browser study tracker for JEE preparation. For each syllabus chapter it keeps a
progress record (completed, revised, understanding level, important, subtopic flags). It derives overall
and per-subject percentages from those records. It runs a pomodoro timer and a basic study timer,
records study sessions, and offers local or remote sign-in.

This project models the application's logic in Dafny:

- the progress map and its metrics;
- the three progress hooks: the local one, the older local one and the database-backed write-through one;
- both timers as state machines driven one effect run at a time;
- the main page's filter, ids, toggles and update payloads;
- the study-session totals;
- the sign-in dialog and the local branches of the two auth hooks;
- the theme toggle.

Several things are represented abstractly:

- Local storage is a `map<string, string>` field.
- JSON is an abstract codec whose decoder may reject a text.
- Every remote call (select, upsert, insert, auth) is an outcome passed in as a parameter.

Modules, one per file, in dependency order:

- `Wrappers`: `Option`, `Result`.
- `Text`: lower-casing, prefixes, `split(c)[0]`, number text and `padStart`.
- `Storage`: the store, its keys, the codec, `if (saved)` truthiness.
- `Progress`: records, partial updates, the upsert.
- `Metrics`: percentages and counts.
- `SimpleProgress`, `LegacyProgress`, `DatabaseProgress`: the three progress hooks.
- `Clock`: `formatTime`.
- `Pomodoro`: the customizable timer.
- `StudyTimer`: the basic timer.
- `Syllabus`: the main page's logic.
- `StudySessions`: the session hook.
- `DatabaseAuth`, `AuthForm`, `LocalAuth`: the auth hooks and the dialog.
- `ThemeHook`: the theme toggle.

Percentages are exact `real`s. Hooks are classes whose methods change their fields and their `store`.
Each effect or handler is one method. Scenario methods run several of them in sequence, for example an
update, a save and a reload in a fresh hook.

## Model

| member | source | states |
|---|---|---|
| Progress.Overlay | app/hooks/use-simple-progress.ts:61-67 | each field present in the partial update wins; each absent field keeps the base record's value |
| Progress.OverlayIdempotent | app/hooks/use-simple-progress.ts:64-65 | spreading the same updates twice equals spreading them once |
| Progress.OverlayFullAndNoChange | app/hooks/use-simple-progress.ts:64-65 | a complete record spread over any record replaces it; an empty update leaves the record as it was |
| Progress.ProgressOf | app/hooks/use-simple-progress.ts:53-59 | `prev[id] \|\| zero`: the entry when present, the zero record `{false, false, 0, false, {}}` otherwise |
| Progress.Upsert | app/hooks/use-simple-progress.ts:51-67 | the key set gains `id`; `id` maps to the old (or zero) record overlaid with the update; every other entry is unchanged |
| Progress.UpsertNewStartsFromZero | app/hooks/use-simple-progress.ts:53-66 | a chapter without an entry starts from the zero record, and the map grows by one entry |
| Progress.UpsertIdempotent | app/hooks/use-simple-progress.ts:61-67 | applying the same update twice gives the same map as applying it once |
| Progress.UpsertCommutes | app/hooks/use-simple-progress.ts:61-67 | updates to two different chapters give the same map in either order |
| Storage.Saved | app/hooks/use-simple-progress.ts:28-29 | a stored text is used iff the key is present and its text is non-empty (both `null` and `""` are falsy) |
| Storage.Present | hooks/use-database-progress.ts:25 | `if (!userId)`: a user id is present when it is given and non-empty |
| Storage.Restore | app/hooks/use-simple-progress.ts:28-31 | a value is restored only when a non-empty text is stored and it decodes to that value |
| Storage.RestoreSaved | app/hooks/use-simple-progress.ts:41-44 | what the save writes under a key, a later load restores, for a codec that reads back what it writes |
| Metrics.Percent | app/hooks/use-simple-progress.ts:71-77 | in [0, 100]; 0 when the whole is 0; `r * whole == 100 * part` otherwise; exactly 100 iff the whole is non-empty and fully completed |
| Metrics.CompletedIds | app/hooks/use-simple-progress.ts:94-96 | exactly the keys whose record is completed |
| Metrics.SubsetOfSameSize | app/hooks/use-simple-progress.ts:94-96 | helper: a subset is no larger than its superset, and is the whole superset when equally large |
| Metrics.TotalChapters | app/hooks/use-simple-progress.ts:90-92 | the number of keys in the map |
| Metrics.CompletedChapters | app/hooks/use-simple-progress.ts:94-96 | at most the total, and equal to it iff every entry is completed |
| Metrics.OverallProgress | app/hooks/use-simple-progress.ts:71-77 | in [0, 100]; 0 on the empty map and when nothing is completed; `r * total == 100 * completed` otherwise; 100 iff the map is non-empty and all completed |
| Metrics.SubjectChapters | app/hooks/use-simple-progress.ts:80-82 | exactly the entries whose lower-cased id starts with the lower-cased subject name (a raw prefix test), unchanged |
| Metrics.SubjectProgress | app/hooks/use-simple-progress.ts:79-88 | in [0, 100]; 0 when no id matches; 100 iff some id matches and every matching entry is completed |
| Metrics.OverallOfOne | app/hooks/use-simple-progress.ts:71-77 | a single chapter gives 100 when completed and 0 otherwise |
| Metrics.SubjectOfOne | app/hooks/use-simple-progress.ts:80-82 | when only one id matches the subject, the subject's entries are that one entry |
| Metrics.SubjectProgressOfOne | app/hooks/use-simple-progress.ts:79-88 | a subject with a single matching entry is at 100 when it is completed and at 0 otherwise |
| Metrics.SubjectOfCompletedAlone | app/hooks/use-simple-progress.ts:79-88 | of a completed and an open chapter, a subject matching only the completed one is at 100 |
| Metrics.SubjectOfOpenAlone | app/hooks/use-simple-progress.ts:79-88 | of a completed and an open chapter, a subject matching only the open one is at 0 |
| Metrics.SubjectProgressIgnoresOthers | app/hooks/use-simple-progress.ts:79-88 | writing an entry whose id does not match the subject leaves the subject's percentage unchanged |
| Metrics.ImportantIn | app/hooks/use-simple-progress.ts:99-101 | the ids of an entry order whose record is important, in that order |
| Metrics.ImportantInProperties | app/hooks/use-simple-progress.ts:98-102 | filtering an entry order keeps exactly the important ids, each once |
| Metrics.ImportantChapters | app/hooks/use-simple-progress.ts:98-102 | exactly the ids whose record is flagged important, with no duplicates |
| SimpleProgress.Imported | app/hooks/use-simple-progress.ts:117-124 | a text that decodes replaces the whole map; one that does not leaves the map unchanged |
| SimpleProgress.ExportImportRoundTrip | app/hooks/use-simple-progress.ts:104-120 | importing the exported text of a map gives back that map |
| SimpleProgress.SimpleProgressHook.constructor | app/hooks/use-simple-progress.ts:22-23 | the hook starts with the empty map and not loaded |
| SimpleProgress.SimpleProgressHook.Load | app/hooks/use-simple-progress.ts:26-38 | the map becomes the stored map when there is one and it decodes, and stays as it was otherwise; loaded is set on every path |
| SimpleProgress.SimpleProgressHook.Save | app/hooks/use-simple-progress.ts:41-49 | once loaded, the encoded map is written under `jee-prep-progress`; before that, storage is untouched |
| SimpleProgress.SimpleProgressHook.UpdateProgress | app/hooks/use-simple-progress.ts:51-69 | the map becomes the upsert of the update (see `Progress.Upsert`); storage waits for the save effect |
| SimpleProgress.SimpleProgressHook.ImportProgress | app/hooks/use-simple-progress.ts:115-127 | reports success iff the text decodes; the map becomes `Imported` of the old map |
| SimpleProgress.SimpleProgressHook.ResetProgress | app/hooks/use-simple-progress.ts:129-134 | when confirmed, the map is emptied and the `jee-prep-progress` key removed; otherwise nothing changes |
| SimpleProgress.SimpleProgressHook.Overall | app/hooks/use-simple-progress.ts:71-77 | the overall percentage of the current map: in [0, 100], and 0 on the empty map |
| SimpleProgress.UpdateSaveReload | app/hooks/use-simple-progress.ts:26-67 | after load, update and save, a fresh hook loads exactly the updated map |
| SimpleProgress.ResetSaveReload | app/hooks/use-simple-progress.ts:41-49 | after a confirmed reset and the save effect, a fresh hook loads the empty map |
| SimpleProgress.FirstCompletionScenario | app/hooks/use-simple-progress.ts:51-96 | completing one chapter in an empty map gives 1 chapter, 1 completed, 100% |
| LegacyProgress.Stored | app/hooks/use-progress.ts:41 | a missing entry spreads no fields |
| LegacyProgress.LegacyRecord | app/hooks/use-progress.ts:35-43 | each field comes from the update if present, else from the stored record if present, else from the default |
| LegacyProgress.LegacyUpsert | app/hooks/use-progress.ts:33-44 | the key set gains `id`; `id` gets the complete merged record; every other entry is unchanged |
| LegacyProgress.Lift | app/hooks/use-progress.ts:17-19 | complete records are stored records with every field present, key for key |
| LegacyProgress.LegacyAgreesWithUpsert | app/hooks/use-progress.ts:33-44 | on complete records the older update stores the same map as the newer hooks' upsert |
| LegacyProgress.LegacyUpsertIdempotent | app/hooks/use-progress.ts:33-44 | applying the same update twice stores the same map as applying it once |
| LegacyProgress.LegacyCompletedIds | app/hooks/use-progress.ts:54 | exactly the ids whose stored `completed` is true |
| LegacyProgress.LegacyOverall | app/hooks/use-progress.ts:50-56 | in [0, 100]; 0 on the empty map; `r * count == 100 * completed` otherwise |
| LegacyProgress.LegacyOverallOfLift | app/hooks/use-progress.ts:50-56 | on complete records the older percentage equals the newer hooks' percentage |
| LegacyProgress.LegacyProgressHook.constructor | app/hooks/use-progress.ts:22 | the hook starts with the empty map |
| LegacyProgress.LegacyProgressHook.Load | app/hooks/use-progress.ts:24-29 | the map becomes the stored map when there is one and it decodes, and stays empty (as it was) otherwise |
| LegacyProgress.LegacyProgressHook.Update | app/hooks/use-progress.ts:31-48 | the map becomes the merged upsert, and the same step writes its encoding under `jee-prep-progress` |
| LegacyProgress.LegacyProgressHook.Overall | app/hooks/use-progress.ts:50-56 | the percentage of the current map: in [0, 100], and 0 on the empty map |
| LegacyProgress.UpdateThenReload | app/hooks/use-progress.ts:24-45 | a fresh hook loads exactly the updated map, and the updated chapter holds a record with every field |
| DatabaseProgress.RecordOf | hooks/use-database-progress.ts:37-43 | the record built from a row's five fields |
| DatabaseProgress.RowsToMap | hooks/use-database-progress.ts:35-44 | the keys are exactly the chapter ids of the fetched rows |
| DatabaseProgress.RowsToMapLastWins | hooks/use-database-progress.ts:36-44 | each id's entry holds the fields of the last row with that id |
| DatabaseProgress.BuildProgressMap | hooks/use-database-progress.ts:35-44 | the `forEach` loop builds exactly `RowsToMap` of the rows |
| DatabaseProgress.RowsToMapDistinct | hooks/use-database-progress.ts:35-44 | rows with distinct ids give one entry per row, each holding that row's fields |
| DatabaseProgress.SyncHook.constructor | hooks/use-database-progress.ts:14-16 | the hook starts with the empty map, loading, and no client |
| DatabaseProgress.SyncHook.Fallback | hooks/use-database-progress.ts:47-53 | the map becomes the stored map when there is one and it decodes, and stays as it was otherwise |
| DatabaseProgress.SyncHook.Load | hooks/use-database-progress.ts:18-60 | client and no user: the map is unchanged and storage unread; client, user and rows: the map is built from the rows alone; no client or a failed query: the local fallback; `hasSupabase` reflects the client; loading ends on every path |
| DatabaseProgress.SyncHook.Update | hooks/use-database-progress.ts:62-101 | an upsert of the merged record is sent iff a client and a user are present; the map becomes the upsert and is written to `jee-prep-progress` whatever the remote outcome |
| DatabaseProgress.SyncHook.Overall | hooks/use-database-progress.ts:103-109 | the percentage of the current map: in [0, 100], and 0 on the empty map |
| DatabaseProgress.LoadWithoutUser | hooks/use-database-progress.ts:22-28 | with a client and no user id, loading ends with the empty map |
| DatabaseProgress.UpdateIgnoresRemote | hooks/use-database-progress.ts:73-100 | the map and the store after an update are the same whether the remote upsert succeeds or fails |
| DatabaseProgress.UpdateThenOfflineReload | hooks/use-database-progress.ts:47-53 | a later load that falls back to local storage restores exactly the updated map |
| Clock.JsRem | app/components/customizable-timer.tsx:129 | JavaScript `%`: the Euclidean remainder for a non-negative dividend, the negated remainder of the negation otherwise |
| Clock.ParseClock | app/components/customizable-timer.tsx:127-131 | a time is read back only from a text that contains a colon |
| Clock.FormatTime | app/components/customizable-timer.tsx:127-131 | `formatTime`: `Math.floor(seconds / 60)` and the JavaScript remainder, each padded to two characters, joined by a colon; its properties are `FormatTimeShape`, `FormatTimeRoundTrip`, `FormatTimeInjective` and `NegativeTimeDoesNotRoundTrip` |
| Clock.PaddedDigits | app/components/customizable-timer.tsx:130 | helper: a padded number text is a colon-free digit string that reads back as the number |
| Clock.SecondsDigits | app/components/customizable-timer.tsx:129-130 | helper: the text of a remainder below 60 has at most two digits, so padding makes it exactly two |
| Clock.ParseClockOfJoin | app/components/customizable-timer.tsx:130 | helper: `a:b` with a colon-free `a` reads back as `a * 60 + b` |
| Clock.PaddedPartsRoundTrip | app/components/customizable-timer.tsx:130 | helper: padded minutes, a colon and padded seconds read back as `mins * 60 + secs` |
| Clock.FormatTimeOfNat | app/components/customizable-timer.tsx:127-131 | for non-negative seconds, the text is padded `seconds / 60`, a colon, padded `seconds % 60` |
| Clock.FormatTimeShape | app/components/customizable-timer.tsx:127-131 | for non-negative seconds: minutes, a colon, seconds; both digit strings, the minutes at least 2 long and the seconds exactly 2; their values are `s / 60` and `s % 60` |
| Clock.FormatTimeRoundTrip | app/components/study-timer.tsx:38-42 | reading the formatted text back gives `mins * 60 + secs == seconds` |
| Clock.NegativeTimeDoesNotRoundTrip | app/components/customizable-timer.tsx:127-131 | -61 seconds is shown as "-2:-1" (floor division next to a truncating remainder), which does not read back |
| Clock.FormatTimeInjective | app/components/study-timer.tsx:38-42 | different non-negative second counts are shown as different texts |
| Text.LowerChar | app/hooks/use-simple-progress.ts:81 | `toLowerCase` on one character: ASCII capitals become small letters, everything else is kept |
| Text.Lower | app/hooks/use-simple-progress.ts:81 | `toLowerCase`: the same length, with each character lower-cased |
| Text.StartsWith | app/hooks/use-simple-progress.ts:81 | `startsWith`: the string begins with the prefix |
| Text.Contains | app/page.tsx:77-78 | `includes`: the term occurs at some position; the empty term occurs everywhere |
| Text.LowerKeepsPrefix | app/hooks/use-simple-progress.ts:81 | a prefix stays a prefix after both strings are lower-cased |
| Text.LowerFirstDiffers | app/hooks/use-simple-progress.ts:81 | strings whose first letters differ, ignoring case, do not prefix each other |
| Text.BeforeFirst | app/hooks/use-auth.ts:31 | `split(c)[0]`: a prefix with no `c`, followed in the input by `c` unless it is the whole input |
| Text.BeforeFirstOfJoin | app/hooks/use-auth.ts:31 | splitting `a + c + b` at `c`, where `a` has no `c`, gives back `a` |
| Text.NatToString | app/components/customizable-timer.tsx:130 | `toString` of a non-negative integer: a non-empty digit string, one digit exactly below 10 |
| Text.DigitsValueOfNatToString | app/components/customizable-timer.tsx:130 | the digits of `n.toString()` denote `n` |
| Text.DigitsValueLeadingZero | app/components/customizable-timer.tsx:130 | helper: a leading zero does not change a digit string's value |
| Text.ParseNat | app/page.tsx:74 | `parseInt` on digit strings: a number exactly for non-empty digit strings |
| Text.ParseNatOfNatToString | app/page.tsx:74 | reading the decimal text of `n` gives `n` |
| Text.NatToStringInjective | app/page.tsx:241 | distinct numbers have distinct decimal texts |
| Text.IntToString | app/components/customizable-timer.tsx:130 | `toString` of any integer: the digits, with a minus sign in front of a negative number |
| Text.PadStart2 | app/components/customizable-timer.tsx:130 | `padStart(2, "0")`: length max(2, n), the input at the end, zeros in front |
| Text.PadStart2Digits | app/components/customizable-timer.tsx:130 | padding a digit string keeps it a digit string with the same value |
| Pomodoro.Duration | app/components/customizable-timer.tsx:57-63 | the period length in seconds, a whole number of minutes, non-negative for non-negative settings |
| Pomodoro.LongBreakNext | app/components/customizable-timer.tsx:100-103 | finishing a study period starts a long break: `(sessions + 1) % interval === 0`, false for a zero interval (NaN) |
| Pomodoro.NextLabelLong | app/components/customizable-timer.tsx:369 | the label shows "Long Break": `sessions % interval === interval - 1`, false for a zero interval |
| Pomodoro.NextLabelAgrees | app/components/customizable-timer.tsx:103 | the "Next: Long Break" label shows iff finishing the next study period starts a long break |
| Pomodoro.NegativeIntervalDisagrees | app/components/customizable-timer.tsx:284 | a typed "-1" is kept as the interval, and with interval -1 the rule takes a long break where the label announces a short one |
| Pomodoro.PomodoroLabelAgrees | app/components/customizable-timer.tsx:205-214 | under the pomodoro theme, the only one showing the label, the interval is 4 and the label agrees with the rule |
| Pomodoro.MultipleAtLeast | app/components/customizable-timer.tsx:103 | helper: a non-zero multiple of a positive interval is at least the interval |
| Pomodoro.ModUnique | app/components/customizable-timer.tsx:103 | helper: the remainder is the only in-range value that completes the division |
| Pomodoro.TotalHours | app/components/customizable-timer.tsx:361 | `Math.floor(sessions * studyTime / 60)`: the whole hours, bounded above and below |
| Pomodoro.ModeLabel | app/components/customizable-timer.tsx:141-152 | each mode has its own label: Study Time, Short Break, Long Break |
| Pomodoro.ModeColor | app/components/customizable-timer.tsx:154-165 | each mode has its own colour class: blue, green, purple |
| Pomodoro.ThemeSelected | app/components/customizable-timer.tsx:205-218 | choosing pomodoro forces 25/5/15/4; custom changes only the theme; the two switches are kept |
| Pomodoro.Fallback | app/components/customizable-timer.tsx:242-284 | the fallbacks of the four inputs: 25, 5, 15 and 4 |
| Pomodoro.InputOr | app/components/customizable-timer.tsx:242 | `parseInt(v) \|\| fallback`: the parsed value unless it is NaN or 0, in which case the fallback; non-zero when the fallback is |
| Pomodoro.FieldEdited | app/components/customizable-timer.tsx:240-285 | editing one input replaces only that field, with the fallback 25, 5, 15 or 4; everything else is kept |
| Pomodoro.EditedIntervalNonZero | app/components/customizable-timer.tsx:284 | after an edit of the interval input, the long-break interval is never 0 |
| Pomodoro.CustomizableTimer.constructor | app/components/customizable-timer.tsx:24-39 | the timer starts at 1500 s: study, not running, 0 sessions, 0 cycles, settings 25/5/15/4 |
| Pomodoro.CustomizableTimer.LoadSettings | app/components/customizable-timer.tsx:42-49 | stored settings that decode replace the current ones and set the time to their study length; otherwise nothing changes |
| Pomodoro.CustomizableTimer.SaveSettings | app/components/customizable-timer.tsx:52-65 | the settings are adopted and stored under `timer-settings`; time is the current mode's new length; the timer stops |
| Pomodoro.CustomizableTimer.Step | app/components/customizable-timer.tsx:67-125 | running with time left: exactly one second off. At zero: stop; a study period counts a session and goes to a long break (cycles + 1) iff `(sessions + 1) % interval == 0`, else to a short break; a break goes back to study. Otherwise unchanged; `cycles <= sessions` and non-negative time are kept |
| Pomodoro.CustomizableTimer.ToggleRunning | app/components/customizable-timer.tsx:340 | the start/pause button flips running and nothing else |
| Pomodoro.CustomizableTimer.Reset | app/components/customizable-timer.tsx:133-139 | stop, study, time = study length, sessions and cycles zeroed, settings kept |
| Pomodoro.CustomizableTimer.Hours | app/components/customizable-timer.tsx:361 | the total hours shown: non-negative with non-negative settings, and the floor of `sessions * studyTime / 60` |
| Pomodoro.RunOut | app/components/customizable-timer.tsx:70-73 | started and left to tick, a period runs out after exactly `time` ticks with mode, counts and settings unchanged |
| Pomodoro.FourSessionsOneCycle | app/components/customizable-timer.tsx:98-114 | with default settings, four study periods (the first three each with its short break) end in a long break with 4 sessions and 1 cycle |
| StudyTimer.PhaseLength | app/components/study-timer.tsx:8-29 | 1500 s for study, 300 s for a break |
| StudyTimer.PhaseLabel | app/components/study-timer.tsx:55 | "Study Time" exactly in study, "Break Time" exactly in a break |
| StudyTimer.BasicTimer.constructor | app/components/study-timer.tsx:8-11 | the timer starts at 1500 s: study, not running, 0 sessions |
| StudyTimer.BasicTimer.Step | app/components/study-timer.tsx:13-36 | running with time left: one second off. At zero: stop and switch phase with its full length, and a finished study period counts a session. Otherwise unchanged; time stays within the phase length |
| StudyTimer.BasicTimer.ToggleRunning | app/components/study-timer.tsx:62 | the start/pause button flips running and nothing else |
| StudyTimer.BasicTimer.Reset | app/components/study-timer.tsx:44-48 | stop, study at 1500 s; the session count is kept |
| StudyTimer.StudyThenBreak | app/components/study-timer.tsx:13-36 | a full study period and the following break take 1800 ticks, count one session, and end in a fresh study period |
| StudyTimer.RunOut | app/components/study-timer.tsx:16-19 | started and left to tick, a phase runs out after exactly `time` ticks with mode and sessions unchanged |
| Syllabus.MatchesSearch | app/page.tsx:76-78 | the chapter's name or one of its subtopics includes the search term, both lower-cased |
| Syllabus.MatchesTag | app/page.tsx:79 | the tag is "all" or equals the lower-cased priority |
| Syllabus.ChapterShown | app/page.tsx:75-81 | a chapter is shown when it matches both the search and the tag |
| Syllabus.ClassShown | app/page.tsx:73-81 | the class select is "all" or parses to the class number, and some chapter of the class is shown |
| Syllabus.SubjectShown | app/page.tsx:71-83 | the subject select is "all" or the lower-cased name, and some class is shown |
| Syllabus.FilterSubjects | app/page.tsx:71-83 | keeps exactly the subjects that match the subject select and have a class matching the class select with a chapter matching the search (name or subtopic, case-insensitive) and the tag |
| Syllabus.FilterIsSubsequence | app/page.tsx:71-83 | the filtered list is an order-preserving subsequence of the syllabus |
| Syllabus.ContainsEmpty | app/page.tsx:77 | helper: every string includes the empty search term |
| Syllabus.NoFiltersKeepsNonEmpty | app/page.tsx:71-83 | with an empty search and every select on "all", exactly the subjects that have a chapter are kept |
| Syllabus.ChapterId | app/page.tsx:241 | the id starts with the subject name |
| Syllabus.ChapterIdInSubject | app/page.tsx:241 | a chapter's id counts towards its own subject's progress |
| Syllabus.DigitsHaveNoDash | app/page.tsx:241 | helper: a number's text contains no dash |
| Syllabus.DashJoin | app/page.tsx:241 | helper: splitting `a-b` at the first dash, when `a` has none, gives back `a` and `b` |
| Syllabus.ChapterIdInjective | app/page.tsx:241 | for subject names without a dash, distinct (subject, class, chapter) triples get distinct ids |
| Syllabus.Toggled | app/page.tsx:51-59 | only `id`'s membership flips |
| Syllabus.ToggleTwice | app/page.tsx:51-59 | toggling the same id twice restores the set |
| Syllabus.ExpandedChapters.constructor | app/page.tsx:33 | no chapter starts expanded |
| Syllabus.ExpandedChapters.Toggle | app/page.tsx:51-59 | the set becomes `Toggled` of the old set |
| Syllabus.UnderstandingColor | app/page.tsx:61-64 | levels 1 to 5 give the five listed colours; every other level, and only those, gives "#6B7280" |
| Syllabus.UnderstandingLabel | app/page.tsx:66-69 | levels 1 to 5 give Bad, Moderate, Good, Genius, PhD-level; every other level, and only those, gives "Not Set" |
| Syllabus.UnderstandingLabelsDistinct | app/page.tsx:66-69 | distinct levels from 1 to 5 get distinct labels |
| Syllabus.SubtopicKey | app/page.tsx:355 | the key `subtopic-<index>` |
| Syllabus.SubtopicToggle | app/page.tsx:355-367 | the payload sets only the subtopic map: the key `subtopic-<index>` negated (absent reads false), every other key copied |
| Syllabus.FlagToggle | app/page.tsx:283-307 | the star, revised and completed buttons each send only the negation of their flag |
| Syllabus.FlagToggleFlips | app/page.tsx:243-307 | pressing a flag button flips that flag of that chapter's record (or of the zero record) and leaves every other chapter unchanged |
| Syllabus.FlagToggleTwice | app/page.tsx:283-307 | pressing a flag button twice restores the chapter's record |
| Syllabus.SubtopicToggleFlips | app/page.tsx:355-367 | pressing a subtopic button flips that subtopic only; the other fields and subtopics stay |
| Syllabus.UnderstandingSet | app/page.tsx:340 | an understanding button sends only the chosen level |
| StudySessions.TotalOnAppend | hooks/use-study-sessions.ts:63-67 | day totals add up over concatenated lists |
| StudySessions.TotalOn | hooks/use-study-sessions.ts:63-67 | the sum of the durations of the sessions dated `date` (its properties: `TotalOnAppend`, `TotalOnBounds`, `AddedSessionCounts`) |
| StudySessions.SubjectTotalOn | hooks/use-study-sessions.ts:85-86 | the sum of the durations dated `date` whose lower-cased subject equals `key`; other subjects contribute nothing |
| StudySessions.FourSubjects | hooks/use-study-sessions.ts:78-87 | the four subject figures of a day added up (related to the day total by `FourSubjectsCoverDay`) |
| StudySessions.TodayStudyTime | hooks/use-study-sessions.ts:63-67 | the sum of the durations dated today (`TotalOn`); 0 when no session is dated today; never negative when durations are not |
| StudySessions.TotalOnBounds | hooks/use-study-sessions.ts:63-67 | a day without sessions totals 0; non-negative durations give a non-negative total |
| StudySessions.FourSubjectsCoverDay | hooks/use-study-sessions.ts:76-90 | when every subject is one of the four keys (ignoring case), the four subject figures of a day add up to that day's total |
| StudySessions.DayEntry | hooks/use-study-sessions.ts:76-90 | the entry has exactly the four subject keys, each holding the day's total for sessions whose lower-cased subject equals it |
| StudySessions.WeeklyData | hooks/use-study-sessions.ts:69-91 | one entry per given date in the given order, each with the four subject totals of that date |
| StudySessions.SessionsHook.constructor | hooks/use-study-sessions.ts:8-9 | no sessions, loading |
| StudySessions.SessionsHook.FetchSessions | hooks/use-study-sessions.ts:20-37 | without a user nothing happens; rows replace the list (`data \|\| []`); an error keeps the list; loading ends once a user is present |
| StudySessions.SessionsHook.Mount | hooks/use-study-sessions.ts:11-18 | loading ends on every path; without a user the list is kept; otherwise it is as fetched |
| StudySessions.SessionsHook.AddSession | hooks/use-study-sessions.ts:39-61 | an insert dated today is sent iff a user is present; the returned row is put in front of the unchanged list; an error or no user changes nothing |
| StudySessions.SessionsHook.Today | hooks/use-study-sessions.ts:63-67 | today's total of the current list, 0 for no sessions |
| StudySessions.AddedSessionCounts | hooks/use-study-sessions.ts:55-57 | a prepended session raises its own day's total by its duration and leaves other days' totals unchanged |
| DatabaseAuth.LocalSignInUser | hooks/use-database-auth.ts:68-73 | id "local-user", the given email, named by the email's text before its first '@' (all of it without one) |
| DatabaseAuth.LocalNameOfAddress | hooks/use-database-auth.ts:72 | `local@domain` gives the name `local` |
| DatabaseAuth.DatabaseAuthHook.constructor | hooks/use-database-auth.ts:9-11 | no user, loading, no client |
| DatabaseAuth.DatabaseAuthHook.Load | hooks/use-database-auth.ts:12-46 | with the client, the session's user; without it or on error, the stored user (none when nothing is stored); loading ends except when the stored text fails to parse |
| DatabaseAuth.DatabaseAuthHook.SignOut | hooks/use-database-auth.ts:48-56 | locally: no user and `jee-prep-user` removed; with the client no local change |
| DatabaseAuth.DatabaseAuthHook.SignIn | hooks/use-database-auth.ts:58-77 | locally: succeeds for any password, sets and stores the email-derived user; with the client: the remote outcome, no local change |
| DatabaseAuth.DatabaseAuthHook.SignUp | hooks/use-database-auth.ts:79-101 | locally: succeeds, sets and stores a user with the given name; with the client: the remote outcome, no local change |
| DatabaseAuth.LocalSessionLifecycle | hooks/use-database-auth.ts:34-75 | offline, a local sign-in survives a reload and a sign-out leaves nothing to restore |
| AuthForm.LoginProblem | app/components/auth-modal.tsx:26-29 | login is refused iff the email or the password is empty, with "Please enter both email and password" |
| AuthForm.SignupProblem | app/components/auth-modal.tsx:45-53 | an empty field gives "Please fill in all fields" before the length check; otherwise a password under 6 characters gives the length message; otherwise accepted |
| AuthForm.FailureMessage | app/components/auth-modal.tsx:38 | the thrown message when non-empty, else the fixed text; never empty when the fixed text is not |
| AuthForm.AuthDialog.constructor | app/components/auth-modal.tsx:17-21 | not loading, no error, not closed |
| AuthForm.AuthDialog.Begin | app/components/auth-modal.tsx:31-32 | loading set and error cleared; inputs kept |
| AuthForm.AuthDialog.Finish | app/components/auth-modal.tsx:34-41 | loading ends; success closes the dialog; failure shows the message or the fixed text |
| AuthForm.AuthDialog.HandleLogin | app/components/auth-modal.tsx:25-42 | `signIn` runs iff validation passes; refused: the message and no call; failure: the error text; success: closed with no error |
| AuthForm.AuthDialog.HandleSignup | app/components/auth-modal.tsx:44-66 | `signUp` runs iff validation passes; refused: the first failing check's message and no call; failure: the error text; success: closed with no error |
| LocalAuth.LoginUser | app/hooks/use-auth.ts:28-32 | id "1", the given email, named by `email.split("@")[0]` (the whole email without an '@') |
| LocalAuth.LoginNameOfAddress | app/hooks/use-auth.ts:31 | `local@domain` gives the name `local` |
| LocalAuth.AuthHook.constructor | app/hooks/use-auth.ts:12-13 | no user, loading |
| LocalAuth.AuthHook.Load | app/hooks/use-auth.ts:15-22 | the stored user is restored when present; loading ends, except when the stored text fails to parse |
| LocalAuth.AuthHook.Login | app/hooks/use-auth.ts:24-36 | the user is `LoginUser(email)` for any password, and it is stored under `jee-prep-user` |
| LocalAuth.AuthHook.Logout | app/hooks/use-auth.ts:38-42 | no user, and both `jee-prep-user` and `jee-prep-progress` removed |
| LocalAuth.LoginReloadLogout | app/hooks/use-auth.ts:15-42 | a login survives a reload; after logout neither the user nor the progress key remains |
| ThemeHook.Toggled | app/hooks/use-theme.ts:17 | light becomes dark, anything else becomes light |
| ThemeHook.ToggleTwice | app/hooks/use-theme.ts:16-21 | toggling twice restores a light or dark theme |
| ThemeHook.Theme.constructor | app/hooks/use-theme.ts:6 | the theme starts light |
| ThemeHook.Theme.Load | app/hooks/use-theme.ts:8-14 | a stored non-empty value is adopted and sets the dark class to match; otherwise nothing changes |
| ThemeHook.Theme.Toggle | app/hooks/use-theme.ts:16-21 | the theme toggles; the stored `jee-prep-theme` equals the new theme; the dark class matches it |
| ThemeHook.ToggleThenReload | app/hooks/use-theme.ts:8-21 | after a toggle, a reload restores the toggled theme and its class |

## Left out

- JSON encoding and decoding are an abstract codec. The round-trip law is assumed only where a lemma requires `Lawful`. The pretty-printed export text, the Blob, the object URL and the download link are browser I/O. The `FileReader` is represented by the text it delivers. The import's `alert` is dropped.
- `confirm` is a boolean input of `ResetProgress`.
- Remote calls are outcomes passed in: the Supabase select, upsert, insert, `getSession`, `signInWithPassword` and `signUp`. The `lib/supabase.ts` client, its environment checks and the `updated_at` timestamp are not part of this model.
- `DatabaseAuth.DatabaseAuthHook.SignIn`: with the client, the remote user is not set. It arrives through the `onAuthStateChange` listener, and the listener and its unsubscription are not modelled.
- `DatabaseAuth.DatabaseAuthHook.SignOut`: with the client, the remote sign-out's effect on the user also arrives through that listener, so the model shows no local change.
- Concurrency is not modelled. The model is sequential. This excludes overlapping async updates that read a stale `progress` closure, the one-second simulated delay of `login`, and React's effect scheduling and re-runs.
- Timer scheduling is not modelled beyond the transitions. Each timer effect run is one `Step`. `setInterval` and `setTimeout` are not modelled; the delayed auto-start is only reported as `autoStartScheduled`, and the restart it schedules is left out. The `AudioContext` beep is not modelled.
- Floating-point output is not modelled. Percentages are exact `real`s. `getProgressPercentage`, `toFixed` and CSS width strings are left out.
- Dates are inputs. `today` and the list of the last seven dates are parameters of `AddSession`, `TodayStudyTime` and `WeeklyData`. The short weekday name and the `toISOString` arithmetic are not modelled, and neither is the descending order the session select asks for.
- `Text.Lower`: lower-cases ASCII only. Unicode case mapping is not modelled.
- Lengths count code points rather than UTF-16 units.
- `Text.ParseNat`: reads plain digit strings only. `parseInt`'s acceptance of leading spaces, signs and trailing text is not modelled. The timer inputs take the already-parsed value (`Option<int>`) as an input of `Pomodoro.InputOr`.
- `Clock.FormatTimeRoundTrip`: stated for non-negative second counts only, because it fails for negative ones. A negative time is reachable: the study-time input keeps a typed negative number, `SaveSettings` then sets the time to it times 60, and the timer stalls there since no tick runs at a negative time. `Clock.NegativeTimeDoesNotRoundTrip` shows -61 displayed as "-2:-1", which does not read back.
- `Pomodoro.NextLabelAgrees`: stated for a non-negative interval only, because the label and the rule disagree for a negative one. The interval input keeps a typed negative number (only 0 and NaN fall back), and `Pomodoro.NegativeIntervalDisagrees` shows the disagreement for -1. It is not visible to the user, because the label is shown only under the pomodoro theme, the inputs only under the custom theme, and choosing pomodoro sets the interval to 4 (`Pomodoro.PomodoroLabelAgrees`).
- The stored settings, user and theme are trusted as decoded values of their types. JSON's lack of type checking on a stored value is not modelled; for example, a theme string other than light or dark is kept as it is.
- An insert that returns an empty data array prepends `undefined` in the source. The model represents that case as "no row returned" (`None`) and leaves the list unchanged.
- A progress fetch whose `data` is null is treated as no rows.
- `LegacyProgress.LegacyProgressHook.Load`: `useProgress` has no `catch` around `JSON.parse` in its load effect. A stored text that does not decode throws out of the effect into React's error handling, which the model cannot represent. As an abstraction, the model leaves the map as it was.
- `Pomodoro.CustomizableTimer.LoadSettings`: the settings load effect likewise has no `catch` around `JSON.parse`. A stored text that does not decode throws out of the effect into React's error handling. As an abstraction, the model leaves the settings and the time as they were.
- `useAuth`'s load effect and `useDatabaseAuth`'s fallback branch have no `catch` around `JSON.parse`. A stored user text that does not decode throws before `setIsLoading(false)`, and the model keeps loading unfinished in that case, as written.
- `useSimpleProgress` reset: after `ResetProgress` removes the key, the save effect that React then runs writes the empty map back. `ResetSaveReload` models the two steps together.
- The syllabus data is an abstract list of `Subject`s. Only the fields the logic reads are modelled: name, class number, chapter id, name, subtopics and priority.
- The following files are not part of this model, because they hold rendering and static data only: `progress-chart.tsx`, `footer.tsx`, `progress-stats.tsx`. Markup, icons and the settings dialog's open state are not modelled either.
