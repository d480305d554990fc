# HyperFocus in Dafny

HyperFocus records focus sessions and the interruptions that break them.
Its FastAPI service stores users, work sessions and interruptions in SQL
tables. It answers five statistics per user over a recent range of days:

- a summary;
- interruptions by type;
- work and interruptions by hour of the day;
- the peak distraction hour;
- a weekly pattern.

Its React front end has three parts:

- The dashboard page (the `App` component) and its sessions and
  interruptions panels.
- The statistics dashboard page (`DashboardPage`) and the summary, weekly
  and productive-hours panels.
- A persisted authentication store and the sign-up page with its
  password-strength meter.

This project models that core and proves what it promises:

- **Backend.**
  - The service's state is a class `Store.Database`, holding its three
    tables as sequences. A row's id is its position plus one.
  - Each endpoint is a method or function returning either a row or an
    HTTP error (`Result<_, HttpError>`). Its checks run in the service's
    order, and each keeps the table invariants: one active session per
    user, unique e-mails, and interruptions attached to an active session
    of their own user.
  - The statistics are computed by methods whose loops mirror the
    service's own loops. Each method is proved equal to a reference
    function. The bucketing of time into hours and weekdays is proved
    exact: each bucket holds exactly the in-window seconds that fall in it.
- **Front end.**
  - Every component whose state React updates in place is a class:
    - `App.Dashboard`;
    - `InterruptionsPanel.InterruptionForm`;
    - `DashboardPage.Dashboard`;
    - `AuthStore.Store`.
  - The class's fields are the state slots plus a log of the requests
    sent. Each handler is a method proved equal to a specification
    function over snapshots of that state. The lemmas then state what the
    handlers promise: which requests go out and in which order, what a
    failure changes, and what is shown.
  - Network answers, the clock and the settle order of concurrent
    requests are parameters.

Time is whole seconds since 1970-01-01 UTC. JSON bodies are the
`Common.Json` datatype, whose objects keep their members in order.
JavaScript operators are written out where the model depends on them:

- truthiness, `||` and `??`;
- `%` taking the sign of the dividend;
- `Math.round`;
- UTF-16 `length`;
- a `TypeError` thrown by reading a property of `null`.

## Model

| member | source | states |
|---|---|---|
| Schemas.ParseType | app/schemas.py:19-25 | a wire string is accepted as an interruption type exactly when it is one of the six enum values, and gives that member |
| Schemas.TypeRoundTrip | app/schemas.py:19-25 | parsing a type's string value gives the type back |
| Schemas.AllTypesExactlyOnce | app/schemas.py:19-25 | the enum has six members with six distinct, non-empty values |
| Schemas.ValidateUserCreate | app/schemas.py:32-42 | a user body is valid exactly when the name has 1 to 100 characters; otherwise the `name` field is reported |
| Schemas.ValidateEndAfterStart | app/schemas.py:89-99 | an end time is rejected exactly when a start time is present and the end is not strictly after it |
| Schemas.ValidateInterruptionCreate | app/schemas.py:81-106 | an interruption body is valid exactly when its type parses, its description has 1 to 500 characters and both times are present with the end after the start; the valid body carries the same fields; `end_time` is reported exactly when it is missing or not after the start |
| Schemas.ValidatedEndAfterStart | app/schemas.py:89-106 | a validated body has an end at least one second after its start |
| Users.AddKeepsEmailsUnique | app/routers/users.py:21-36 | adding a user whose e-mail is not taken keeps e-mails unique |
| Users.CreateUser | app/routers/users.py:11-36 | a taken e-mail gives 400 and changes nothing; otherwise one user is appended with the next id and returned |
| Users.GetUser | app/routers/users.py:39-53 | the stored user with that id, or 404 "User not found" |
| Sessions.StartKeepsOneActive | app/routers/sessions.py:30-55 | appending an active session for a user without one keeps at most one active session per user |
| Sessions.StartSession | app/routers/sessions.py:13-55 | an unknown user gives 404 and a user with an active session gives 400, both changing nothing; otherwise one active session is appended, starting at the given time or at now; ended sessions are untouched |
| Sessions.EndSession | app/routers/sessions.py:58-86 | an unknown id gives 404 and an ended session gives 400, both changing nothing; otherwise only that session's end time is set to now |
| Sessions.GetSessionById | app/routers/sessions.py:89-103 | the stored session with that id, or 404 "Session not found" |
| Sessions.Matching | app/routers/sessions.py:106-140 | the rows kept are exactly those of the user on the requested day |
| Sessions.SortByStart | app/routers/sessions.py:106-140 | the result is sorted by start time and has the same rows, without duplicates |
| Sessions.GetSessionsForUser | app/routers/sessions.py:106-140 | 404 exactly for an unknown user; otherwise exactly the user's sessions on that day, each once, sorted by start time |
| Interruptions.CheckInterruption | app/routers/interruptions.py:21-52 | the four checks in their order, with their status and message: session exists (404), same user (400), session active (400), non-negative duration (400); on success the duration is end minus start |
| Interruptions.ValidatedNeverNegative | app/routers/interruptions.py:43-52 | a body that passed validation never gets the negative-duration error |
| Interruptions.AddKeepsAttached | app/routers/interruptions.py:54-66 | appending an interruption of an active session of its own user keeps every interruption attached |
| Interruptions.CreateInterruption | app/routers/interruptions.py:13-68 | a failed check returns its error and changes nothing; otherwise one interruption with the computed duration is appended and returned |
| Interruptions.OfSessionAppend | app/routers/interruptions.py:71-90 | the session filter keeps table order |
| Interruptions.GetInterruptionsForSession | app/routers/interruptions.py:71-90 | 404 exactly for an unknown session; otherwise exactly that session's interruptions, all of the session's user |
| Buckets.HourOf | app/core/stats_logic.py:205 | the hour of an instant lies in 0..23 |
| Buckets.WeekdayOf | app/core/stats_logic.py:375 | the weekday of an instant lies in 0..6, Monday first |
| Buckets.HourFromHourCount | app/core/stats_logic.py:195-206 | the hour of the day is the hour count since the epoch modulo 24 |
| Buckets.SameBucketUntilBoundary | app/core/stats_logic.py:195-206 | every instant before the next hour (or midnight) boundary is in the same bucket |
| Buckets.AddSpanTotal | app/core/stats_logic.py:195-206 | cutting a span at boundaries adds exactly its length to the buckets |
| Buckets.AddSpanBucket | app/core/stats_logic.py:195-206 | each bucket grows by exactly the seconds of the span that fall in it |
| Buckets.AddClippedTotal | app/core/stats_logic.py:173-206 | a session adds the length of its overlap with the window, nothing for one outside it |
| Buckets.AddClippedBucket | app/core/stats_logic.py:173-206 | a session adds to each bucket the seconds of its overlap that fall in it |
| StatsLogic.SessionsSince | app/core/stats_logic.py:26-33 | exactly the user's sessions started in the window |
| StatsLogic.InterruptionsSince | app/core/stats_logic.py:34-40 | exactly the user's interruptions started in the window |
| StatsLogic.LostIsTotalDuration | app/core/stats_logic.py:54-57 | with stored durations non-negative, lost time is their plain total |
| StatsLogic.SummaryStats | app/core/stats_logic.py:9-85 | the counts, worked time over finished sessions, lost time over positive durations, effective time as worked minus lost floored at 0, and the average and per-hour ratios with their zero cases |
| StatsLogic.IndexOfAppend | app/core/stats_logic.py:111-114 | appending a key does not move an existing key |
| StatsLogic.BumpGet | app/core/stats_logic.py:114 | bumping a type adds one to its count and leaves every other count alone |
| StatsLogic.BumpTotal | app/core/stats_logic.py:114-116 | bumping adds one to the total |
| StatsLogic.BumpKeepsShape | app/core/stats_logic.py:114 | bumping a type adds it as a key when it is new, keeps the keys unique and every count positive |
| StatsLogic.TallyStep | app/core/stats_logic.py:112-114 | counting one more interruption keeps the counts exactly those of the rows seen so far |
| StatsLogic.Proportions | app/core/stats_logic.py:118-123 | one proportion per type, in the counts' order, each its count over the total |
| StatsLogic.FirstOf | app/core/stats_logic.py:111-116 | the index of the first row of a type, or the number of rows when the type does not occur |
| StatsLogic.FirstOfSnoc | app/core/stats_logic.py:111-116 | a new row moves no type's first row, and a type seen for the first time has it at the new row |
| StatsLogic.BumpKeepsOrder | app/core/stats_logic.py:114 | bumping the type of a new row keeps the keys in order of first occurrence |
| StatsLogic.CountKinds | app/core/stats_logic.py:111-116 | each type present appears once with a count equal to its number of rows, keys in order of first occurrence, and the counts add up to the number of rows |
| StatsLogic.InterruptionTypeStats | app/core/stats_logic.py:88-131 | the counts of the in-window interruptions, keys in order of first occurrence, their total and proportions, all zero proportions when there are none |
| StatsLogic.WorkBucketsTotal | app/core/stats_logic.py:173-208 | the work buckets add up to the sessions' time inside the window |
| StatsLogic.WorkBucketsEach | app/core/stats_logic.py:173-208 | bucket k holds exactly the in-window seconds in hour (or weekday) k |
| StatsLogic.HoursAndWeekdaysAgree | app/core/stats_logic.py:173-208 | the hourly and the weekly views distribute the same total work |
| StatsLogic.CountBucketsTotal | app/core/stats_logic.py:217-227 | every interruption is counted in exactly one bucket |
| StatsLogic.CountBucketsEach | app/core/stats_logic.py:217-227 | bucket k counts exactly the interruptions starting in it |
| StatsLogic.LostBucketsTotal | app/core/stats_logic.py:387-409 | the weekly lost times add up to the summary's lost time |
| StatsLogic.SplitSession | app/core/stats_logic.py:173-208 | the chunking loop for one session computes its reference contribution |
| StatsLogic.SplitAll | app/core/stats_logic.py:173-208 | the loop over sessions computes the reference work buckets |
| StatsLogic.CountAll | app/core/stats_logic.py:217-227 | the loop over interruptions computes the reference counts |
| StatsLogic.ProductiveHours | app/core/stats_logic.py:134-253 | 24 entries, one per hour in order, with that hour's work, interruption count and interruptions per hour worked (0 for an hour without work) |
| StatsLogic.FirstMax | app/core/stats_logic.py:296 | the first index holding the maximum |
| StatsLogic.PeakDistractionHour | app/core/stats_logic.py:256-305 | no peak hour without interruptions; otherwise the earliest hour with the most interruptions, and the total |
| StatsLogic.PeakIsPositive | app/core/stats_logic.py:292-297 | with at least one interruption the peak hour has at least one |
| StatsLogic.CountAndLoseByDay | app/core/stats_logic.py:387-409 | the weekly interruption loop gives the reference counts and lost times |
| StatsLogic.BuildDays | app/core/stats_logic.py:411-428 | seven entries, Monday first, each with its work, lost, effective time floored at 0, and count |
| StatsLogic.WeeklyPattern | app/core/stats_logic.py:308-434 | the weekly report built from the reference buckets |
| StatsRouter.ParseRangeDays | app/routers/stats.py:17-44 | a parsed range is at least one day; each failure is one of the three 400 errors (which failure for which input: `StatsRouter.ParseByStripped`) |
| StatsRouter.ParseDigits | app/routers/stats.py:26-44 | any non-empty run of ASCII digits (leading zeros allowed), then `d` or `D`, with any whitespace around it, reads as the digits' decimal value, or is the "positive" error when that is zero |
| StatsRouter.ParseRoundTrip | app/routers/stats.py:17-44 | any positive day count in decimal, with a `d` or `D` and whitespace padding, parses back to itself |
| StatsRouter.ParseByStripped | app/routers/stats.py:26-44 | for every input, by its stripped form: no final `d`/`D` is exactly the format error; a final `d`/`D` after an empty or non-digit number part is exactly the value error; digits worth zero are exactly the "positive" error; otherwise success with the digits' value |
| StatsRouter.ParseOkShape | app/routers/stats.py:26-44 | the converse of `ParseDigits`: an accepted range is whitespace, ASCII digits, `d` or `D`, whitespace, and its value is the digits' value |
| StatsRouter.ParseDefault | app/routers/stats.py:17-44 | the default `7d` is seven days |
| StatsRouter.ParsePaddedUpperCase | app/routers/stats.py:26-38 | ` 14D ` reads as 14 days |
| StatsRouter.ParseMissingSuffix | app/routers/stats.py:26-31 | a range without the `d` suffix is a format error |
| StatsRouter.ParseBadNumber | app/routers/stats.py:32-37 | an empty or non-numeric number part is a value error |
| StatsRouter.ParseZero | app/routers/stats.py:38-44 | zero days is rejected |
| StatsRouter.EnsureUserExists | app/routers/stats.py:47-53 | 404 "User not found" exactly for an unknown user |
| StatsRouter.CheckRequest | app/routers/stats.py:56-67 | the user check comes before the range check |
| StatsRouter.StatsSummary | app/routers/stats.py:56-67 | the check's error, or exactly the summary that `StatsLogic.IsSummary` describes for the parsed range, as the logic method computes it |
| StatsRouter.StatsInterruptionTypes | app/routers/stats.py:70-81 | the check's error, or exactly the type statistics that `StatsLogic.IsTypeStats` describes for the parsed range, as the logic method computes it |
| StatsRouter.StatsProductiveHours | app/routers/stats.py:84-98 | the check's error, or exactly the hourly report that `StatsLogic.IsHoursReport` describes for the parsed range, as the logic method computes it |
| StatsRouter.StatsPeakDistractionTime | app/routers/stats.py:101-112 | the check's error, or exactly the peak report that `StatsLogic.IsPeakReport` describes for the parsed range, as the logic method computes it |
| StatsRouter.StatsWeeklyPattern | app/routers/stats.py:115-130 | the check's error, or exactly the weekly report that `StatsLogic.IsWeeklyReport` describes for the parsed range, as the logic method computes it |
| App.SomeHasId | frontend/src/App.jsx:163 | `some` is true only if an entry has the id, false exactly when no entry is null or has it, and throws only on a null entry |
| App.Reconcile | frontend/src/App.jsx:161-166 | the selection is dropped exactly when it is set and the new list holds no session with its id |
| App.NormalizeList | frontend/src/App.jsx:215-221 | an array is kept, an array under the key is taken, anything else becomes `[]`; only a null body throws |
| App.EffectOf | frontend/src/App.jsx:28-269 | a failed load sets only its own message; each answered load sets its own slot, with the normalisers and the sessions reconciliation |
| App.Begin | frontend/src/App.jsx:152-157 | a blank user id sends nothing; otherwise the load's one request is logged and no slot changes |
| App.Settle | frontend/src/App.jsx:158-170 | settling one load changes only its own slot, the error, the summary's loading flag and the selection; it sends nothing |
| App.FailureOnlySetsError | frontend/src/App.jsx:167-170 | a failed load leaves every slot and the selection as they were |
| App.Cleared | frontend/src/App.jsx:271-280 | every slot reset, the error cleared, nothing selected |
| App.LastError | frontend/src/App.jsx:287-294 | none exactly when no load in the order failed; otherwise the message of a failed load after which no load in the order failed |
| App.SettleAllSlot | frontend/src/App.jsx:287-294 | each load's slot is decided by its own answer alone |
| App.SettleAllError | frontend/src/App.jsx:287-294 | after concurrent loads the error is the last failure's message, or the previous one when none failed |
| App.SettleAllKeeps | frontend/src/App.jsx:287-294 | settling sends nothing, keeps the user id, and ends the summary's loading flag exactly when the summary settled |
| App.FetchAllFromBegun | frontend/src/App.jsx:271-295 | "Load data" is the resets, the six requests, then the six settles |
| App.FetchAllRequests | frontend/src/App.jsx:282-294 | a blank id only shows the prompt; otherwise the six requests go out in array order |
| App.FetchAllSlots | frontend/src/App.jsx:271-295 | after "Load data" each slot holds what its own answer gives from the cleared state |
| App.FetchAllError | frontend/src/App.jsx:271-295 | the error is `App.LastError` of the settle order (or empty): empty when no load failed, otherwise the message of the last failure to arrive |
| App.SettleOrderOnlyDecidesError | frontend/src/App.jsx:287-294 | the arrival order of the six answers decides only the error message |
| App.ListSlotsAreArrays | frontend/src/App.jsx:215-244 | an answered hours or weekly load always leaves an array in its slot |
| App.WeeklyNormaliserMissesDays | frontend/src/App.jsx:241-244 | a weekly answer listing its days under `days` is stored as `[]`, while the hours answer under `hours` is read |
| App.FetchOneIssued | frontend/src/App.jsx:152-171 | one load sends its own request, or nothing and changes nothing for a blank id |
| App.CascadeBlank | frontend/src/App.jsx:472-479 | with a blank id a refresh cascade changes nothing |
| App.CascadeIssued | frontend/src/App.jsx:472-479 | with a user id a refresh cascade sends its loads' requests in its own order |
| App.SettleInterruptions | frontend/src/App.jsx:180-187 | an answer replaces the interruption list; a failure only sets its message |
| App.FetchInterruptionsSpec | frontend/src/App.jsx:173-188 | a falsy session id does nothing; otherwise one request for that session |
| App.Select | frontend/src/App.jsx:297-301 | a click sets the selection, empties the list and requests the session's interruptions |
| App.LateAnswerWins | frontend/src/App.jsx:297-301 | an earlier click's answer arriving last overwrites the later session's list |
| App.SessionsCascadeOrder | frontend/src/App.jsx:472-479 | after a session change: sessions, then the five statistics, in that order |
| App.InterruptionsCascadeOrder | frontend/src/App.jsx:490-497 | after an interruption: the session's interruptions, then the five statistics |
| App.NumberOf | frontend/src/components/SessionsPanel.jsx:30 | a digit string becomes its decimal value; a converted number is never negative |
| App.AllSamplesPosted | frontend/src/App.jsx:121-141 | when no sample request is rejected, every sample is posted, in order, whatever each answer's status |
| App.PostSamplesStaysAborted | frontend/src/App.jsx:121-149 | once a sample request is rejected (the fetch throws), later samples send nothing; a non-2xx answer only logs |
| App.SampleRequests | frontend/src/App.jsx:95-133 | one request per sample |
| App.DemoStopsWithoutUser | frontend/src/App.jsx:59-74 | a failed user creation stops the demo after one request, with its message |
| App.DemoStopsWithoutSession | frontend/src/App.jsx:77-91 | a failed session creation stops the demo after two requests, with the new id already shown |
| App.DemoRunsLoadAll | frontend/src/App.jsx:47-150 | with everything accepted: the user (its e-mail from the first clock reading), the session, every sample (timed from the second reading), then the render's "Load data" |
| App.DemoFromBlankPageLoadsNothing | frontend/src/App.jsx:77-143 | started from a blank id, the final load only shows the prompt, because it uses the id of the render that was clicked |
| App.Dashboard.constructor | frontend/src/App.jsx:13-24 | the initial state |
| App.Dashboard.ClearAll | frontend/src/App.jsx:271-280 | the resets |
| App.Dashboard.BeginFetch | frontend/src/App.jsx:152-157 | the start of a load, as `App.Begin` |
| App.Dashboard.SettleFetch | frontend/src/App.jsx:158-170 | the end of a load, as `App.Settle` |
| App.Dashboard.Fetch | frontend/src/App.jsx:152-171 | one awaited load |
| App.Dashboard.FetchAll | frontend/src/App.jsx:271-295 | `handleFetchAll`, as `App.FetchAllSpec` |
| App.Dashboard.FetchInterruptions | frontend/src/App.jsx:173-188 | `fetchInterruptions`, as `App.FetchInterruptionsSpec` |
| App.Dashboard.SettleInterruptionsFetch | frontend/src/App.jsx:180-187 | the end of `fetchInterruptions` |
| App.Dashboard.SelectSession | frontend/src/App.jsx:297-300 | `handleSelectSession` up to its await |
| App.Dashboard.OnSessionsChange | frontend/src/App.jsx:472-479 | the sessions refresh cascade |
| App.Dashboard.OnInterruptionsChange | frontend/src/App.jsx:490-497 | the interruptions refresh cascade |
| App.Dashboard.ClearSlots | frontend/src/App.jsx:273-279 | the six data slots reset, everything else kept |
| App.Dashboard.SettleStat | frontend/src/App.jsx:37-39 | an answered summary, type or peak load stores its body, as `App.Settle` |
| App.Dashboard.SettleList | frontend/src/App.jsx:215-221 | an answered hours or weekly load stores the normalised array, as `App.Settle` |
| App.Dashboard.SettleSessions | frontend/src/App.jsx:161-166 | an answered sessions load stores the list and drops a selection it no longer holds, as `App.Settle` |
| App.Dashboard.BeginAll | frontend/src/App.jsx:287-294 | the six loads started in array order: their requests sent, the summary loading |
| App.Dashboard.UseDemoData | frontend/src/App.jsx:47-150 | `handleUseDemoData`, as `App.DemoSpec` |
| App.Dashboard.SendDemoUser | frontend/src/App.jsx:48-68 | the resets and the demo user's request, as `App.DemoUserSent` |
| App.Dashboard.FinishDemo | frontend/src/App.jsx:121-149 | the samples, then "Load data" unless a sample request was rejected |
| App.Dashboard.PostDemoSamples | frontend/src/App.jsx:121-140 | the sample loop, as `App.PostSamples`: stops at the first rejected request |
| SessionsPanel.StartNeedsUser | frontend/src/components/SessionsPanel.jsx:20-24 | without a user id only the prompt changes and nothing is sent |
| SessionsPanel.StartFailureSkipsCascade | frontend/src/components/SessionsPanel.jsx:25-39 | a rejected start sends one request, runs no refresh and shows its message |
| SessionsPanel.StartSuccessRunsCascadeOnce | frontend/src/components/SessionsPanel.jsx:25-35 | an accepted start is followed by exactly one refresh cascade |
| SessionsPanel.EndFailureSkipsCascade | frontend/src/components/SessionsPanel.jsx:42-57 | a rejected end sends its one request, shows its message and changes no slot |
| SessionsPanel.EndSuccessRunsCascadeOnce | frontend/src/components/SessionsPanel.jsx:42-57 | an accepted end is followed by exactly one refresh cascade: sessions, then the five statistics |
| SessionsPanel.ShowRow | frontend/src/components/SessionsPanel.jsx:133-155 | a row is Active, with the End button, exactly while its end time is falsy, and is highlighted exactly when it is selected |
| SessionsPanel.ServiceRowsShowTheirState | frontend/src/components/SessionsPanel.jsx:133-155 | a session from the service has the End button exactly when its end time is null |
| SessionsPanel.StartSession | frontend/src/components/SessionsPanel.jsx:20-40 | `handleStartSession` on the page's state |
| SessionsPanel.EndSession | frontend/src/components/SessionsPanel.jsx:42-57 | `handleEndSession` on the page's state |
| InterruptionsPanel.TypesAreTheServiceValues | frontend/src/components/InterruptionsPanel.jsx:11-18 | the selector offers exactly the service's six types, in enum order |
| InterruptionsPanel.SelectionCheckedFirst | frontend/src/components/InterruptionsPanel.jsx:35-43 | without a user or a selected session the form only shows its prompt |
| InterruptionsPanel.TimesRequired | frontend/src/components/InterruptionsPanel.jsx:44-47 | a missing start or end time only shows its prompt and sends nothing |
| InterruptionsPanel.FailureKeepsFields | frontend/src/components/InterruptionsPanel.jsx:48-85 | a rejected submission keeps the typed fields, shows the error and runs no refresh |
| InterruptionsPanel.SuccessResetsAndRefreshes | frontend/src/components/InterruptionsPanel.jsx:48-85 | an accepted submission clears the description and times, keeps the type, and runs the refresh once |
| InterruptionsPanel.InterruptionForm.constructor | frontend/src/components/InterruptionsPanel.jsx:27-31 | the empty form, type `phone` |
| InterruptionsPanel.InterruptionForm.Submit | frontend/src/components/InterruptionsPanel.jsx:35-86 | `handleCreateInterruption` on the form and the page |
| InterruptionsPanel.InterruptionForm.SendRequest | frontend/src/components/InterruptionsPanel.jsx:48-85 | the handler's `try` and `finally`, as `InterruptionsPanel.Send` |
| InterruptionsPanel.InterruptionForm.Accepted | frontend/src/components/InterruptionsPanel.jsx:71-74 | an accepted request empties the description and both times, then runs the interruptions refresh |
| DashboardPage.Entries | frontend/src/pages/DashboardPage.jsx:50 | `Object.entries`: one entry per object member in order, per array index, or per character; none for other values |
| DashboardPage.ArrayField | frontend/src/pages/DashboardPage.jsx:53-54 | the array under the key, or `[]` |
| DashboardPage.LoadRequestsAndEnds | frontend/src/pages/DashboardPage.jsx:35-63 | every load asks for the four statistics of the current range and ends not loading |
| DashboardPage.LoadFailureKeepsSlots | frontend/src/pages/DashboardPage.jsx:39-59 | when any of the four requests fails, no slot changes |
| DashboardPage.LoadedSummary | frontend/src/pages/DashboardPage.jsx:46 | the summary is the answer, or `{}` when that is falsy, so it is always truthy after a load |
| DashboardPage.LoadedTypes | frontend/src/pages/DashboardPage.jsx:49-51 | one pie entry per key of `counts`, in order, with its count |
| DashboardPage.LoadedTypesWithoutCounts | frontend/src/pages/DashboardPage.jsx:49-51 | no `counts` gives no pie entries |
| DashboardPage.LoadedLists | frontend/src/pages/DashboardPage.jsx:53-54 | the weekly pattern is the `days` array and the hours the `hours` array |
| DashboardPage.LoadedListsMissing | frontend/src/pages/DashboardPage.jsx:53-54 | missing lists become `[]` |
| DashboardPage.RangeChangeReloads | frontend/src/pages/DashboardPage.jsx:63-79 | choosing the range shown loads nothing; another range loads it |
| DashboardPage.CardValue | frontend/src/pages/DashboardPage.jsx:68-69 | a truthy count is shown as it is, anything else as 0 |
| DashboardPage.FailedFirstLoadShowsZeros | frontend/src/pages/DashboardPage.jsx:28-69 | a failed first load shows zero counts and empty charts |
| DashboardPage.PieColor | frontend/src/pages/DashboardPage.jsx:21 | a slice's colour is one of the five, the i-th for the first five |
| DashboardPage.PieColorsCycle | frontend/src/pages/DashboardPage.jsx:133-134 | five consecutive slices have five different colours, and the colours repeat every five |
| DashboardPage.Dashboard.constructor | frontend/src/pages/DashboardPage.jsx:28-33 | the state before the first load |
| DashboardPage.Dashboard.FetchAllStats | frontend/src/pages/DashboardPage.jsx:36-60 | `fetchAllStats`, as `DashboardPage.LoadSpec` |
| DashboardPage.Dashboard.SelectRange | frontend/src/pages/DashboardPage.jsx:63-79 | the range selector and the effect it triggers |
| AuthStore.DetailOf | frontend/src/store/authStore.js:34 | only a refused request has a `detail` |
| AuthStore.MsgText | frontend/src/store/authStore.js:38 | reading `msg` throws exactly on a null entry |
| AuthStore.Messages | frontend/src/store/authStore.js:38 | one message per entry, throwing exactly when an entry is null |
| AuthStore.LoginErrorMessage | frontend/src/store/authStore.js:33-42 | "Login failed" without a truthy detail; the detail itself when it is not a list; a list's messages joined into a string |
| AuthStore.MessagesOfValidationErrors | frontend/src/store/authStore.js:38 | validation errors with string messages give exactly those messages |
| AuthStore.ValidationErrorsJoined | frontend/src/store/authStore.js:37-38 | a 422 list of validation errors shows their messages joined with ", " |
| AuthStore.LoginSucceeds | frontend/src/store/authStore.js:14-31 | login returns true exactly when the token and user requests are both answered with a token, and then holds the token and the user |
| AuthStore.LoginFailureDropsToken | frontend/src/store/authStore.js:44-50 | a login returning false has dropped the token and authentication and stopped loading |
| AuthStore.LoginFailureMessage | frontend/src/store/authStore.js:32-49 | the error after a failed login is the message derived from the failing reply |
| AuthStore.LoginThrows | frontend/src/store/authStore.js:32-42 | login throws only on a null entry in a validation list, and is then left loading without an error |
| AuthStore.RegisterOutcomes | frontend/src/store/authStore.js:54-68 | registration returns true exactly when answered; a failure shows the detail or "Registration failed" |
| AuthStore.Partialize | frontend/src/store/authStore.js:76 | only the token, the user and the authentication flag are stored |
| AuthStore.PersistedIgnoresTransient | frontend/src/store/authStore.js:76 | loading flags, errors and requests never reach storage |
| AuthStore.LogoutForgetsSession | frontend/src/store/authStore.js:70-72 | after logout storage holds what a fresh store holds; logout is idempotent |
| AuthStore.FailedLoginPersists | frontend/src/store/authStore.js:44-49 | a failed login stores no token, no authentication and the previous user |
| AuthStore.Store.constructor | frontend/src/store/authStore.js:8-12 | the empty store |
| AuthStore.Store.Login | frontend/src/store/authStore.js:14-52 | `login`, as `AuthStore.LoginSpec` |
| AuthStore.Store.Register | frontend/src/store/authStore.js:54-68 | `register`, as `AuthStore.RegisterSpec` |
| AuthStore.Store.Logout | frontend/src/store/authStore.js:70-72 | `logout` clears the user, the token and the flag |
| RegisterPage.Utf16Length | frontend/src/pages/RegisterPage.jsx:19 | a password's length counts one or two code units per character |
| RegisterPage.CountTrue | frontend/src/pages/RegisterPage.jsx:18-24 | the number of criteria met is at most their number, all exactly when every one holds, none exactly when none does |
| RegisterPage.CalculateStrength | frontend/src/pages/RegisterPage.jsx:16-25 | the score is one point per criterion met, 0 for an empty password |
| RegisterPage.NonEmptyScores | frontend/src/pages/RegisterPage.jsx:20-23 | every non-empty password scores at least one |
| RegisterPage.StrengthBounds | frontend/src/pages/RegisterPage.jsx:16-25 | the score lies in 0..5, is 0 only for the empty password and 5 exactly when all five criteria hold |
| RegisterPage.StrongExample | frontend/src/pages/RegisterPage.jsx:16-25 | `Abcdef1!` scores 5 |
| RegisterPage.ShortExample | frontend/src/pages/RegisterPage.jsx:19 | `Abcde1!`, one character short, scores 4 |
| RegisterPage.BandsAgree | frontend/src/pages/RegisterPage.jsx:37-48 | label and colour agree band by band, and "Strong" is exactly a password meeting every criterion |
| RegisterPage.SubmitGate | frontend/src/pages/RegisterPage.jsx:29-35 | a weak password changes nothing and sends nothing; the page moves to login exactly for a strong password whose registration was answered; the button is enabled exactly for a strong password |
| RegisterPage.Submit | frontend/src/pages/RegisterPage.jsx:29-35 | `onSubmit`, as `RegisterPage.SubmitSpec` |
| SummaryCards.JsRem | frontend/src/components/SummaryCards.jsx:8 | JavaScript's `%` keeps the dividend's sign |
| SummaryCards.FormatSeconds | frontend/src/components/SummaryCards.jsx:3-14 | the formatter builds the text `SummaryCards.SecondsText` describes |
| SummaryCards.FormatShapes | frontend/src/components/SummaryCards.jsx:10-13 | "Hh Mm", "Hh" on the hour, "Mm" below an hour; never empty |
| SummaryCards.FormatRoundsDownToMinute | frontend/src/components/SummaryCards.jsx:7-8 | a non-negative duration is shown rounded down to the minute |
| SummaryCards.FormatNegative | frontend/src/components/SummaryCards.jsx:7-8 | a negative duration keeps its sign in both parts, minutes reaching -60 |
| SummaryCards.FormatExamples | frontend/src/components/SummaryCards.jsx:3-14 | 0 reads "0m", 3900 "1h 5m", 7200 "2h", null "-" |
| SummaryCards.FormatNonEmpty | frontend/src/components/SummaryCards.jsx:3-14 | the formatter never returns an empty text |
| SummaryCards.NumArg | frontend/src/components/SummaryCards.jsx:46-54 | a numeric property gives its number; anything else counts as missing |
| SummaryCards.CardsDefaults | frontend/src/components/SummaryCards.jsx:37-102 | no summary shows the placeholder; missing counts show 0, a present 0 stays 0, missing durations show "-" |
| WeeklyPatternPanel.PlaceholderWhenEmpty | frontend/src/components/WeeklyPatternPanel.jsx:15-39 | the placeholder shows exactly for falsy or empty statistics |
| WeeklyPatternPanel.RowsFollowDays | frontend/src/components/WeeklyPatternPanel.jsx:83-97 | one row per day entry, in order, keyed by its index, a missing count shown as 0 |
| WeeklyPatternPanel.DurationCells | frontend/src/components/WeeklyPatternPanel.jsx:3-12 | duration cells are "-" when missing, "0m" for zero, never empty |
| WeeklyPatternPanel.StoredSlotFailsOnlyOnNull | frontend/src/components/WeeklyPatternPanel.jsx:83 | with what the dashboard stores, the table fails only on a null entry |
| WeeklyPatternPanel.BackendWeekShowsPlaceholder | frontend/src/components/WeeklyPatternPanel.jsx:15-39 | the service's weekly answer, read through the dashboard, always shows the placeholder |
| ProductiveHoursPanel.RoundDivNearest | frontend/src/components/ProductiveHoursPanel.jsx:6 | rounding division is within half a unit of the quotient |
| ProductiveHoursPanel.MinutesText | frontend/src/components/ProductiveHoursPanel.jsx:3-8 | "-" exactly for a missing value |
| ProductiveHoursPanel.MinutesNearest | frontend/src/components/ProductiveHoursPanel.jsx:3-8 | a duration is shown as its nearest whole number of minutes |
| ProductiveHoursPanel.MaxWork | frontend/src/components/ProductiveHoursPanel.jsx:37 | the busiest hour's work: an upper bound that some entry attains |
| ProductiveHoursPanel.WidthBounds | frontend/src/components/ProductiveHoursPanel.jsx:82-83 | a bar is 0..100% wide, 100% for the busiest hour, and more work never gives a narrower bar |
| ProductiveHoursPanel.BandsOrdered | frontend/src/components/ProductiveHoursPanel.jsx:113-118 | green, lime and grey are ordered by width |
| ProductiveHoursPanel.HourLabelRoundTrip | frontend/src/components/ProductiveHoursPanel.jsx:87 | hours 0..23 read as two digits and ":00", and the digits give the hour back |
| ProductiveHoursPanel.PlaceholderWhenEmpty | frontend/src/components/ProductiveHoursPanel.jsx:11-35 | the placeholder shows exactly for falsy or empty statistics |
| ProductiveHoursPanel.BarsScaledToBusiestHour | frontend/src/components/ProductiveHoursPanel.jsx:37-118 | every bar is within 0..100%, and when some hour has work the busiest one has a full green bar |
| ProductiveHoursPanel.RowWithinScale | frontend/src/components/ProductiveHoursPanel.jsx:82-83 | an hour with work between none and the maximum gets a bar between 0 and 100% |
| ProductiveHoursPanel.BusiestRowFull | frontend/src/components/ProductiveHoursPanel.jsx:82-116 | the busiest hour, when it has work, gets a full green bar |

## Left out

- HTTP transport, the database engine, sessions and transactions. Tables are sequences with no deletes, and row ids are positions.
- Network answers are parameters, and so is "now" (the service's clock; the browser's `Date.now` for the demo e-mail and its later `new Date()` for the sample times, two separate parameters).
- `toISOString`, `toLocaleString` and time zones: instants are whole UTC seconds.
- Concurrency of `Promise.all`. The six loads settle in an order the caller chooses, and the lemmas hold for every order.
- `created_at` columns and e-mail syntax (`EmailStr`).
- Floating point: ratios are exact fractions, and the float ties of `Math.round` are not modelled.
- `toFixed` on the effective-hours card and the summary card's hours.
- Rendering, charts, styles, routing and `console.error`.
- The storage back end of the persisted auth store. `AuthStore.Partialize` is what it writes.
- react-hook-form's field rules on the sign-up page, other than the strength gate.
- frontend/src/api/axios.js is not part of this model. The auth store's and the dashboard page's requests are logged by path and by the values they carry.
- The peak-distraction and interruption-types panels of the App page, other than the slots they read.
- The service's `/login/access-token`, `/users/me` and `/register` endpoints are not in the modelled routers. The store sees only their answers.
- `SummaryCards.NumArg`: a duration that is any non-number (a string, a boolean, an array or an object) counts as missing and is shown as "-". JavaScript would convert it with `Number`, which gives "0m" for an empty array and "NaNm" for an object.
- `ProductiveHoursPanel.WorkOf`: a non-numeric `work_seconds` counts as 0 when the busiest hour is found.
- `ProductiveHoursPanel.WidthPercent`: the width is computed on integers. A non-numeric value is NaN and gets the grey band.
- `App.NumberOf` converts only digit strings exactly. Other text (signs, decimals, exponents, whitespace) becomes null, as JavaScript's NaN is serialised.
- `DashboardPage.Entries`: integer-like keys are kept in member order rather than JavaScript's ascending order, and strings are split by character rather than by UTF-16 unit.
- `AuthStore.TokenOf`: an absent `access_token` is stored as null, not `undefined`.
- Unicode case folding and digits beyond ASCII in the range parser.

## Notes on behaviour

Some consequences of the code that are easy to miss, each stated by the
lemmas named with it:

- **Weekly statistics reach the App page only as `[]`.** The service lists
  the weekly days under `days`, but the App page looks for `weekly`. So the
  App's weekly panel always shows its placeholder
  (`App.WeeklyNormaliserMissesDays`,
  `WeeklyPatternPanel.BackendWeekShowsPlaceholder`). The statistics
  dashboard page reads `days` and is not affected.
- **A late answer still wins.** Selecting a session does not discard
  answers for an earlier selection, so a late answer overwrites the list
  (`App.LateAnswerWins`).
- **Ending a session twice is an error.** The second end returns 400
  (`Sessions.EndSession`).
- **The demo's final load uses the old user id.** It runs with the user id
  of the render that was clicked, not the demo user's id
  (`App.DemoFromBlankPageLoadsNothing`).
- **A failed login keeps the previous user.** It clears the token but
  leaves the previous user in storage (`AuthStore.FailedLoginPersists`).
