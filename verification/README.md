# Nexora system monitor — a Dafny model of its core

Nexora is a desktop system monitor. A Go agent samples CPU, memory and the
process list and streams them over three WebSockets (`/ws/cpu`,
`/ws/memory`, `/ws/processes`). A React/Redux dashboard draws charts and a
process table from those streams. An Electron shell shows a tray icon that
changes with the CPU load.

This project models the parts that carry the logic:

- the process table's pipeline: classify, order, filter, sort, page;
- the process search autocomplete and its keyboard handling;
- the formatting helpers of the process details modal;
- the Redux slices and the store that combines them;
- the reconnecting socket wrapper;
- the message handlers of the three dashboard components;
- the port manager's launch form;
- the tray's reaction to CPU load;
- the agent's monitoring switch, caches and frame writers, and its memory reading.

Modelling choices:

- Everything is modelled with immutable datatypes and pure functions. Each
  reducer is a function from state and payload to state.
- Each React effect, timer and socket callback is an explicit event.
- Side effects are lists of actions or effect values. A handler returns
  them; the store or the caller applies them.
- JavaScript numbers are `Finite(real) | NaN`.
- A raw JSON field is `Missing | Null | Number | NonNumeric`, so `||`,
  `Number(...)` and truthiness are written out.
- Strings are sequences of code points.

Modules follow the source files:

| Module | Source |
|---|---|
| `Js`, `Text`, `Seqs` | shared helpers |
| `ProcessRecords`, `ProcessView` | the record predicates and the table pipeline of `Processes.jsx` |
| `Autocomplete` | `ProcessAutocomplete.jsx` |
| `ProcessDetails` | `ProcessDetailsModal.jsx` |
| `CpuSlice`, `MemorySlice`, `ProcessesSlice`, `MonitoringSlice`, `LoadingProgress`, `NotificationsSlice`, `ConfirmModal`, `InfoSlices`, `Store` | the Redux store |
| `Notify` | `notifications.js` |
| `RealtimeSocket` | `RealtimeSocket.js` |
| `CpuChart`, `MemoryChart`, `ProcessesFeed` | the three socket consumers |
| `Dashboard` | how the three consumers and the monitoring flag interact over time |
| `PortManager` | `PortManager.jsx` |
| `Tray` | `electron/main.js` |
| `Agent` | `ws.go` |
| `MemoryMetrics` | `memory_metrics.go` |

`isProcessUnknown` in `Processes.jsx` returns `unknownName || emptyMeta`.
A missing or placeholder name alone makes a record unknown, and so does
empty metadata alone. `ProcessRecords.IsUnknown` states both cases, and
`ProcessRecords.UnknownIsDisjunction` shows them on concrete records.

## Model

| member | source | states |
|---|---|---|
| ProcessRecords.HasUnknownName | frontend/src/components/processes/Processes.jsx:200 | the name is missing or equals the placeholder 'неизвестно' after lower-casing; the placeholder itself qualifies, and only names of length 0 or of the placeholder's length can |
| ProcessRecords.HasEmptyMeta | frontend/src/components/processes/Processes.jsx:201-205 | executable, command line and user name are all empty and the start time is 0 |
| ProcessRecords.IsUnknown | frontend/src/components/processes/Processes.jsx:199-207 | an unknown name alone makes a record unknown, empty metadata alone does too, and nothing else does |
| ProcessRecords.CpuPercent | frontend/src/components/processes/Processes.jsx:209-214 | the CPU figure is never negative; NaN reads as 0 and a negative reading is clamped to 0, otherwise the reading is kept |
| ProcessRecords.MemoryMb | frontend/src/components/processes/Processes.jsx:216-220 | memory in MB is positive exactly when the resident byte count is a positive number, and then it is that count divided by 1024*1024 |
| ProcessRecords.RowSeverity | frontend/src/components/processes/Processes.jsx:234-242 | critical iff CPU >= 60 or memory >= 800 MB; elevated iff not critical and CPU >= 30 or memory >= 400 MB; normal iff both are below the lower bounds |
| ProcessRecords.SeverityMonotone | frontend/src/components/processes/Processes.jsx:234-242 | a record with at least the CPU and memory of another is at least as severe |
| ProcessRecords.InactiveIsNormal | frontend/src/components/processes/Processes.jsx:230-242 | a record with no CPU and no memory is always of normal severity |
| ProcessRecords.UnknownIsDisjunction | frontend/src/components/processes/Processes.jsx:199-207 | a named record with no metadata is unknown, and so is a fully described record named with the placeholder in capitals; a named record with an executable is not |
| ProcessView.Classify | frontend/src/components/processes/Processes.jsx:244-250 | each of the unknown, active and inactive groups holds exactly the snapshot's records of that kind |
| ProcessView.ClassifyPartition | frontend/src/components/processes/Processes.jsx:244-250 | the three groups together are a permutation of the snapshot, so every record lands in exactly one group |
| ProcessView.SortedGroup | frontend/src/components/processes/Processes.jsx:251-257 | a sorted group is ordered by CPU descending, then memory descending, then name ascending, and holds the same records |
| ProcessView.VisibleRows | frontend/src/components/processes/Processes.jsx:244-270 | a record is visible iff it is in the snapshot and either unknown records are shown or it is not unknown |
| ProcessView.VisibleRowsOrder | frontend/src/components/processes/Processes.jsx:244-270 | the visible rows are the sorted active group, then the sorted inactive group, then the unknown group when it is shown |
| ProcessView.VisibleRowsPermutation | frontend/src/components/processes/Processes.jsx:244-270 | with unknown records shown, the visible rows are a permutation of the snapshot |
| ProcessView.HiddenUnknownExcluded | frontend/src/components/processes/Processes.jsx:244-270 | with unknown records hidden, a record is visible iff it is in the snapshot and not unknown |
| ProcessView.ByPid | frontend/src/components/processes/Processes.jsx:277-280 | the pid stage keeps a subsequence; a blank query keeps every row; every kept row's pid text contains the trimmed, lower-cased query |
| ProcessView.ByName | frontend/src/components/processes/Processes.jsx:282-289 | the name stage keeps a subsequence of rows whose lower-cased name contains the query, and everything when the query is blank |
| ProcessView.ByPort | frontend/src/components/processes/Processes.jsx:291-297 | the port stage keeps a subsequence of rows with some port whose decimal text contains the query, and everything when the query is blank |
| ProcessView.ByUser | frontend/src/components/processes/Processes.jsx:299-306 | the user stage keeps a subsequence of rows whose lower-cased user name contains the query, and everything when the query is blank |
| ProcessView.BlankQueryKeepsAll | frontend/src/components/processes/Processes.jsx:299-306 | a query that trims to nothing matches every row |
| ProcessView.ByCpu | frontend/src/components/processes/Processes.jsx:308-317 | the CPU stage keeps a subsequence of rows within the given bounds, and everything when no bound is set |
| ProcessView.ByMemory | frontend/src/components/processes/Processes.jsx:319-328 | the memory stage keeps a subsequence of rows whose MB figure is within the given bounds, and everything when no bound is set |
| ProcessView.StagesConjunction | frontend/src/components/processes/Processes.jsx:274-328 | the conjunction of the six stage predicates is the single criteria predicate |
| ProcessView.ChainedStages | frontend/src/components/processes/Processes.jsx:274-328 | running the six filters one after another equals one filter by their conjunction |
| ProcessView.FilterRows | frontend/src/components/processes/Processes.jsx:274-328 | the filter chain returns a subsequence of its input |
| ProcessView.FilterRowsIsConjunction | frontend/src/components/processes/Processes.jsx:274-328 | the filtered rows are exactly the input rows that meet every criterion, in input order |
| ProcessView.FilterRowsCommute | frontend/src/components/processes/Processes.jsx:274-328 | applying two sets of criteria in either order gives the same rows |
| ProcessView.EmptyCriteriaKeepAll | frontend/src/components/processes/Processes.jsx:274-328 | blank queries and no numeric bounds keep every row |
| ProcessView.CpuRangeInclusive | frontend/src/components/processes/Processes.jsx:308-317 | with both CPU bounds set, a row is kept iff its CPU figure lies in the closed range |
| ProcessView.MemoryRangeInclusive | frontend/src/components/processes/Processes.jsx:319-328 | with both memory bounds set, a row is kept iff its MB figure lies in the closed range |
| ProcessView.InvertedRangeEmpty | frontend/src/components/processes/Processes.jsx:308-328 | a minimum above the maximum leaves no rows |
| ProcessView.PidStageIsFilter | frontend/src/components/processes/Processes.jsx:277-280 | the pid stage is a filter by the pid predicate |
| ProcessView.NameStageIsFilter | frontend/src/components/processes/Processes.jsx:282-289 | the name stage is a filter by the name predicate |
| ProcessView.PortStageIsFilter | frontend/src/components/processes/Processes.jsx:291-297 | the port stage is a filter by the port predicate |
| ProcessView.UserStageIsFilter | frontend/src/components/processes/Processes.jsx:299-306 | the user stage is a filter by the user predicate |
| ProcessView.CpuStageIsFilter | frontend/src/components/processes/Processes.jsx:308-317 | the CPU stage is a filter by the bounds predicate |
| ProcessView.MemoryStageIsFilter | frontend/src/components/processes/Processes.jsx:319-328 | the memory stage is a filter by the bounds predicate |
| ProcessView.ColumnSortOrdered | frontend/src/components/processes/Processes.jsx:330-349 | a column sort orders rows by that column's value, ascending or descending as asked |
| ProcessView.ColumnSortStable | frontend/src/components/processes/Processes.jsx:330-349 | rows with equal column values keep their relative order |
| ProcessView.ApplySort | frontend/src/components/processes/Processes.jsx:330-349 | sorting keeps the same rows; without a column the rows are unchanged, and with one they are ordered by it in the chosen direction |
| ProcessView.ApplySortSpec | frontend/src/components/processes/Processes.jsx:330-349 | with no sort column the rows come back unchanged; with one, they are a permutation ordered and stable by that column |
| ProcessView.HandleSort | frontend/src/components/processes/Processes.jsx:354-361 | clicking a column selects it; clicking the selected column flips the order; clicking a new column starts descending |
| ProcessView.HandleSortTwice | frontend/src/components/processes/Processes.jsx:354-361 | two clicks on the selected column restore the sort state |
| ProcessView.FilteredRowsUnsorted | frontend/src/components/processes/Processes.jsx:244-352 | without a sort column, the table shows the visible rows filtered by the criteria |
| ProcessView.FilteredRows | frontend/src/components/processes/Processes.jsx:244-352 | a record is in the table iff it is in the snapshot, is shown under the unknown switch, and meets every criterion |
| ProcessView.SortedFilterMembers | frontend/src/components/processes/Processes.jsx:274-352 | sorting the filtered rows keeps exactly the input rows that meet the criteria |
| ProcessView.FilteredRowsSorted | frontend/src/components/processes/Processes.jsx:244-352 | the table's rows are always a permutation of the filtered visible rows |
| ProcessView.NearBottom | frontend/src/components/processes/Processes.jsx:412 | the table counts as scrolled to the bottom iff at most 48 px of it lie below the visible part |
| ProcessView.ResetRenderCount | frontend/src/components/processes/Processes.jsx:405-407 | a new table result starts again at one page, which meets the paging invariant for any row count and renders at most 100 rows |
| ProcessView.LoadMore | frontend/src/components/processes/Processes.jsx:409-418 | scrolling adds one page iff there is a scroll element, it is within 48 px of the bottom, and rows remain; otherwise the count stays |
| ProcessView.RenderedRows | frontend/src/components/processes/Processes.jsx:854 | the rendered rows are the first min(count, rows) filtered rows |
| ProcessView.PagingInvariantKept | frontend/src/components/processes/Processes.jsx:75-418 | the render count stays a positive multiple of the page size, at most one page past the row count, under scrolling and after a reset |
| ProcessView.ScrollTimesPages | frontend/src/components/processes/Processes.jsx:409-418 | k scrolls from m pages show min(m + k, pages) pages |
| ProcessView.ScrollingRendersAll | frontend/src/components/processes/Processes.jsx:405-418 | after pages - 1 scrolls from the reset count every row is rendered |
| Autocomplete.ActualMode | frontend/src/components/processes/ProcessAutocomplete.jsx:21-24 | a fixed search type is used as is; "auto" searches pids iff the query is all digits, and names otherwise, never ports |
| Autocomplete.Make | frontend/src/components/processes/ProcessAutocomplete.jsx:37-70 | a suggestion carries the pid text, the name or "Неизвестно", the ports and the mode; its display value is the pid, the name, or the matching ports joined by ", " |
| Autocomplete.Collect | frontend/src/components/processes/ProcessAutocomplete.jsx:26-73 | the collected suggestions all have the active mode and pairwise distinct pids |
| Autocomplete.CollectSound | frontend/src/components/processes/ProcessAutocomplete.jsx:26-73 | every collected suggestion is built from the first matching process with its pid |
| Autocomplete.CollectComplete | frontend/src/components/processes/ProcessAutocomplete.jsx:26-73 | every first matching process with a given pid is collected |
| Autocomplete.Suggestions | frontend/src/components/processes/ProcessAutocomplete.jsx:18-82 | at most max suggestions; none for a blank value; a permutation of the first max collected, all of the active mode, sorted by mode rank then name |
| Autocomplete.SuggestionsAreFirstMatches | frontend/src/components/processes/ProcessAutocomplete.jsx:18-82 | every suggestion comes from the first process matching the query with that pid |
| Autocomplete.SuggestionsDistinct | frontend/src/components/processes/ProcessAutocomplete.jsx:61-81 | no two suggestions share a pid |
| Autocomplete.PidSearchSkipsExactPid | frontend/src/components/processes/ProcessAutocomplete.jsx:37-44 | in pid mode every suggested pid contains the query and none equals it |
| Autocomplete.TruncationBeforeSort | frontend/src/components/processes/ProcessAutocomplete.jsx:73-81 | the list is cut to max before it is sorted, so a name that sorts first can be dropped |
| Autocomplete.DefaultLimit | frontend/src/components/processes/ProcessAutocomplete.jsx:9 | with the default limit of 8, at most 8 matching processes are all suggested, and more than 8 give exactly 8 suggestions |
| Autocomplete.Refresh | frontend/src/components/processes/ProcessAutocomplete.jsx:84-87 | the menu opens iff there are suggestions and the value is not blank, with nothing highlighted |
| Autocomplete.Hover | frontend/src/components/processes/ProcessAutocomplete.jsx:176 | hovering highlights that suggestion and leaves the menu open or closed |
| Autocomplete.OnKey | frontend/src/components/processes/ProcessAutocomplete.jsx:113-135 | keys do nothing while closed; the highlight stays in range; Enter selects iff something is highlighted and then closes the menu; Escape closes and keeps the highlight |
| Autocomplete.ArrowsUndoEachOther | frontend/src/components/processes/ProcessAutocomplete.jsx:117-124 | Down then Up, and Up then Down, restore the menu when not at the respective edge |
| Autocomplete.ArrowsSaturate | frontend/src/components/processes/ProcessAutocomplete.jsx:117-124 | n presses of Down reach the last suggestion and n presses of Up reach no highlight |
| Autocomplete.DownSaturates | frontend/src/components/processes/ProcessAutocomplete.jsx:117-120 | repeated Down moves one step a press and stops at the last suggestion |
| Autocomplete.UpSaturates | frontend/src/components/processes/ProcessAutocomplete.jsx:122-124 | repeated Up moves one step a press and stops at no highlight |
| Autocomplete.FindPort | frontend/src/components/processes/ProcessAutocomplete.jsx:144-146 | finds the first port whose decimal text contains the query, and nothing iff no port does |
| Autocomplete.SelectValue | frontend/src/components/processes/ProcessAutocomplete.jsx:137-154 | selecting yields the pid for a pid suggestion and the name for a name suggestion; for a port suggestion, the text of the first port containing the trimmed value when that port is non-zero, otherwise the first port's text when it is non-zero, otherwise "" |
| Autocomplete.PortSelectionPrefersMatch | frontend/src/components/processes/ProcessAutocomplete.jsx:142-153 | the first non-zero port containing the query is the one selected |
| ProcessDetails.Figures | frontend/src/components/process-details/ProcessDetailsModal.jsx:26-34 | the modal's figures are the table's CPU and MB figures when the getters are given, and 0 otherwise or without a process |
| ProcessDetails.FormatDate | frontend/src/components/process-details/ProcessDetailsModal.jsx:40-58 | a falsy or non-numeric value shows "—"; values below 1e12 are seconds and are scaled to ms, larger ones are ms; an instant is shown iff it is within the Date range |
| ProcessDetails.SecondsAndMillisAgree | frontend/src/components/process-details/ProcessDetailsModal.jsx:40-58 | a start time from 1e9 s up to 1e12 s shows the same instant as its value in ms |
| ProcessDetails.EarlyMillisReadAsSeconds | frontend/src/components/process-details/ProcessDetailsModal.jsx:40-58 | a millisecond value below 1e12 is read as seconds |
| ProcessDetails.FormatMemoryValue | frontend/src/components/process-details/ProcessDetailsModal.jsx:60-69 | 0 or NaN shows "—"; from 1024 MB the value is shown in GB, without decimals iff it is at least 10; below that in MB with one decimal |
| ProcessDetails.ScaleSpec | frontend/src/components/process-details/ProcessDetailsModal.jsx:71-81 | scaling divides by 1024 per unit step and stops below 1024 or at terabytes |
| ProcessDetails.FormatBytes | frontend/src/components/process-details/ProcessDetailsModal.jsx:71-81 | 0 or NaN shows "—"; otherwise the value is the byte count divided by 1024 to the power of the chosen unit, with no decimals iff it is at least 10 |
| Connection.IsServerOffline | frontend/src/components/processes/Processes.jsx:38-39 | the server counts as online iff monitoring is on and the socket is connecting, connected or reconnecting |
| Connection.EffectiveStatus | frontend/src/components/processes/Processes.jsx:38-41 | with monitoring off a connected socket is shown as disconnected; every other status is shown as it is |
| Connection.EffectiveStatusConsistent | frontend/src/components/processes/Processes.jsx:38-41 | a status shown as connected is never offline, and one shown as disconnected is always offline |
| Window.Append | frontend/src/store/slices/cpuSlice.js:36-39 | appending adds the value at the end and drops the oldest value iff asked |
| Window.Push | frontend/src/store/slices/cpuSlice.js:29-52 | a push keeps at most 60 points and puts the new value last |
| Window.LastOfLast | frontend/src/store/slices/cpuSlice.js:29-52 | trimming to the last n points before appending does not change the last n points after it |
| Window.PushAllIsLast | frontend/src/store/slices/cpuSlice.js:29-52 | pushing values one by one leaves the last 60 of the old and new points |
| CpuSlice.AddCpuData | frontend/src/store/slices/cpuSlice.js:29-52 | a reading without a value or timestamp changes nothing; otherwise the point and label are pushed and the status becomes connected |
| CpuSlice.SetWsStatus | frontend/src/store/slices/cpuSlice.js:53-55 | sets the status and keeps the data |
| CpuSlice.ClearCpuData | frontend/src/store/slices/cpuSlice.js:56-73 | empties labels and data and keeps the status |
| CpuSlice.WellformedKept | frontend/src/store/slices/cpuSlice.js:29-73 | labels and data stay of equal length, at most 60, under every reducer |
| CpuSlice.AddCpuDataPushesValue | frontend/src/store/slices/cpuSlice.js:29-52 | a valid reading pushes its value onto the window |
| CpuSlice.FeedPushesAll | frontend/src/store/slices/cpuSlice.js:29-52 | a run of readings leaves the last 60 points of old and new |
| CpuSlice.ClearThenFeedKeepsLast | frontend/src/store/slices/cpuSlice.js:29-73 | after a clear, the chart holds the last 60 of the readings that follow |
| MemorySlice.ReadSample | frontend/src/store/slices/memorySlice.js:31-50 | a sample exists iff the timestamp is set and the usage is a number; falsy used and total figures read as 0 |
| MemorySlice.AddMemoryData | frontend/src/store/slices/memorySlice.js:31-73 | an invalid reading changes nothing; a valid one is pushed onto labels, data and samples and becomes the latest sample |
| MemorySlice.SetWsStatus | frontend/src/store/slices/memorySlice.js:74-76 | sets the status and nothing else |
| MemorySlice.ClearMemoryData | frontend/src/store/slices/memorySlice.js:77-96 | empties labels, data and samples, drops the latest sample, keeps the status |
| MemorySlice.PushedWindowsAgree | frontend/src/store/slices/memorySlice.js:47-61 | labels, data and samples shift together, so each label and point matches its sample |
| MemorySlice.WellformedKept | frontend/src/store/slices/memorySlice.js:31-96 | the three windows stay aligned and at most 60 long under every reducer |
| ProcessesSlice.SetProcesses | frontend/src/store/slices/processesSlice.js:30-37 | stores the snapshot, marks the socket connected, and ends the initial load iff the snapshot is not empty |
| ProcessesSlice.SetWsStatus | frontend/src/store/slices/processesSlice.js:38-40 | sets the status and nothing else |
| ProcessesSlice.SetInitialLoading | frontend/src/store/slices/processesSlice.js:41-43 | sets the flag and nothing else |
| ProcessesSlice.ClearError | frontend/src/store/slices/processesSlice.js:44-46 | clears the error and nothing else |
| ProcessesSlice.ClearProcesses | frontend/src/store/slices/processesSlice.js:47-49 | empties the list and nothing else |
| ProcessesSlice.OnKill | frontend/src/store/slices/processesSlice.js:53-61 | a rejected kill stores its message; pending and fulfilled clear the error; nothing else changes |
| ProcessesSlice.InitialLoadingMonotone | frontend/src/store/slices/processesSlice.js:30-37 | once the initial load has ended no snapshot restarts it, and an empty snapshot leaves it as it was |
| ProcessesSlice.KillRetryClearsError | frontend/src/store/slices/processesSlice.js:53-61 | a retried kill that succeeds clears the earlier error; a failure after pending shows its message |
| MonitoringSlice.SetMonitoringEnabled | frontend/src/store/slices/monitoringSlice.js:49-51 | sets the flag and nothing else |
| MonitoringSlice.OnRequest | frontend/src/store/slices/monitoringSlice.js:56-80 | loading iff a request is pending; success stores whether the answer is true; failure keeps the flag and stores the message |
| MonitoringSlice.RequestRoundTrip | frontend/src/store/slices/monitoringSlice.js:56-80 | a pending then settled request ends not loading, with the answer or the error |
| LoadingProgress.StartLoading | frontend/src/store/slices/loadingProgressSlice.js:20-27 | starts loading at 0 with both steps undone |
| LoadingProgress.SetStepProgress | frontend/src/store/slices/loadingProgressSlice.js:28-43 | the socket step sets progress to 70% of its report, exactly 70 once the report reaches 100; the API step sets 70 plus 30% of its report, exactly 100 once the report reaches 100; each step is done iff its report is at least 100; an unknown step changes nothing |
| LoadingProgress.SetProgress | frontend/src/store/slices/loadingProgressSlice.js:44-46 | the progress is the payload clamped to 0..100 |
| LoadingProgress.CompleteLoading | frontend/src/store/slices/loadingProgressSlice.js:47-54 | ends loading at 100 with both steps done |
| LoadingProgress.ResetLoading | frontend/src/store/slices/loadingProgressSlice.js:55-62 | returns to the initial state |
| LoadingProgress.StepsStayInRange | frontend/src/store/slices/loadingProgressSlice.js:3-43 | step progress stays within 0..100; both steps at 100 give 100, and the socket step alone gives its weight |
| LoadingProgress.StepMonotone | frontend/src/store/slices/loadingProgressSlice.js:28-43 | more progress on a step never shows less overall progress |
| Notify.Build | frontend/src/utils/notifications.js:12-60 | a payload carries its kind and message, and the given title and duration when present |
| Notify.NotifySuccess | frontend/src/utils/notifications.js:12-17 | success defaults to "Успешно" and 3000 ms |
| Notify.NotifyError | frontend/src/utils/notifications.js:25-30 | error defaults to "Ошибка" and 5000 ms |
| Notify.NotifyWarning | frontend/src/utils/notifications.js:38-47 | warning defaults to "Предупреждение" and 4000 ms |
| Notify.NotifyInfo | frontend/src/utils/notifications.js:55-60 | info defaults to "Информация" and 4000 ms |
| Notify.DefaultsOrdered | frontend/src/utils/notifications.js:12-60 | success is shortest, warning and info equal, error longest |
| Notify.BuildRoundTrip | frontend/src/utils/notifications.js:12-60 | passing a payload's own title and duration back to the builder of its kind rebuilds that payload, so explicit arguments win over the defaults |
| NotificationsSlice.AddNotification | frontend/src/store/slices/notificationsSlice.js:11-18 | appends one notification with the payload and the current time; its id is the payload's id if given, else now plus a random fraction |
| NotificationsSlice.RemoveNotification | frontend/src/store/slices/notificationsSlice.js:19-23 | keeps, in order, every copy of each notification with another id and no notification with the given id |
| NotificationsSlice.ClearAll | frontend/src/store/slices/notificationsSlice.js:24-26 | leaves no notifications |
| NotificationsSlice.AddedIdFresh | frontend/src/store/slices/notificationsSlice.js:11-18 | a generated id differs from every earlier one when time moves on |
| NotificationsSlice.RemoveAbsentId | frontend/src/store/slices/notificationsSlice.js:19-23 | removing an unused id changes nothing, and removing twice is removing once |
| NotificationsSlice.RemoveUndoesAdd | frontend/src/store/slices/notificationsSlice.js:11-23 | removing a freshly added notification by its id restores the list |
| ConfirmModal.OrText | frontend/src/store/slices/confirmModalSlice.js:17-20 | a non-empty text is used, else the fallback |
| ConfirmModal.Open | frontend/src/store/slices/confirmModalSlice.js:15-21 | opens the dialog; a given non-empty title, confirm text or cancel text is stored, and an absent or empty one becomes 'Подтверждение', 'Подтвердить' or 'Отмена'; the message is stored, or empty when absent |
| ConfirmModal.Close | frontend/src/store/slices/confirmModalSlice.js:22-28 | closing returns to the initial state |
| ConfirmModal.SetCallbacks | frontend/src/components/confirm-modal/ConfirmModalContainer.jsx:11-14 | stores both callbacks and keeps the dialog |
| ConfirmModal.HandleConfirm | frontend/src/components/confirm-modal/ConfirmModalContainer.jsx:21-28 | runs the confirm callback if any, drops both callbacks and closes |
| ConfirmModal.HandleCancel | frontend/src/components/confirm-modal/ConfirmModalContainer.jsx:30-37 | runs the cancel callback if any, drops both callbacks and closes |
| ConfirmModal.CallbacksRunOnce | frontend/src/components/confirm-modal/ConfirmModalContainer.jsx:11-37 | after one confirm or cancel, a second press runs no callback |
| InfoSlices.OnHostRequest | frontend/src/store/slices/hostInfoSlice.js:36-49 | loading iff pending; the error is set only on failure; the host data changes only on success |
| InfoSlices.ClearHostError | frontend/src/store/slices/hostInfoSlice.js:30-32 | clears the error and nothing else |
| InfoSlices.OnDeviceRequest | frontend/src/store/slices/deviceInfoSlice.js:38-51 | loading iff pending; the error is set only on failure; the device data changes only on success |
| InfoSlices.ClearDeviceError | frontend/src/store/slices/deviceInfoSlice.js:32-34 | clears the error and nothing else |
| InfoSlices.FailureKeepsData | frontend/src/store/slices/hostInfoSlice.js:36-49 | a failed request keeps the old data, and a later success replaces the error |
| RealtimeSocket.Create | frontend/src/services/RealtimeSocket.js:2-15 | a new socket has no connection, no timer, no attempts, and the maximum delay given or 10000 ms |
| RealtimeSocket.Backoff | frontend/src/services/RealtimeSocket.js:95 | the delay is 1000 * 2^attempts capped at the maximum |
| RealtimeSocket.BackoffMonotone | frontend/src/services/RealtimeSocket.js:95 | more attempts never give a shorter delay |
| RealtimeSocket.DefaultSchedule | frontend/src/services/RealtimeSocket.js:92-98 | with the default cap the delays are 1, 2, 4, 8 s and then 10 s |
| RealtimeSocket.ScheduleReconnect | frontend/src/services/RealtimeSocket.js:92-98 | a stopped socket schedules nothing; otherwise it reports reconnecting, sets a timer for the backoff delay and counts the attempt |
| RealtimeSocket.Connect | frontend/src/services/RealtimeSocket.js:58-90 | a stopped socket does nothing; otherwise it reports connecting and opens a connection, or schedules a reconnect when the constructor throws |
| RealtimeSocket.Start | frontend/src/services/RealtimeSocket.js:25-28 | starting clears the stopped flag and connects: it reports connecting and holds a new connecting socket, or, when the constructor throws, keeps the old socket, counts the attempt and arms the timer for the backoff delay |
| RealtimeSocket.Stop | frontend/src/services/RealtimeSocket.js:30-50 | stopping cancels the timer, drops the connection and closes it iff it was open or connecting |
| RealtimeSocket.Send | frontend/src/services/RealtimeSocket.js:52-56 | data is sent iff the connection is open |
| RealtimeSocket.OnSocketEvent | frontend/src/services/RealtimeSocket.js:68-98 | without a socket events do nothing; open marks the socket open, resets the attempt count and reports connected; error reports reconnecting; close marks the socket closed and calls the user handler, then, unless stopped, counts the attempt, reports reconnecting and arms the timer for the backoff delay |
| RealtimeSocket.OnTimer | frontend/src/services/RealtimeSocket.js:97 | the timer firing on a live wrapper forgets the timer and reconnects: a new connecting socket and a connecting report, or the next backoff when the constructor throws; on a stopped wrapper it does nothing |
| RealtimeSocket.StoppedStaysSilent | frontend/src/services/RealtimeSocket.js:30-90 | once stopped, no operation or event produces an effect or reattaches a connection |
| RealtimeSocket.StopIdempotent | frontend/src/services/RealtimeSocket.js:30-50 | stopping twice does nothing the second time |
| RealtimeSocket.OpenResetsBackoff | frontend/src/services/RealtimeSocket.js:68-72 | after a successful open, the next close waits the base delay again |
| Store.Dispatch | frontend/src/store/index.js:12-24 | each action reaches only its own slice |
| Store.DispatchAll | frontend/src/store/index.js:12-24 | dispatching no actions keeps the store, and a list with neither an enabling frame action nor an enabling answer to the monitoring request keeps monitoring off |
| Store.DispatchOne | frontend/src/store/index.js:12-24 | dispatching a one-action list is dispatching that action |
| Store.DispatchTwo | frontend/src/store/index.js:12-24 | dispatching two actions applies them in order |
| Store.DispatchAllConcat | frontend/src/store/index.js:12-24 | dispatching a concatenated list is dispatching the parts in turn |
| Store.DispatchAllKeepsEmpty | frontend/src/store/index.js:12-24 | actions that add no data keep an empty store empty |
| Store.DispatchAllKeepsDisabled | frontend/src/store/slices/monitoringSlice.js:49-76 | without `setMonitoringEnabled(true)` or a monitoring request answering `enabled: true`, the monitoring flag stays off |
| CpuChart.OnMessage | frontend/src/components/cpu-chart/CPUChart.jsx:66-92 | an off frame disables monitoring and clears the chart; a reading is charted iff monitoring is on and the frame has a numeric cpu and a timestamp; it is forwarded to the tray iff the shell is present too; bad JSON does nothing |
| CpuChart.OnMessageEffect | frontend/src/components/cpu-chart/CPUChart.jsx:66-92 | the dispatched actions leave the chart well formed, clear it on an off frame, and push an accepted reading |
| Gauge.Latest | frontend/src/components/cpu-chart/CPUChart.jsx:112-115 | the gauge shows the newest data point, or 0 when there is none; MemoryChart.jsx:129-132 does the same |
| CpuChart.StatusColour | frontend/src/components/cpu-chart/CPUChart.jsx:117-121 | red above 80, orange above 60, green otherwise |
| CpuChart.StatusLevel | frontend/src/components/cpu-chart/CPUChart.jsx:123-127 | high from 80, medium from 40, low otherwise |
| CpuChart.ThresholdsDisagree | frontend/src/components/cpu-chart/CPUChart.jsx:117-127 | exactly 80 % is labelled high but coloured orange; every red load is high |
| MemoryChart.OnMessage | frontend/src/components/memory-chart/MemoryChart.jsx:81-109 | an off frame disables monitoring and clears the chart; a frame is forwarded to the slice iff monitoring is on and it is not an off frame; bad JSON does nothing |
| MemoryChart.ForwardedGarbageIgnored | frontend/src/components/memory-chart/MemoryChart.jsx:94-105 | a forwarded frame without a usable reading leaves the memory slice unchanged |
| MemoryChart.StatusColour | frontend/src/components/memory-chart/MemoryChart.jsx:134-138 | red above 85, orange above 65, green otherwise |
| MemoryChart.StatusLevel | frontend/src/components/memory-chart/MemoryChart.jsx:140-145 | critical from 85, high from 65, medium from 40, low otherwise |
| MemoryChart.ThresholdsDisagree | frontend/src/components/memory-chart/MemoryChart.jsx:134-145 | exactly 85 % is critical but orange, 65 % high but green; red is always critical |
| MemoryChart.Round | frontend/src/components/memory-chart/MemoryChart.jsx:44 | rounds to the nearest integer, halves up |
| MemoryChart.FormatMemoryValue | frontend/src/components/memory-chart/MemoryChart.jsx:34-45 | null or undefined show "—"; from 1024 MB the value is in GB; otherwise it is rounded MB, and NaN gives no number |
| ProcessesFeed.OnMount | frontend/src/components/processes/Processes.jsx:131-133 | mounting starts the loader, marks the initial load and sets the socket step to 10 |
| ProcessesFeed.OnOpen | frontend/src/components/processes/Processes.jsx:138-141 | opening completes the socket step and starts the API step at 10 |
| ProcessesFeed.OnError | frontend/src/components/processes/Processes.jsx:177-179 | a socket error resets the loader |
| ProcessesFeed.OnMessage | frontend/src/components/processes/Processes.jsx:142-176 | an off frame disables and clears; other objects and scalars do nothing; bad JSON resets the loader; an array clears when the ref is off and otherwise schedules the snapshot; no action adds data at once |
| ProcessesFeed.OnDelayedSnapshot | frontend/src/components/processes/Processes.jsx:167-171 | the timer stores the snapshot first, then completes loading and ends the initial load |
| ProcessesFeed.DelayedSnapshotStored | frontend/src/components/processes/Processes.jsx:167-171 | after the timer the store holds the snapshot and loading is complete |
| Dashboard.Step | frontend/src/components/processes/Processes.jsx:71-197 | only the commit of effects moves the ref to the store's flag; a timer firing consumes the oldest pending snapshot |
| Dashboard.QuietKept | frontend/src/components/processes/Processes.jsx:193-197 | with monitoring off, no pending snapshot and no data, any event other than an enabling frame or an enabling answer to the monitoring request keeps it so |
| Dashboard.QuietRun | frontend/src/components/processes/Processes.jsx:193-197 | the same over any run of such events |
| Dashboard.ToggleEnables | frontend/src/App.jsx:30-39 | the header toggle switches a quiet dashboard on without any frame: once its request answers `enabled: true` and the views commit, the flag and the views' refs are on |
| Dashboard.DisableClearsEverything | frontend/src/components/cpu-chart/CPUChart.jsx:70-77 | an off frame on any socket, once effects commit, turns monitoring off and empties the CPU, memory and process data |
| Dashboard.StaleSnapshotRepopulates | frontend/src/components/processes/Processes.jsx:159-171 | a snapshot scheduled before an off frame is still stored by its timer, so the table shows processes while monitoring is off |
| Dashboard.RefLagsBehindFlag | frontend/src/components/cpu-chart/CPUChart.jsx:70-81 | an enabling frame with a reading that arrives while the ref is still off sets the flag but is not charted; once effects commit, the same frame is charted |
| PortManager.FilteredPorts | frontend/src/pages/Tcp/PortManager.jsx:118-120 | with the switch on, keeps, in order, every copy of each listening entry and nothing else; with it off, all entries |
| PortManager.Submit | frontend/src/pages/Tcp/PortManager.jsx:59-72 | a blank command is refused with an error notice; otherwise the request carries the command, arguments and timestamp, and a working directory iff one was entered |
| PortManager.FailureText | frontend/src/pages/Tcp/PortManager.jsx:92-96 | the failure text is the response body, else the error message, else a fixed non-empty text |
| PortManager.OnLaunchResponse | frontend/src/pages/Tcp/PortManager.jsx:78-96 | each response appends one success-kind notice; a start closes the modal, clears the form and schedules a refresh; a failure changes nothing else and shows the failure text |
| PortManager.FailureLooksLikeSuccess | frontend/src/pages/Tcp/PortManager.jsx:92-96 | a failed launch is announced with the same kind as a successful one |
| PortManager.FetchPortsActions | frontend/src/pages/Tcp/PortManager.jsx:30-48 | fetching starts and completes the loader and reports API progress 50 iff the request succeeded |
| PortManager.FetchPortsFinishes | frontend/src/pages/Tcp/PortManager.jsx:30-48 | after a fetch, success or not, the loader is hidden at 100 % and no other slice has changed |
| PortManager.LoadingOnly | frontend/src/pages/Tcp/PortManager.jsx:30-48 | loader actions change no other slice |
| Tray.IconFileName | frontend/electron/main.js:73-78 | Linux uses the "-linux" icons; every platform picks the high icon iff the load is high |
| Tray.IconNamesDistinct | frontend/electron/main.js:73-78 | two icon names are equal iff the load level matches and both or neither platform is Linux |
| Tray.NeedsResize | frontend/electron/main.js:54-64 | an icon is resized on Linux unless it is square and 16, 22 or 24 pixels wide |
| Tray.OnCpuLoad | frontend/electron/main.js:216-258 | without a tray nothing happens; a notification is shown iff the load is above 70 and more than 30 s have passed since the last one, and then its time is recorded; the icon follows the load when it loads |
| Tray.NotificationsSpaced | frontend/electron/main.js:253-257 | any two consecutive notifications are more than 30 s apart |
| Tray.SeventyIsNormal | frontend/electron/main.js:222 | a load of exactly 70 % shows the normal icon and notifies nobody |
| MemoryMetrics.UsageMemory | agent/server/getmetrics/memory_metrics.go:7-18 | a read error gives zeros and the error; otherwise the percentage is passed through and the totals are whole MiB, rounded down |
| MemoryMetrics.UsedWithinTotal | agent/server/getmetrics/memory_metrics.go:13-15 | used MiB never exceeds total MiB when used bytes do not exceed total bytes |
| MemoryMetrics.SubMibReadsAsZero | agent/server/getmetrics/memory_metrics.go:13-15 | the total reads as 0 MiB iff it is below one MiB |
| Agent.SetMonitoringEnabled | agent/server/ws/ws.go:438-457 | sets the flag; switching on starts a loop, switching off stops one, setting the same value changes nothing; caches are kept |
| Agent.GetMonitoringEnabled | agent/server/ws/ws.go:463-467 | when the loop count matches the flag, the getter reports on exactly when a cache loop runs |
| Agent.SwitchKeepsOneLoop | agent/server/ws/ws.go:438-467 | exactly one loop runs iff monitoring is on, across a switch, and the getter reports the new value |
| Agent.SwitchAllKeepsOneLoop | agent/server/ws/ws.go:438-467 | the same over any sequence of switches, which ends with the last value set |
| Agent.OnTick | agent/server/ws/ws.go:75-161 | with monitoring off or no loop, ticks change nothing; each tick refreshes only its own cache, and only on a successful read |
| Agent.WriteCpu | agent/server/ws/ws.go:222-253 | off sends the status frame; with no cached reading it sends the collecting placeholder; otherwise the cached reading |
| Agent.WriteMemory | agent/server/ws/ws.go:314-345 | off sends the status frame; with no cached reading it sends the placeholder; otherwise the cached reading |
| Agent.WriteProcesses | agent/server/ws/ws.go:406-431 | off sends the status frame; otherwise the cached list as it is |
| Agent.FirstCpuFrame | agent/server/ws/ws.go:184-202 | the first CPU frame of a connection is the frame every later tick would write |
| Agent.FirstMemoryFrame | agent/server/ws/ws.go:276-294 | the first memory frame is the frame every later tick would write |
| Agent.FirstProcessesFrame | agent/server/ws/ws.go:368-386 | the first processes frame is the frame every later tick would write |
| Agent.Parse | agent/server/ws/ws.go:228-243 | the dashboard reads exactly the status frame as an off frame and exactly the placeholders as enabling frames; a nil process list reads as null |
| Agent.OffFramesDisable | agent/server/ws/ws.go:228-233 | while the agent is off every socket tells the dashboard so |
| Agent.ReenableSendsStaleCache | agent/server/ws/ws.go:438-457 | switching off and on again sends the old cached reading at once |
| Agent.PlaceholderChartedAsZero | agent/server/ws/ws.go:239-243 | the placeholder after switching on is charted as a 0 % reading |

## Left out

- Rendering: the JSX markup, chart configuration, CSS, animations and the progress loader's drawing are left out. The model covers what they display.
- `toFixed` and `Math.round` text: numbers are kept as reals with a digit count. The decimal strings are not modelled.
- Locale: `localeCompare` is code-point lexicographic order. `toLocaleString` dates are left out.
- Case mapping: `toLowerCase` covers Latin and Cyrillic letters only.
- Timers: only the 300 ms snapshot timer and the socket's reconnect timer are modelled. They fire when the caller says, so timer overlap and real durations are left out.
- The kill-process click flow (`Processes.jsx` 77-110) is left out. It is confirm dialogs and API calls around the kill thunk. The thunk's reducer cases are modelled by `ProcessesSlice.OnKill`.
- Failed requests: the RTK "Rejected" error message is a parameter. The HTTP layer behind `fetchPorts`, the launch request and the info requests is left out.
- The outside-click handler of the autocomplete is left out. It is DOM event plumbing.
- Concurrency on the agent: goroutines, the mutex and tickers are left out. Each tick is one atomic event.
- The error frame `{"error":"Ошибка сериализации данных"}` that `ws.go` writes when `json.Marshal` fails is left out. That happens when a reading is NaN or infinite, and the model's readings are always finite.
- WebSocket upgrade errors and write errors on the agent are left out.
- The tray's image loading and its `setImage` fallback are collapsed into one flag saying whether the icon loaded.
- `showNotification`'s text is left out.
- `LoadingProgress.SetStepProgress`: the step weights are fixed at their initial values, 70 and 30, because no reducer changes them.
- `Autocomplete.Suggestions`: name order is code-point order rather than the locale's collation, and a search type other than "auto", "pid", "name" or "port" is not modelled.
- `ProcessDetails.FormatDate`: states which instant is shown, not the localised date text.
- `ProcessDetails.FormatMemoryValue`: the GB figure is the exact quotient; `toFixed` rounding is left out.
- `ProcessDetails.FormatBytes`: the figure is the exact quotient; `toFixed` rounding is left out.
- `MemoryChart.FormatMemoryValue`: the GB figure is the exact quotient; `toFixed` rounding is left out.
- `Tray.OnCpuLoad`: `Date.now()` is the `now` parameter, and the icon is set only when the image loads (the `iconLoads` flag).
- `Dashboard.Step`: React's effect scheduling is one explicit commit event that runs the ref sync and the clear-on-disable effects together.
- `Agent.OnTick`: the readings from gopsutil are parameters. A failed CPU or process read keeps the old cache.
- `MemoryMetrics.UsageMemory`: `mem.VirtualMemory()` is a parameter. Unsigned 64-bit wrap-around cannot occur in a division and is not modelled.
