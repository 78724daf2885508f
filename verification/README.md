# A verified model of the threaded MySQL plugin

The plugin lets game scripts query a MySQL server. Each handle is an object of the class
`MySQL`. A script either runs a query at once or queues it under a result id. Queued queries
are executed by a second thread, `QueryThread`; the game thread's `ProcessTick` then calls the
scripts back. The two threads share `queryQueue`, `threadQueue`, `state` and the flag
`parsing`, without a lock.

## How it is modelled

`Handoff` is the machine of one handle. Every read and write of a shared field is one atomic
step, in the order of the source; the two threads have program counters named after the
statements they are about to execute. Line 45 of MySQL/Thread.cpp is two steps, the execution
and the assignment to `state`. A step of the worker, a step of the tick, or a call of a script
may come next at any time, so a list of such choices is an interleaving and the theorems speak
about every list. The log of a handle (what was enqueued, executed, judged, delivered, called)
is only written, never read, by the machine.

`Connection` is the same handle as the class of the source: mutable fields, the untagged
structs of MySQL/Base.h with the unused payload field left as it was, one method per statement
or method of the source. Every method is proved equal to the step of the machine it stands
for. The two visit methods, one for each body of the handle loops, run with an arbitrary list
of other steps after each of their statements, and their contract gives the resulting state.

`Plugin` is the whole plugin: the handle table, the two loop variables, the list of scripts.
Every handle in every run of it is shown to be in a state that the machine of one handle can
reach, so the theorems about one handle hold of all. `Scan` follows the two handle loops and
`Service` shows that they work off every handle they serve. `Natives` has the table as an
array of objects. `ScriptCalls` says field by field what each call of a script does, and
`EndToEnd` follows its arguments to the server and back to the callback. `Results` and `ResultLaws` are the result slot and the cursor, `StaleRows`
what becomes of a row whose result is gone, `CallbackResults` whose result a callback stores,
`CallbackTexts`, `Allocations` and `Closing` the strings the natives allocate and what is left
of them, `RowText` the printing and splitting of rows, and `Alignment`, `ByteOrder`
and `Rint` the arithmetic of include/my_global.h.

## What the code does not do

These follow from the code and differ from what a user may expect. Each is stated as an exact
condition.

- A queued query is judged by `state`, which scripts write too. A rejected query is reported
  as a success, or a success is never reported, exactly when the last unqueued query or
  `mysql_free_result` between the assignment and the test says otherwise
  (`HandoffTheorems.JudgedExactly`, with concrete calls in `HandoffTheorems.JudgementRace`).
- `mysql_store_result` in a callback, with nothing stored, yields another query's result or
  none, although the library has one to give, exactly when
  a script ran an unqueued query since the callback's own was executed, or called
  `mysql_free_result` since its status was assigned (`CallbackResults.CallbackStoresExactly`).
- Closing a handle deletes none of the strings it still owns, and nothing deletes them later
  (`Closing.ClosedLeaves`, `Closing.ClosedLeavesForGood`).
- `query` and `query_array` release the stored result and keep `row`. `fetch_field` and
  `fetch_field_num` then read a row of a result that has been given back, exactly when a query
  was issued over a row in hand with neither `free_result` nor an advancing fetch after it
  (`StaleRows.StaleRowExactly`, `StaleRows.StaleRowExists`).
- The buffer of `fetch_row` has no room for the word NULL. With a one-character splitter and
  cells that hold no NUL byte it suffices exactly for rows without a NULL cell
  (`RowText.DefaultSplitterFits`, `RowText.OneNullOverruns`; `RowText.FitsExactly` for all
  rows).
- The text for the callback of `mysql_query_array` is deleted only by the first subscribing
  script. It leaks exactly when the query was run at once, without a result id, or when its
  completion never reached a subscriber, be it that the query did not pass or that no script
  subscribed; and while the handle is open nothing else leaks (`Allocations.LeakedExactly`,
  `CallbackTexts.FailedQueriesLeak`). Later subscribers are given a null string
  (`HandoffTheorems.DispatchFaithful`).
- An unqueued `mysql_query` replies 0 when it succeeds and 0 when it fails; only
  `mysql_query_array` tells the two apart (`Connection.MySQL.NativeQuery`,
  `Connection.MySQL.NativeQueryArray`).

## Model

| member | source | states |
|---|---|---|
| `HandoffInvariant.RunInv` | MySQL/Thread.cpp:36-132 | Queue order, one-slot hand-over, judgement, string ownership, callbacks made and status are kept by every atomic step of either thread and by every script call, so by every interleaving |
| `HandoffTheorems.StepRefines` | MySQL/Thread.cpp:38-132 | Each atomic step of the two-thread system is one event of a sequential pipeline (enqueue, start, judge, deliver, or nothing), and that event is enabled |
| `HandoffTheorems.RunRefines` | MySQL/Thread.cpp:36-132 | Every interleaving is a run that the sequential pipeline accepts, ending in the corresponding state |
| `HandoffTheorems.PipelineLaws` | MySQL/Thread.cpp:36-132 | Every run the pipeline accepts executes in enqueued order and delivers the completions of the passed queries in execution order, but for the one still owed |
| `HandoffTheorems.RunsArePipelines` | MySQL/Thread.cpp:36-132 | The two composed: from the creation of a handle every interleaving is such a run from the empty pipeline; what the log says was enqueued has run or waits in that order, and what was delivered or is owed are the completions of the queries judged a success |
| `HandoffTheorems.ExecutedInOrder` | MySQL/Thread.cpp:40-75 | In every reachable state the enqueued queries are the executed ones followed by the waiting ones; the front is counted once while it is executed but not popped |
| `HandoffTheorems.DeliveredExactlyOnce` | MySQL/Thread.cpp:50-131 | Delivered completions and the one being handed over are those of the queries whose status at line 50 was 0, in order, each once, even where the tick delivers before the worker pops |
| `HandoffTheorems.CallbacksExactly` | MySQL/Thread.cpp:95-128 | The callbacks made are those of the delivered completions over their script lists, plus the ones the dispatch in progress has already made |
| `HandoffTheorems.DispatchFaithful` | MySQL/Thread.cpp:95-128 | A dispatch calls each subscribing script once, in list order, with (resultid, payload, handle) in the declared parameter order; array text reaches the first subscriber only |
| `EndToEnd.DeliveredBelong` | MySQL/Thread.cpp:50-59 | In every reachable state the i-th completion delivered has the result id and the payload of the i-th query whose status at line 50 was 0 |
| `EndToEnd.CallsSpelled` | MySQL/Thread.cpp:95-128 | Outside a dispatch the callbacks made are, for each such query in order and each script of its list that defines the callback, OnMysqlQuery(resultid, spareid, handle) or OnMysqlQueryArray(resultid, text, handle) with the query's own values, the text for the first script only |
| `EndToEnd.CallsSpelledWithin` | MySQL/Thread.cpp:95-128 | Within a dispatch the same, once the callbacks still to be made to the rest of the list are added |
| `EndToEnd.QueryIsCarried` | MySQL/Natives.cpp:105-112 | From any reachable state and through any later interleaving: what is enqueued, executed and judged for a mysql_query is the script's statement with its result id and spare id |
| `EndToEnd.QueryArrayIsCarried` | MySQL/Natives.cpp:114-122 | The same for mysql_query_array, with the script's text for the callback |
| `EndToEnd.Answered` | MySQL/Thread.cpp:38-132 | One pass and one tick over a handle with one query: its text is executed, its status is in `state`, and exactly its callbacks are made, if the status is 0 |
| `EndToEnd.QueryAnswered` | MySQL/Thread.cpp:38-132 | From mysql_query(sql, resultid, spareid) to OnMysqlQuery(resultid, spareid, handle) in each script that defines it |
| `HandoffTheorems.OneSlotHandover` | MySQL/Thread.cpp:40-66 | `threadQueue` holds at most one completion and then `parsing` is up; `parsing` over an empty queue only between lines 61 and 62 or 130 and 131; the failure branch never clears a pending hand-over |
| `HandoffTheorems.CallbackWindow` | MySQL/Thread.cpp:50-131 | From the judgement of a success until the tick lowers `parsing` no queued query is executed, and only that step of the tick ends the window |
| `HandoffTheorems.CallbackStoresItsOwnResult` | MySQL/Thread.cpp:105-122 | During a callback the delivered completion belongs to the last executed queued query; with no unqueued query or free_result since, it was the last statement, `state` is 0 and a store yields its table |
| `CallbackResults.CallbackStoresExactly` | MySQL/Thread.cpp:45-122 | During a callback with nothing stored, a store yields the result of the callback's own query if and only if no unqueued query has run since its execution and free_result was not called since its status was assigned |
| `HandoffTheorems.JudgedByState` | MySQL/Thread.cpp:45-50 | The status a query is judged by is the one written last, and its own if no script wrote in between |
| `HandoffTheorems.JudgedExactly` | MySQL/Thread.cpp:45-66 | For all steps of the tick and calls of scripts between assignment and test: the outcome is success if and only if the last unqueued query or free_result among them, or failing that the query's own execution, left 0 |
| `HandoffTheorems.JudgementRace` | MySQL/Thread.cpp:45-66 | One unqueued query turns a rejected query into a success; one free_result turns a success into a failure |
| `HandoffTheorems.RecordingOccurs` | MySQL/Thread.cpp:45 | The state in which that race starts is reachable for every status |
| `HandoffTheorems.QuietScriptsHearEverySuccess` | MySQL/Thread.cpp:50-131 | If scripts only queue queries and never call free_result, completions are owed to exactly the queries the server executed without error |
| `HandoffTheorems.NoFault` | MySQL/Thread.cpp:42-131 | No run reads or deletes a deleted string, deletes one twice, or takes the front of an empty queue |
| `HandoffTheorems.WorkerFaultsExactly` | MySQL/Thread.cpp:42-75 | What counts as a fault of the query thread: taking or popping from an empty queue, sending or deleting a text that is not allocated |
| `HandoffTheorems.TickFaultsExactly` | MySQL/Thread.cpp:91-131 | And of the tick: reading or popping from an empty queue, passing on or deleting a callback text that is not allocated |
| `Visits.WorkerMay` | MySQL/Thread.cpp:42-75 | Whenever the worker takes or pops the front there is one, and a text is live whenever it is sent to the server or deleted |
| `Visits.TickMay` | MySQL/Thread.cpp:91-130 | The same for the tick: the callback text is live whenever it is passed on or deleted |
| `HandoffTheorems.TextOwnership` | MySQL/Thread.cpp:42-75 | A text that was queued is live until the worker deletes it and deleted after; the only dangling entry of `queryQueue` is the front between delete and pop |
| `Allocations.LiveExactly` | MySQL/Natives.cpp:105-122 | In every reachable state the strings still allocated are exactly the texts of queued queries not yet deleted, the callback texts of queued queries no subscriber has heard, and the callback texts of queries run at once |
| `Allocations.FreedExactly` | MySQL/Mysql.cpp:136-189 | The strings deleted are exactly the texts of the queries the worker is done with, the callback texts heard, and the texts of queries run at once; each was deleted once |
| `Allocations.LeakedExactly` | MySQL/Thread.cpp:95-113 | When nothing is left to do, a string is still allocated if and only if it is the callback text of a query run at once or of one whose completion never reached a subscriber |
| `HandoffTheorems.ResultConservation` | MySQL/Mysql.cpp:128-232 | Result sets obtained are those given back, once each and in order, plus the one stored; `state` is 0 if and only if its last write recorded a successful execution |
| `CallbackTexts.CallbackTextFate` | MySQL/Thread.cpp:111 | In every reachable state the callback text of an enqueued query is deleted if and only if a subscriber's callback for it has returned, and live otherwise |
| `CallbackTexts.FailedQueriesLeak` | MySQL/Thread.cpp:64-75 | A query judged a failure keeps its callback text allocated in every later state |
| `CallbackTexts.QueuedLeakExactly` | MySQL/Thread.cpp:95-113 | When nothing is left to do, the callback text of a queued query is still allocated if and only if its completion was never delivered to a list with a subscriber |
| `Progress.BusyBounded` | MySQL/Thread.cpp:36-132 | With no new enqueues, the steps of real work in any interleaving are bounded by a measure of the two queues and the two program counters |
| `Progress.WorkAtMost` | MySQL/Thread.cpp:36-132 | With n scripts the measure is at most 2n + 14 per query in `queryQueue` and 2n + 5 per completion in `threadQueue`, plus 1 |
| `Progress.OneGuardOpen` | MySQL/Thread.cpp:40-89 | With both threads at a loop head, exactly one of the guards of lines 40 and 89 is open unless both queues are empty |
| `Progress.FairRunsDrain` | MySQL/Thread.cpp:36-132 | Every interleaving that gives each thread three steps per round empties both queues within as many rounds as there is work, whatever the server answers |
| `Progress.FairRunsServe` | MySQL/Thread.cpp:36-132 | Bounded waiting: whatever scripts and callbacks enqueue meanwhile, the first k queries are executed and handed over within as many fair rounds as there is work due to them, in every interleaving |
| `Progress.ServedMeansDelivered` | MySQL/Thread.cpp:36-132 | Then the first k queries are judged, and the completions of those that passed are delivered |
| `Progress.DrainedMeansDone` | MySQL/Thread.cpp:36-132 | A drained handle has executed, judged and delivered everything enqueued and deleted every query text |
| `Visits.VisitIsRun` | MySQL/Thread.cpp:38-77 | A visit of the query thread to a handle, with any interference, is an interleaving of the machine |
| `Visits.TickVisitIsRun` | MySQL/Thread.cpp:87-133 | The same for a visit of the game thread |
| `Visits.VisitAlone` | MySQL/Thread.cpp:40-76 | An undisturbed visit executes and pops the front, writes `state`, deletes the text and hands over the completion if the status is 0; with the guard closed it changes nothing |
| `Visits.TickAlone` | MySQL/Thread.cpp:89-132 | A tick during which nobody calls anything pops the completion, lowers `parsing`, makes the callbacks and deletes the text exactly if a script subscribes; with the guard closed it changes nothing |
| `Rounds.VisitUnderCalls` | MySQL/Thread.cpp:40-76 | With any script calls that enqueue nothing after every statement, a visit executes the front if the guard was open, and otherwise nothing, and delivers nothing |
| `Rounds.TickUnderCalls` | MySQL/Thread.cpp:89-132 | With any script calls at all after every statement and within every callback, a tick delivers the completion it found, makes exactly the callbacks owed for it, executes nothing, and leaves its guard closed |
| `Rounds.RoundsDrain` | MySQL/Thread.cpp:36-132 | Rounds of one pass and one tick take one query each, whatever scripts and callbacks call meanwhile short of enqueuing: n queued queries are gone after exactly n rounds, or n + 1 if a completion was still owed |
| `Rounds.VisitUnderAnyCalls` | MySQL/Thread.cpp:40-76 | With script calls of every kind, enqueuing ones too, after every statement, a visit executes at least what its guard admitted |
| `Rounds.RoundsServe` | MySQL/Thread.cpp:36-132 | While scripts and callbacks call anything and keep queuing, the first k queries are executed within as many rounds as are missing, and one more if a completion was still owed |
| `Rounds.RoundsAloneDrain` | MySQL/Thread.cpp:36-132 | The same if nobody calls anything |
| `Connection.CopyFields` | MySQL/Thread.cpp:52-59 | The copy takes over the type, the result id and the payload field its type selects, and leaves the other field as it was; read as a sum type it is the completion of the query |
| `Base.CompletionOf` | MySQL/Thread.cpp:52-59 | The completion of a query has its result id and its payload |
| `Connection.MySQL.constructor` | MySQL/Mysql.cpp:22-31 | A new object satisfies the invariant and is the machine's initial state |
| `Connection.MySQL.QueryThreadVisit` | MySQL/Thread.cpp:40-76 | The statements of the visit, with any steps of the rest of the system after each, keep the invariant and end in the state the machine's visit gives |
| `Connection.MySQL.ProcessTickVisit` | MySQL/Thread.cpp:89-132 | The same for the tick, over any script list |
| `Connection.MySQL.Query` | MySQL/Mysql.cpp:128-160 | Releases the stored result, then queues under a result id, or executes at once, writes `state` and deletes the text |
| `Connection.MySQL.QueryArray` | MySQL/Mysql.cpp:162-195 | The same with a callback text; its unqueued reply is 1 if and only if the status is 0 |
| `Connection.MySQL.Store` | MySQL/Mysql.cpp:197-212 | New state and reply are those of the slot machine's store |
| `Connection.MySQL.FreeStored` | MySQL/Mysql.cpp:214-232 | Result given back, `row` null, `state` -1 |
| `Connection.MySQL.CloseConnection` | MySQL/Mysql.cpp:78-102 | Result given back, `row` null, no longer connected |
| `Connection.MySQL.FetchNamed` | MySQL/Mysql.cpp:242-280 | The text of the cell in the first column of that name, in the row the cursor shows, or a null pointer for a NULL cell; nothing without result, row or column; dangling memory for a stale row |
| `Connection.MySQL.FetchColumn` | MySQL/Mysql.cpp:282-300 | The same by column number, which is not checked: a number outside the row reads memory beside it |
| `Connection.MySQL.FetchText` | MySQL/Mysql.cpp:302-339 | The next row, joined by the splitter, unless the computed buffer is too small |
| `Connection.MySQL.FetchData` | MySQL/Mysql.cpp:341-355 | Advances and tells whether there was a row |
| `Connection.MySQL.FetchFirst` | MySQL/Mysql.cpp:528-584 | Advances and gives the text of the first cell, or a null pointer for a NULL cell or no row |
| `Connection.MySQL.ReadCell` | MySQL/Mysql.cpp:255-296 | A NULL cell gives a null pointer, any other its text up to the first NUL byte, a number beside the row other memory, a stale row memory given back |
| `Connection.MySQL.Seek` | MySQL/Mysql.cpp:495-506 | Moves the cursor and leaves `row` alone |
| `Connection.MySQL.NativeQuery` | MySQL/Natives.cpp:105-112 | On a connected handle: allocates the text and is the machine's script call; keeps the invariant; replies 1 only for a queued query |
| `Connection.MySQL.NativeQueryArray` | MySQL/Natives.cpp:114-122 | The same with two allocations |
| `Connection.MySQL.NativeStoreResult` | MySQL/Natives.cpp:124-130 | Keeps the invariant; replies 1 if and only if a result was stored |
| `Connection.MySQL.NativeFreeResult` | MySQL/Natives.cpp:132-138 | Keeps the invariant and is the machine's script call |
| `ScriptCalls.QueryQueues` | MySQL/Mysql.cpp:128-147 | Under a result id mysql_query appends the statement, with that result id and the spare id, to `queryQueue`, gives back the stored result, and changes nothing else |
| `ScriptCalls.QueryArrayQueues` | MySQL/Mysql.cpp:162-182 | mysql_query_array likewise, with the text for the callback as a second allocation |
| `ScriptCalls.QueryRuns` | MySQL/Mysql.cpp:130-160 | Without a result id the statement is executed at once: `state` is its status, its text is deleted, the stored result given back, `row` and the queues as they were |
| `ScriptCalls.QueryArrayRuns` | MySQL/Mysql.cpp:164-195 | The same for mysql_query_array, whose callback text stays allocated |
| `ScriptCalls.ConnectExactly` | MySQL/Mysql.cpp:57-76 | A handle is connected after a connect if and only if it was, or is initialised and the server accepts; nothing else changes |
| `ScriptCalls.UnconnectedCallsDoNothing` | MySQL/Main.h:69-77 | On a handle that is not connected no other call changes anything |
| `ScriptCalls.StoreCall` | MySQL/Mysql.cpp:197-212 | Stores the library's table if nothing is stored and `state` is 0, and otherwise changes nothing |
| `ScriptCalls.FreeCall` | MySQL/Mysql.cpp:214-232 | Leaves no result, no row and -1 in `state`, and nothing else changed |
| `ScriptCalls.CursorCallsKeep` | MySQL/Mysql.cpp:242-355 | Fetches and data_seek touch neither the queues nor `state` nor the results given back |
| `ScriptCalls.EnqueuesExactly` | MySQL/Mysql.cpp:136-182 | A call changes `queryQueue` if and only if it is a query under a result id on a connected handle |
| `ScriptCalls.WritesExactly` | MySQL/Mysql.cpp:149-224 | A call writes `state` if and only if it is free_result or a query without a result id, on a connected handle |
| `ResultLaws.StoreExactly` | MySQL/Mysql.cpp:197-212 | A store succeeds if and only if nothing is stored, the last write to `state` recorded a success and the library yields a table; it never overwrites a live result |
| `ResultLaws.CursorRefinesTape` | MySQL/Mysql.cpp:226-574 | Pointer, library cursor and result memory behave as a tape of the remaining rows with the row last read |
| `ResultLaws.TapeReads` | MySQL/Mysql.cpp:242-355 | On the tape, the j-th call sees the row reached by counting the advancing calls before it |
| `ResultLaws.FetchesReadInOrder` | MySQL/Mysql.cpp:242-574 | Any mix of fetches reads the rows once each in order and then nothing for good; fetch_field and fetch_field_num take a new row only when there is none in hand |
| `ResultLaws.SeekThenFetch` | MySQL/Mysql.cpp:495-506 | After data_seek(k), fetches read rows k, k + 1, ... once each and then none, so a fetch loop ends after the rows that remain |
| `StaleRows.TraceTells` | MySQL/Mysql.cpp:128-355 | In every interleaving, the calls of scripts, what they showed and the worker's writes of `state` determine whether a result is stored, a row is in hand, a row is stale, and what `state` is |
| `StaleRows.StaleRowExactly` | MySQL/Mysql.cpp:130-134 | After every interleaving of the two threads and the scripts, a field read shows memory already given back if and only if a result is stored and a query was issued over a row in hand with neither free_result nor an advancing fetch after it |
| `StaleRows.StaleRowExists` | MySQL/Mysql.cpp:252-255 | Connect, query, store, fetch a row, query, store, read a field: the read is stale |
| `StaleRows.FreeingScriptsNeverStale` | MySQL/Mysql.cpp:214-232 | If no query is issued while `row` is set, no stale row is ever read, whatever the query thread does meanwhile |
| `Plugin.MoveProjects` | MySQL/Thread.cpp:38-132 | A move of the plugin is, for each handle that stays, a step of that handle's own machine or none |
| `Plugin.EveryHandleReachable` | MySQL/Natives.cpp:36-51 | In every run every live slot has the id of its index, is reachable in its own machine, and each thread is inside at most the one slot its loop variable names |
| `Plugin.HandlesShareNoString` | MySQL/Natives.cpp:105-122 | No allocation is ever held by two handles, open or closed |
| `Plugin.CloseExactly` | MySQL/Natives.cpp:77-84 | mysql_close on a connected handle that neither thread is within empties its slot and puts it, its result given back, among the closed ones; any other handle stays as it is |
| `Plugin.ClosedHandlesOweNothing` | MySQL/Natives.cpp:77-84 | A closed handle was connected, and has given back every result set it obtained, each once |
| `Closing.ClosedLeaves` | MySQL/Natives.cpp:77-84 | A closed handle was connected and at rest; the strings it leaves allocated are exactly the texts of its queries still queued, the callback texts no subscriber has heard, and those of queries run at once |
| `Closing.ClosedLeavesForGood` | MySQL/Mysql.cpp:78-102 | They stay allocated in every later state of the plugin, and no other handle has ever held one of them |
| `Plugin.InitExtendsPrefix` | MySQL/Natives.cpp:36-51 | A new handle takes the least free slot and so lies in the prefix that is served |
| `Plugin.LoadExactly` | MySQL/Main.cpp:112-130 | Outside a dispatch a script loaded joins the end of the list and the first entry of a script unloaded leaves it |
| `Plugin.ServedUntilClosed` | MySQL/Thread.cpp:38-87 | A served handle stays served in every run that closes neither it nor a lower one |
| `Scan.ScanAscends` | MySQL/Thread.cpp:38-87 | In every run of the plugin, with handles appearing and vanishing, each visit of either thread is to the slot after that of its visit before, or to slot 0 |
| `Scan.ScanServesPrefix` | MySQL/Thread.cpp:38-87 | While handles neither appear nor vanish, the i-th visit of either thread is to slot i modulo the length of the longest occupied prefix, in every interleaving |
| `Service.ThreeStepsEach` | MySQL/Thread.cpp:38-87 | In every run that closes neither a served handle nor a lower one, at least three of three laps' worth of steps of a thread fall on that handle, however busy the others are and however often they are opened and closed |
| `Service.ServedHandleDrains` | MySQL/Thread.cpp:36-132 | A served handle on which nothing is enqueued is worked off within as many stretches of three laps as it has work, in every such run: the other handles may be queried without end, opened and closed |
| `Service.ServedHandleServes` | MySQL/Thread.cpp:36-132 | Bounded waiting in the whole plugin: if queries keep coming on that handle too, its first k queries are executed and handed over within as many stretches as there is work due to them |
| `Service.RunsAreSane` | MySQL/Thread.cpp:36-132 | Every run of the plugin from its start, with a bounded number of scripts, ends in a state from which the last two apply |
| `Service.StretchExists` | MySQL/Thread.cpp:36-132 | Every such state can be continued by a stretch in which nothing is enqueued |
| `Natives.Globals.MysqlInit` | MySQL/Natives.cpp:32-52 | The search loop finds the least free slot, or reports none and changes nothing; the slot stays taken even if the library could not be initialised; the table is that of the plugin's own move |
| `Natives.Globals.MysqlClose` | MySQL/Natives.cpp:77-84 | A connected handle is closed and its slot emptied, any other left alone; the table is that of the plugin's own move |
| `Natives.Globals.QueryPass` | MySQL/Thread.cpp:38-77 | One pass makes one visit to each slot in turn up to the first one it finds empty, with any steps of the other thread and of scripts before, during and after each visit, and handles opened and closed meanwhile |
| `Natives.Globals.ProcessTick` | MySQL/Thread.cpp:85-134 | The same for one tick over the script list; callbacks may call what they like, and open and close handles |
| `Natives.QuietPass` | MySQL/Thread.cpp:38-87 | If none is opened or closed meanwhile, such a pass visits exactly the handles below the first free slot, once each, and leaves all other slots as they were |
| `Natives.PassComesTo` | MySQL/Thread.cpp:38-87 | A pass comes to every handle of the prefix it started with unless that handle or a lower one is closed before |
| `Natives.ChangedIsMove` | MySQL/Natives.cpp:32-84 | Handles opened and closed during a pass change the table as the plugin's own moves do |
| `Natives.Globals.AmxLoad` | MySQL/Main.cpp:112-116 | The script joins the end of the list, as in the plugin's own move, and unloading takes it off again if it was not in it before |
| `Natives.UnloadUndoesLoad` | MySQL/Main.cpp:112-130 | Unloading a script that was just loaded leaves the list as it was if it was not in it before; otherwise the first old entry goes and the new one stays |
| `Natives.Globals.AmxUnload` | MySQL/Main.cpp:118-130 | The first script with that identity leaves the list |
| `Natives.EraseFirstExactly` | MySQL/Main.cpp:120-127 | All other scripts stay, in order |
| `Base.GetString` | MySQL/Main.cpp:132-151 | Never empty: the argument itself, or the word NULL for an empty one |
| `RowText.CellText` | MySQL/Mysql.cpp:326 | What is printed for a cell: the word NULL for a NULL cell, the cell itself if it holds no NUL byte, and otherwise what stands before the first one |
| `RowText.PrintRow` | MySQL/Mysql.cpp:312-336 | Sizing, zero fill and repeated strcat produce exactly the joined cells, or would write past the buffer exactly when the joined text does not fit |
| `RowText.FitsExactly` | MySQL/Mysql.cpp:315-318 | The buffer suffices if and only if 4 times the NULL cells plus the splitters is at most the number of fields plus the bytes hidden behind NULs |
| `RowText.DefaultSplitterFits` | mysql.inc:135 | With a one-character splitter and NUL-free cells: if and only if no cell is NULL |
| `RowText.OneNullOverruns` | MySQL/Mysql.cpp:315-329 | A row of one NULL cell does not fit |
| `RowText.Split` | mysql.inc:159-173 | Piece k of the text arrives in row k, whole if shorter than 128 characters; rows past the pieces are untouched; it ends early exactly when the destination has too few rows |
| `RowText.PieceCount` | mysql.inc:162-172 | One piece more than there are delimiters |
| `RowText.PiecesOfJoin` | mysql.inc:159-173 | Splitting a joined text gives back the parts |
| `RowText.JoinOfPieces` | mysql.inc:159-173 | Joining the pieces of any text gives back the text |
| `RowText.PrintThenSplit` | MySQL/Mysql.cpp:324-329 | Splitting a printed row gives as many pieces as it has cells: piece i is cell i itself, for NUL-free cells without the delimiter, and the word NULL for a NULL cell |
| `RowText.RoundTrip` | mysql.inc:159-173 | The same through both pieces of code: destination row i holds cell i, or the word NULL, provided the row fits its buffer |
| `ByteOrder.LoadUndoesStore` | include/my_global.h:1303-1331 | For every width, the number the stored bytes stand for is the stored one modulo 2^(8w) |
| `ByteOrder.StoreUndoesLoad` | include/my_global.h:1274-1301 | Storing the number that bytes stand for gives back the bytes |
| `ByteOrder.NativeStore` | include/my_global.h:1217-1233 | A store through a wider pointer on a little-endian machine writes the same bytes and nothing else |
| `ByteOrder.Int2Store` | include/my_global.h:1303-1306 | The portable macro writes the two low bytes, least significant first, and nothing else |
| `ByteOrder.Int3Store` | include/my_global.h:1307-1311 | Both variants write the three low bytes |
| `ByteOrder.Int4Store` | include/my_global.h:1312-1315 | The portable macro writes the four low bytes |
| `ByteOrder.Int6Store` | include/my_global.h:1316-1328 | int5store and int6store write the five and six low bytes |
| `ByteOrder.Int8Store` | include/my_global.h:1329-1331 | The two words of the portable macro make the eight low bytes |
| `ByteOrder.LoadsAreValues` | include/my_global.h:1274-1301 | Each unsigned load is the number its bytes stand for, in any buffer that holds them |
| `ByteOrder.LoadsUndoStores` | include/my_global.h:1274-1331 | Each unsigned load undoes the store of its width, modulo that width |
| `ByteOrder.Uint3VariantsAgree` | include/my_global.h:1191-1201 | The masked four-byte read equals the three-byte read for any fourth byte |
| `ByteOrder.Sint3IsSigned` | include/my_global.h:1261-1268 | sint3korr is the two's-complement sign extension of uint3korr |
| `ByteOrder.SignedVariantsAgree` | include/my_global.h:1259-1273 | The portable sint2korr, sint4korr and sint8korr equal the x86 reads of a signed word, whether char is signed or not |
| `Alignment.AlignExactly` | include/my_global.h:928-937 | For a power of two and without overflow, MY_ALIGN is L times MY_DIV_UP, the least multiple of L not below A |
| `Rint.Rint` | include/my_global.h:1573-1590 | Within the exact range the branches on the integral part yield the nearest integer, ties to even |
| `Rint.NearestIsNearest` | include/my_global.h:1565-1571 | Within one half, and even on ties |
| `Rint.NearestIsUnique` | include/my_global.h:1565-1571 | No other integer has these two properties |
| `Rint.NearestIsOdd` | include/my_global.h:1573-1590 | Rounding commutes with negation |
| `Rint.NearestIsMonotone` | include/my_global.h:1573-1590 | Rounding is monotone |
| `Rint.NearestIsIdempotent` | include/my_global.h:1573-1590 | Rounding an integer changes nothing |

## Left out

- Data races inside `std::queue`, `std::list` and plain fields: queue operations and flag reads and writes are taken to be atomic. A native is one step with respect to the query thread: an unqueued query is not split into its execution and its write of `state`, nor store_result into its two checks and the store.
- The client library: an execution returns any status, a store any table with rows as wide as its header or nothing, and data_seek beyond the rows leaves the cursor at the end.
- The script machine: a callback is a log entry during which any script calls may happen; its return value is not used by the source either.
- The `Error` callbacks of MySQL/Main.cpp:185: the scripts they run are further script calls between two steps.
- `Natives.Globals.MysqlClose` and `Plugin.CloseAt`: mysql_close acts only while neither thread is inside the handle; the source does not check that.
- `Plugin.Apply`: scripts are not loaded or unloaded during a dispatch, and script calls on empty slots do nothing; the source follows the null pointer in its error path.
- `Handoff.NativeStep`: connect on a handle whose library object is null leaves it unconnected.
- `Natives.Globals.QueryPass` and `Natives.Globals.ProcessTick`: the loops carry a bound on the handle; the source reads past the table if all four slots are taken.
- `Connection.MySQL.FetchFirst`: the cell as text; the numbers atoi and atof make of it are not stated.
- Memory: an allocation is an identity that is never reused, so a stale pointer is recognised; running out of memory and the mismatch of array new with plain delete are not modelled.
- `RowText.Split`: of a piece of 128 characters or more it states only that a proper beginning of at most 127 characters arrives; strmid belongs to the script machine and is not part of this model.
- `RowText.PrintRow`: writing past the buffer is a refusal, since what it destroys is undefined.
- `Base.GetString`: the content only, not the write of one byte past the five allocated for an empty argument.
- `Rint.Rint`: over the reals, so rounding of double arithmetic, infinities and NaN are out; beyond the exact range nothing is stated.
- `ByteOrder`: big-endian machines, the float and double codecs, `longstore` and `shortstore`.
- The pointer `field`, the conversions by atoi and atof, the buffer of real_escape_string, logging, and the methods that only forward to the library.
