# Discord IPTV bot: a verified model of its control logic

The bot streams IPTV channels into a Discord voice channel. It has two
processes:

- **The control process** loads an M3U playlist, groups its channels into
  categories and offers a selection dialogue. Commands come from the console or
  from a Discord command channel. It keeps a worker process alive.
- **The stream worker** joins the voice channel. For each start or switch it
  builds a transcoding pipeline and reports its progress back over IPC.

The files model these parts:

| file | module | what it models |
|---|---|---|
| `stream_worker.dfy` | `StreamWorker` | the worker's state and message handler: the seven pipeline slots, the voice session flag, the run counter, the aborted-controller set; the teardown, start/switch, leave, the crash path, the play completion check and the shutdown listeners |
| `state_machine.dfy` | `Selection` | the operator's dialogue (`idle`, `chooseCategory`, `chooseChannel`, `pendingAction`), including how a typed number selects a menu entry |
| `worker_control.dfy` | `WorkerControl` | the relay of worker messages, the guarded sends, the hard kill and the restart sequence |
| `playlist.dfy` | `Playlist` | `parseM3U`, `groupByCategory`, `filterCategories`, `orderCategories`, the download and the module-level cache |
| `menus.dfy` | `Menus` | the favourites-first category order and the console menus |
| `client.dfy` | `Client` | the Discord front end: pages, navigation buttons, menu embeds, the paging state, `chunk2000` |
| `app.dfy` | `App` | the console line router and the worker-event callback |
| `host.dfy`, `ipc.dfy` | `Host`, `Ipc` | the control side's effect log and worker connectivity; the messages in both directions |
| `strings.dfy`, `sorting.dfy`, `base.dfy` | `Strings`, `Sorting`, `Base` | the JavaScript string operations the core relies on (`trim`, `toLowerCase`, `split`, `join`, `Number`, decimal printing) and the sort |

Every call out of the program becomes an entry in an effect log: Discord,
`fork`, `kill`, IPC `send`, `process.exit`, timers and console writes. The
control side keeps `Host.Host.log`; the worker keeps
`StreamWorker.WorkerState.trace`. The outside world's answers become
parameters:

- the download's `Response`;
- a `Fault` naming which start step throws;
- `now` for `Date.now()`;
- the id Discord gives a new message.

Each imperative piece of the source is a class whose fields are the source's
variables. Each method's `ensures` ties the new state to a specification
function of the old state (`State() == Receive(old(State()), ...)`). Lemmas
then state the source's promises about those functions. The pure pieces are
functions with lemmas.

## Model

| member | source | states |
|---|---|---|
| StreamWorker.Worker.constructor | src/worker/stream-worker.js:16-22 | without its three settings the worker posts the "Vars manquantes" error and exits with 1; otherwise it starts with empty slots, out of voice, run 0, logging in |
| StreamWorker.BootValid | src/worker/stream-worker.js:16-22 | the initial state satisfies the worker invariant with an empty pipeline, and the worker has exited exactly when it was not configured |
| StreamWorker.Worker.StopMediaFull | src/worker/stream-worker.js:197-242 | the new state is the teardown of the old one: handles released in source order, slots cleared, current controller aborted |
| StreamWorker.TeardownClears | src/worker/stream-worker.js:232-239 | teardown empties all seven slots and adds the live controller to the aborted set. It leaves `inVoice`, `runId`, the login and the parked starts unchanged, and only appends to the trace |
| StreamWorker.TeardownStopped | src/worker/stream-worker.js:198-199 | `stopped` is posted by a teardown exactly when streaming, the output, the prepare command, the transcoder or the FIFO path was set |
| StreamWorker.TeardownIdempotent | src/worker/stream-worker.js:197-242 | a second teardown in a row changes nothing and posts nothing |
| StreamWorker.Boot | src/worker/stream-worker.js:16-22 | the worker's state after start-up; its properties are `BootValid` |
| StreamWorker.Teardown | src/worker/stream-worker.js:197-242 | `stopMediaFull` on the state; its properties are `TeardownClears`, `TeardownStopped`, `TeardownIdempotent` and `TeardownValid` |
| StreamWorker.Crash | src/worker/stream-worker.js:353-360 | the catch path; its properties are `CrashShape` |
| StreamWorker.LeaveAndExit | src/worker/stream-worker.js:244-251 | `leaveVoiceAndExit` on the state; its properties are `LeaveShape` |
| StreamWorker.StartTeardown | src/worker/stream-worker.js:277-281 | the opening of a start; its properties are `StartTeardownShape` |
| StreamWorker.JoinStep | src/worker/stream-worker.js:285-297 | the join; its properties are `JoinStepShape` and `JoinFailureShape` |
| StreamWorker.LaunchStep | src/worker/stream-worker.js:299-305 | the streaming flag and FIFO; its properties are `LaunchStepShape` |
| StreamWorker.SpawnStep | src/worker/stream-worker.js:303-349 | the transcoder, the prepared stream and the play; its properties are `LaunchStepShape` |
| StreamWorker.StartRun | src/worker/stream-worker.js:277-352 | a whole start or switch with a url; its properties are `StartRunShape` and `SwitchMakesEarlierRunsStale` |
| StreamWorker.Receive | src/worker/stream-worker.js:254-361 | the message handler on the state; its properties are `ReceiveValid`, `MissingUrlOnlyReports`, `ReceiveKeepsVoice` and `StopThenCompletionIgnored` |
| StreamWorker.ClientReady | src/worker/stream-worker.js:379-382 | the `ready` handler on the state; its properties are `ClientReadyValid` |
| StreamWorker.ResumeStart | src/worker/stream-worker.js:275 | a parked start going on after login; its properties are `ResumeValid` |
| StreamWorker.PlayEnded | src/worker/stream-worker.js:329-340 | the play's `finally` on the state: it logs `aborted=undefined` and tears down whenever the run is still current; its properties are `StaleCompletionIgnored`, `CurrentCompletionTearsDown`, `PlayEndedKeepsVoice` and `PlayEndedValid` |
| StreamWorker.Shutdown | src/worker/stream-worker.js:364-372 | the signal and disconnect listeners; its properties are `ShutdownValid` |
| StreamWorker.TeardownValid | src/worker/stream-worker.js:232-239 | teardown preserves the worker invariant |
| StreamWorker.Worker.LeaveVoiceAndExit | src/worker/stream-worker.js:244-251 | the new state is `LeaveAndExit` of the old one |
| StreamWorker.LeaveShape | src/worker/stream-worker.js:244-251 | leave runs the teardown, then leaves voice, then exits with code 0. It keeps the invariant, and posts `stopped` exactly when something was set |
| StreamWorker.Worker.CrashExit | src/worker/stream-worker.js:353-360 | the new state is `Crash` of the old one |
| StreamWorker.CrashShape | src/worker/stream-worker.js:353-360 | a thrown error is posted first. The pipeline is then torn down and the trace ends with leaving voice and exit code 1; `inVoice`, the run and the login are kept |
| StreamWorker.Worker.OnMessage | src/worker/stream-worker.js:254-361 | the new state is `Receive` of the old state, the message, the clock and the fault |
| StreamWorker.MissingUrlOnlyReports | src/worker/stream-worker.js:268-273 | a start or switch without a url (or with an empty one) only posts "URL manquante"; no state changes |
| StreamWorker.Worker.Start | src/worker/stream-worker.js:277-352 | after login, a start or switch follows `StartRun`: bump the run, tear down, join if needed, then build the pipeline |
| StreamWorker.StartTeardownShape | src/worker/stream-worker.js:277-281 | the opening step bumps `runId` by exactly one and empties the pipeline. The new run's controller is not aborted and `inVoice` is kept |
| StreamWorker.Worker.JoinIfNeeded | src/worker/stream-worker.js:285-297 | the new state is `JoinStep` of the old one |
| StreamWorker.JoinStepShape | src/worker/stream-worker.js:285-297 | `joinVoice` runs exactly when not in voice, and `joined` is posted exactly when that join succeeds. Afterwards the worker is in voice unless the join threw, which exits with 1; in voice, nothing changes |
| StreamWorker.JoinFailureShape | src/worker/stream-worker.js:285-297 | a join that throws leads to the error post, leaving voice and exit code 1, right after the join attempt |
| StreamWorker.Worker.Launch | src/worker/stream-worker.js:299-305 | the new state is `LaunchStep`: streaming flag and FIFO path first |
| StreamWorker.Worker.SpawnAndPlay | src/worker/stream-worker.js:303-349 | the new state is `SpawnStep`: transcoder and controller, then the prepared stream and the play |
| StreamWorker.LaunchStepShape | src/worker/stream-worker.js:299-349 | without a fault every slot is set to the current run and `started` is the last post. A FIFO or prepare fault ends in the crash path with an empty pipeline |
| StreamWorker.StartRunShape | src/worker/stream-worker.js:277-349 | a start with a url bumps `runId` by exactly one and tears the previous pipeline down before any slot is set again. A faultless start ends in voice, with every slot set to the new run and `started` last; a start that exits was faulted |
| StreamWorker.Worker.OnPlayEnded | src/worker/stream-worker.js:329-340 | the new state is `PlayEnded` of the old state for the completing run: it logs `aborted=undefined` and tears down exactly when the run is still current |
| StreamWorker.StaleCompletionIgnored | src/worker/stream-worker.js:337 | a completion whose run is not the current one changes nothing but the trace |
| StreamWorker.CurrentCompletionTearsDown | src/worker/stream-worker.js:337-339 | the completion of the current run tears the pipeline down and keeps the run, `inVoice` and the invariant, also when a stop has already aborted its signal |
| StreamWorker.SwitchMakesEarlierRunsStale | src/worker/stream-worker.js:277-278 | after a start or switch, the completion of any earlier run is ignored |
| StreamWorker.StopThenCompletionIgnored | src/worker/stream-worker.js:256-260 | after `stop`, the completion of the run it stopped is still current and tears down again, but that second teardown of the emptied pipeline changes nothing but the trace |
| StreamWorker.ReceiveValid | src/worker/stream-worker.js:254-361 | every message keeps the worker invariant: each handle belongs to the current run, so at most one pipeline is alive, and the live controller is not aborted |
| StreamWorker.ClientReadyValid | src/worker/stream-worker.js:379-382 | the login keeps the worker invariant |
| StreamWorker.PlayEndedValid | src/worker/stream-worker.js:329-340 | a play completion keeps the worker invariant, whether it tears down or is ignored |
| StreamWorker.ShutdownValid | src/worker/stream-worker.js:364-372 | the shutdown listeners keep the worker invariant |
| StreamWorker.ResumeValid | src/worker/stream-worker.js:275 | a start resumed after login keeps the worker invariant |
| StreamWorker.ReceiveKeepsVoice | src/worker/stream-worker.js:291 | no message handler resets `inVoice` |
| StreamWorker.PlayEndedKeepsVoice | src/worker/stream-worker.js:332-340 | a play completion does not reset `inVoice` |
| StreamWorker.InVoiceNeverReset | src/worker/stream-worker.js:285-297 | once in voice, the worker stays in voice through messages, completions and resumed starts |
| StreamWorker.Worker.OnClientReady | src/worker/stream-worker.js:379-382 | the new state is `ClientReady`: logged in, and `ready` posted with the account name |
| StreamWorker.Worker.Resume | src/worker/stream-worker.js:275 | the oldest start parked on the login goes on as `StartRun` |
| StreamWorker.Worker.OnShutdown | src/worker/stream-worker.js:364-372 | disconnect, SIGTERM and SIGINT run `LeaveAndExit`; once the worker has exited a further signal changes nothing |
| Ipc.Encode | src/worker/stream-worker.js:380 | a worker message arrives as an object with its own `type`, plus `username` or `text` where it has one |
| Ipc.EncodeInjective | src/services/workerControl.js:20-36 | different worker messages arrive as different objects |
| Ipc.Deliver | src/services/workerControl.js:52-67 | the worker reads `start` (with its url), `stop` and `leave` back as sent; only a start carries a url |
| WorkerControl.Relay | src/services/workerControl.js:20-36 | non-objects and unknown types are dropped. The six known types are forwarded under their own name with the whole message |
| WorkerControl.ReadyOnlyFromReady | src/services/workerControl.js:17-24 | readiness is resolved exactly by the messages forwarded as `ready` |
| WorkerControl.WorkerMessagesRelayed | src/services/workerControl.js:20-36 | every message the worker posts reaches the control process under its own type; only `ready` resolves readiness |
| WorkerControl.Forward | src/services/workerControl.js:20-46 | all the child's listeners: IPC messages go through the relay; output chunks and the exit always produce an event |
| WorkerControl.ForwardOutput | src/services/workerControl.js:39-46 | stdout and stderr chunks are forwarded as they are, and the exit as its code |
| WorkerControl.Guarded | src/services/workerControl.js:52-67 | a guarded send does nothing exactly when there is no worker or it is disconnected; otherwise it sends exactly that one message to it |
| WorkerControl.SendGuarded | src/services/workerControl.js:52-67 | appends exactly `Guarded(...)` to the log and changes nothing else |
| WorkerControl.StartWorkerStream | src/services/workerControl.js:52-55 | a guarded `{type:"start", url}` |
| WorkerControl.StopWorker | src/services/workerControl.js:58-61 | a guarded `{type:"stop"}` |
| WorkerControl.LeaveWorker | src/services/workerControl.js:64-67 | a guarded `{type:"leave"}` |
| WorkerControl.KillWorker | src/services/workerControl.js:70-74 | one SIGTERM when there is a worker, nothing otherwise. It always returns normally |
| WorkerControl.LaunchWorker | src/services/workerControl.js:10-49 | forks the next worker, which is connected from then on |
| WorkerControl.RestartOrder | src/services/workerControl.js:94-110 | the restart's effects are, in order: the kill (only if there is a worker), the back-off wait, the fork, the wait for ready, and the start. The start is the only send, and the only kill is of the old worker |
| WorkerControl.RestartWorkerAndStart | src/services/workerControl.js:94-110 | logs exactly `RestartEffects` with the back-off defaulting to 2000 ms, and returns the new worker, which is connected |
| Host.Host.constructor | src/app.js:18-25 | an empty effect log and no worker |
| Host.Host.Emit | src/app.js:27-43 | appends one effect and changes nothing else |
| Host.Host.ForkWorker | src/services/workerControl.js:11-14 | a fresh worker number, connected, with a `Fork` effect |
| Host.Host.Disconnected | src/services/workerControl.js:53 | a worker whose IPC channel closed is no longer connected; forked workers stay numbered below the counter |
| Selection.StateMachine.constructor | src/bot/stateMachine.js:20-30 | starts idle with no pending action, no selected category and no channels |
| Selection.StateMachine.StartSelection | src/bot/stateMachine.js:32-46 | makes sure the playlist is loaded. A usable playlist opens the category menu with the action pending; otherwise the hint and a prompt are shown and mode, pending action and ui are unchanged |
| Selection.StateMachine.ShowHint | src/bot/stateMachine.js:34-37 | the retry hint, then a prompt |
| Selection.StateMachine.OpenCategoryMenu | src/bot/stateMachine.js:39-45 | sets the action and `chooseCategory` together, clears the ui and shows the favourites-first categories |
| Selection.StateMachine.ShowCategoryMenu | src/bot/stateMachine.js:43-45 | through the renderer when one is given, else as the console menu text |
| Selection.StateMachine.ShowChannelMenu | src/bot/stateMachine.js:84-85 | through the renderer when one is given, else as the console channel list |
| Selection.StateMachine.EnsureWorker | src/bot/stateMachine.js:53-61 | launches and awaits a worker exactly when there is none; afterwards there is one |
| Selection.StateMachine.HandleIdle | src/bot/stateMachine.js:51-66 | in idle only `on`, `switch` and `s` do anything. `on` launches a worker if there is none and starts a selection with "start"; `switch`/`s` start one with "switch" and launch nothing |
| Selection.StateMachine.HandleChooseCategory | src/bot/stateMachine.js:68-92 | `q` returns to idle with nothing pending. A number designating category k opens its channels (empty when it has no group); anything else prints the error, shows the menu again and changes nothing |
| Selection.StateMachine.HandleChooseChannel | src/bot/stateMachine.js:94-138 | `q` returns to idle without any worker call. A valid number with "start" sends exactly one guarded start of that channel's url, launching a worker first if none exists; with "switch" it runs the restart and adopts the new worker. Both end idle with the ui cleared; an invalid number shows the same list again and changes nothing |
| Selection.StateMachine.HandleCommand | src/bot/stateMachine.js:48-139 | the input is trimmed and lower-cased. In idle, other input is a no-op; outside idle, `q` cancels without touching the worker or the cache |
| Selection.IndexCheckAsWritten | src/bot/stateMachine.js:77-78 | the range check as written accepts `Number(cmd) - 1` whenever it lies in `[0, n)`, whole or not |
| Selection.CheckNumber | src/bot/stateMachine.js:102-103 | the same check on an already parsed number |
| Selection.FractionPassesCheck | src/bot/stateMachine.js:77-79 | "1.5" passes the check as written, with index 0.5, which designates no entry |
| Selection.NumberOfFraction | src/bot/stateMachine.js:77 | `Number("1.5")` is 1.5 |
| Selection.Pick | src/bot/stateMachine.js:76-87 | the intended check: only a whole number between 1 and n picks an entry, namely entry number minus one |
| Selection.PickNumber | src/bot/stateMachine.js:102-104 | the same on an already parsed number |
| Selection.PickNumberIsWholeAcceptance | src/bot/stateMachine.js:102-103 | the intended check accepts exactly what the check as written accepts with a whole index, and picks the same index |
| Selection.PickIsWholeAcceptance | src/bot/stateMachine.js:77-78 | `Pick` accepts exactly the inputs the check as written accepts with a whole index |
| Selection.PickDisplayed | src/bot/stateMachine.js:77-78 | typing back the number m shown before an entry, 1 <= m <= n, picks entry m - 1 |
| Selection.MenuNumberSelects | src/bot/menus.js:27-29 | the number in front of console menu line i picks entry i |
| Selection.EmbedNumberSelects | src/bot/client.js:84 | the number shown before row k of a Discord menu page picks the list element that row shows |
| Selection.SelectionReadyAsWritten | src/bot/stateMachine.js:33 | whether the selection opens as written, reloading without a url; its properties are `AsWrittenNeverRecovers` |
| Selection.AsWrittenNeverRecovers | src/bot/stateMachine.js:33 | without the url, an unusable cache stays unusable whatever the download would give; the cache only records the fetch error |
| Selection.SelectionReady | src/bot/stateMachine.js:33 | whether the selection opens when the reload uses the configured url; its properties are `CorrectedSelectionRecovers` |
| Selection.CorrectedSelectionRecovers | src/services/playlist.js:111-115 | with the configured url, a download offering at least one category makes the selection available |
| Selection.WorkerRef.constructor | src/app.js:25 | the shared worker reference starts empty |
| Playlist.Label | src/bot/menus.js:41 | a channel is shown by its title, or by its url when the title is empty |
| Playlist.KeyRun | src/services/playlist.js:23 | reads the longest run of key characters `[A-Za-z0-9_-]` |
| Playlist.ValueRun | src/services/playlist.js:23 | reads the longest run without a double quote |
| Playlist.MatchAt | src/services/playlist.js:23 | a match of `key="value"` at a position has a non-empty key of key characters and a value without quotes |
| Playlist.AttrMatches | src/services/playlist.js:23 | every match found by `matchAll` has a non-empty key and a quote-free value |
| Playlist.AttrsOf | src/services/playlist.js:22-27 | the attribute object built from the matches; its properties are `AttrsOfKeys`, `AttrsOfLowercase` and `AttrsOfLastWins` |
| Playlist.AttrsOfKeys | src/services/playlist.js:22-27 | every attribute key is a lower-cased matched key and never `__proto__` |
| Playlist.AttrsOfLowercase | src/services/playlist.js:24 | attribute keys are lower case |
| Playlist.AttrsOfLastWins | src/services/playlist.js:24-26 | the value kept for a key is the trimmed value of its last occurrence |
| Playlist.CollectAttrs | src/services/playlist.js:22-27 | the loop builds exactly `AttrsOf` of the matches |
| Playlist.SplitLines | src/services/playlist.js:10 | `split(/\r?\n/)` always gives at least one line |
| Playlist.PendingTitle | src/services/playlist.js:18-20 | the title is the trimmed text after the first comma of the meta text; the attributes come from the text before it |
| Playlist.Classify | src/services/playlist.js:15-30 | how the loop reads one line: empty or `#EXTM3U` skipped, `#EXTINF:` with its meta text, another `#` line, or a url line with its trimmed text |
| Playlist.PendingOf | src/services/playlist.js:18-28 | the entry an `#EXTINF:` line starts; its properties are `PendingTitle` |
| Playlist.ParseLines | src/services/playlist.js:12-35 | the parse over the split lines; its properties are `ParseCountBound`, `ParseUrls`, `ParseMeta`, `DirectivesKeepPending` and `UrlLineEmitsPending` |
| Playlist.ParseM3U | src/services/playlist.js:9-38 | the loop returns exactly `ParseLines` of the split text with nothing pending |
| Playlist.ParseCountBound | src/services/playlist.js:17 | there are at most as many items as `#EXTINF:` lines, plus one for an entry already pending |
| Playlist.ParseUrls | src/services/playlist.js:29-33 | every item's url is one of the input lines, trimmed, that does not start with `#` |
| Playlist.ParseMeta | src/services/playlist.js:17-28 | every item's title and attributes come from an `#EXTINF:` line of the input |
| Playlist.FromTail | src/services/playlist.js:14 | what comes from the later lines comes from the whole input |
| Playlist.DirectivesKeepPending | src/services/playlist.js:15-16 | empty lines, `#EXTM3U` and other `#` lines neither emit an item nor clear the pending entry |
| Playlist.UrlLineEmitsPending | src/services/playlist.js:29-34 | a url line emits the pending entry with the trimmed url and clears it; with nothing pending it emits nothing |
| Playlist.CategoryOf | src/services/playlist.js:43-49 | the group key is never empty |
| Playlist.CategoryShape | src/services/playlist.js:43-49 | the key is trimmed; it is the first non-blank of `group-title`, `group`, `category`, and "Sans catégorie" when all are blank or missing |
| Playlist.GroupKeys | src/services/playlist.js:50 | the Map's keys in first-seen order; its properties are `GroupKeysExact` |
| Playlist.InGroup | src/services/playlist.js:50-51 | a group holds only items of its key |
| Playlist.GroupByCategory | src/services/playlist.js:40-54 | the map holds exactly the keys in first-seen order, each with its items in input order |
| Playlist.GroupBy | src/services/playlist.js:42-52 | the Map-filling loop for any key function |
| Playlist.GroupKeysExact | src/services/playlist.js:50 | the keys are distinct and are exactly the keys of the items |
| Playlist.NoGroupWithoutKey | src/services/playlist.js:50 | a key no item has has no items |
| Playlist.EveryItemInItsGroup | src/services/playlist.js:50-51 | every item is in its own group and in no other |
| Playlist.GroupKeepsOrder | src/services/playlist.js:51 | each group keeps the input order |
| Playlist.TotalSizeStep | src/services/playlist.js:51 | one more item adds one to its key's group |
| Playlist.OccurrencesDistinct | src/services/playlist.js:50 | a key occurs at most once among distinct keys |
| Playlist.TotalSizeEmpty | src/services/playlist.js:41 | no items, no group members |
| Playlist.TotalSizeOver | src/services/playlist.js:42-52 | over distinct keys covering every item, the group sizes sum to the item count |
| Playlist.GroupSizesSum | src/services/playlist.js:40-54 | the group sizes sum to the number of items |
| Playlist.KeepCategory | src/services/playlist.js:59-65 | the test of one category name: no "vod" in any case, a Latin letter, no Arabic or Cyrillic character |
| Playlist.FilterCategories | src/services/playlist.js:57-67 | `filterCategories`; its properties are `FilterCategoriesShape` |
| Playlist.IsFranceCategory | src/services/playlist.js:74 | the `^EU\|\s*FRANCE` test, case-insensitive |
| Playlist.OrderedCategories | src/services/playlist.js:70-80 | `orderCategories`; its properties are `OrderedCategoriesShape` |
| Playlist.FilterCategoriesShape | src/services/playlist.js:57-67 | the filter keeps, in order, exactly the names with no "vod" in any case, a Latin letter, and no Arabic or Cyrillic character |
| Playlist.OrderedCategoriesShape | src/services/playlist.js:70-80 | a permutation in which every `EU\|…FRANCE` name precedes every other name and each part is sorted |
| Playlist.OrderCategories | src/services/playlist.js:70-80 | the loop and the two sorts give exactly `OrderedCategories` |
| Playlist.FetchText | src/services/playlist.js:2-6 | an unset url fails; a 2xx answer gives its body; other statuses and network errors fail |
| Playlist.CatalogOf | src/services/playlist.js:95-100 | what a successful load derives from the text; its properties are `CatalogCategoriesHaveGroups` |
| Playlist.Load | src/services/playlist.js:92-109 | `loadPlaylistOnce` on the cache; its properties are `LoadSuccessReplaces` and `LoadFailureKeeps` |
| Playlist.Ensure | src/services/playlist.js:111-115 | `ensurePlaylistLoaded` on the cache; its properties are `EnsureUsesUsableCache` and `EnsureAnswer` |
| Playlist.CatalogCategoriesHaveGroups | src/services/playlist.js:97-100 | every category a load offers has a group |
| Playlist.BuildCatalog | src/services/playlist.js:95-100 | parse, group, sort the keys, filter and order: exactly `CatalogOf` of the text |
| Playlist.EnsureUsesUsableCache | src/services/playlist.js:112 | a loaded cache with categories answers true and nothing changes |
| Playlist.LoadSuccessReplaces | src/services/playlist.js:102 | a successful download replaces the whole cache, loaded, with no error |
| Playlist.LoadFailureKeeps | src/services/playlist.js:105-106 | a failed download marks the cache unloaded and records the error, keeping the items, groups and categories |
| Playlist.EnsureAnswer | src/services/playlist.js:114 | the answer is true exactly when the resulting cache is loaded with at least one category |
| Playlist.PlaylistCache.constructor | src/services/playlist.js:83-89 | the initial cache: not loaded, empty, no error |
| Playlist.PlaylistCache.LoadPlaylistOnce | src/services/playlist.js:92-109 | the new cache is `Load` of the old one |
| Playlist.PlaylistCache.EnsurePlaylistLoaded | src/services/playlist.js:111-115 | the answer and the new cache are `Ensure` of the old one |
| Menus.HasFavouritePrefix | src/bot/menus.js:12 | the upper-cased name starts with "EU\| FRANCE" |
| Menus.FavouritesFirst | src/bot/menus.js:7-18 | the prefix-matching categories, then the others; its properties are `FavouritesFirstShape` and `FavouritesFirstIdempotent` |
| Menus.FavouritesFirstShape | src/bot/menus.js:11-17 | a permutation of the categories in which every "EU\| FRANCE" name (any case) precedes every other; each part keeps its relative order |
| Menus.FavouritesFirstIdempotent | src/bot/menus.js:9-17 | applying the partition twice is applying it once |
| Menus.PrefixIsFrance | src/bot/menus.js:12 | a name with the favourite prefix is also a favourite for `orderCategories` |
| Menus.GetSortedCategories | src/bot/menus.js:7-18 | the loop returns exactly `FavouritesFirst` of the cached categories |
| Menus.CategoryLines | src/bot/menus.js:27-29 | one line per category |
| Menus.ChannelLines | src/bot/menus.js:40-42 | one line per channel |
| Menus.MenuLineNumber | src/bot/menus.js:28 | line i reads back as number i + 1 before its dot, followed by the entry's text |
| Menus.BeforeFirstOfDigits | src/bot/menus.js:28 | the digits before the dot are the number printed |
| Menus.CategoriesMenu | src/bot/menus.js:24-32 | the category menu text; `MenuLineNumber` states how its numbers read back |
| Menus.ChannelsMenu | src/bot/menus.js:38-45 | the channel menu text; `MenuLineNumber` states how its numbers read back |
| Menus.PrintCategories | src/bot/menus.js:24-32 | the text is the header, one numbered line per favourites-first category with its group size, and the footer "Choix (1-N, q pour annuler)" |
| Menus.PrintChannels | src/bot/menus.js:38-45 | the text is the header, one numbered line per channel with its label, and the footer with N |
| Client.CeilDiv | src/bot/client.js:42 | the ceiling of the quotient |
| Client.TotalPages | src/bot/client.js:41-42 | at least one page, enough pages for every entry, and no page left empty except for the single page of an empty list |
| Client.BuildPage | src/bot/client.js:40-47 | the page is clamped into `[0, pages - 1]`. The slice is `list[start..end]` with `start = p * perPage` and `end = min(total, start + perPage)`, at most `perPage` long and non-empty for a non-empty list |
| Client.PageStartInList | src/bot/client.js:44 | the start of an existing page lies inside the list |
| Client.DisplayedIndex | src/bot/client.js:84 | the shown number `start + k + 1` is a 1-based position in the whole list, and row k is that list element |
| Client.PagesTile | src/bot/client.js:44-45 | consecutive pages meet, and the last ends at the end of the list |
| Client.MakeNavRow | src/bot/client.js:49-72 | four buttons `kind:first/prev/next/last`; first and prev are disabled exactly when `page <= 0`, next and last exactly when `page >= pages - 1` |
| Client.NavigatePage | src/bot/client.js:250-254 | the page a button press leads to; its properties are `NavigateInRange`, `NavigateSteps` and `DisabledMeansNoMove` |
| Client.NavigateInRange | src/bot/client.js:250-254 | navigation keeps a page that is in range in range |
| Client.DisabledMeansNoMove | src/bot/client.js:55-70 | a button is disabled exactly when pressing it would not move the page |
| Client.NavigateSteps | src/bot/client.js:288-292 | first goes to 0 and last to the final page; prev and next step by one where possible; unknown actions leave the page |
| Client.EntryLines | src/bot/client.js:81-88 | row i of a page starting at `start` is `**start+i+1.** <text>` |
| Client.DescriptionPlaceholder | src/bot/client.js:88 | the placeholder is shown exactly when the page has no entries |
| Client.CategoriesEmbed | src/bot/client.js:78-99 | the category menu embed: numbered rows with group sizes, placeholder, page footer and `cat` buttons; `EntryLines` and `DescriptionPlaceholder` state its rows |
| Client.ChannelsEmbed | src/bot/client.js:120-141 | the channel menu embed: numbered labels, placeholder, page footer and `chn` buttons; `EntryLines` and `DescriptionPlaceholder` state its rows |
| Client.Pager.constructor | src/bot/client.js:36-37 | empty list, page 0, no message, 25 per page |
| Client.Pager.Reset | src/bot/client.js:75-76 | the list is replaced and the page reset to 0 |
| Client.Pager.Navigate | src/bot/client.js:250-254 | the page moves as `NavigatePage`; the list and the message are untouched |
| Client.Pager.Shown | src/bot/client.js:111 | records the id of the message now showing the menu |
| Client.PagingState.constructor | src/bot/client.js:35-38 | both menus empty, no channel category |
| Client.PagingState.RenderCategories | src/bot/client.js:74-113 | replaces the category list and resets its page to 0. In the command channel it deletes the previous menu message, sends the first page and remembers the new id; the channel menu is untouched |
| Client.PagingState.RenderChannels | src/bot/client.js:115-155 | records the category, replaces the channel list and resets its page to 0. It then shows the first page as the category menu does; the category menu is untouched |
| Client.PagingState.OnInteraction | src/bot/client.js:237-319 | only button presses in the command channel count. `cat:` and `chn:` move their own menu's page and update the message with that page; the lists and message ids never change |
| Client.Pieces | src/bot/client.js:184-187 | the pieces are non-empty and at most 1900 UTF-16 code units, the unit `str.length` and `slice` count |
| Client.PiecesConcat | src/bot/client.js:184-187 | the pieces concatenate to the string's code units, and all but the last are exactly 1900 units long |
| Client.FencedPiecesArePieces | src/bot/client.js:185 | each message is the fenced piece at its position |
| Client.ChunksFit | src/bot/client.js:179-189 | there is always at least one message, and each is at most 1908 code units, under Discord's 2000 |
| Client.FencedPiecesAt | src/bot/client.js:184-186 | one loop step: the fenced slice at `i`, then the rest |
| Client.Chunk2000 | src/bot/client.js:179-189 | the loop over the string's UTF-16 code units returns exactly `Chunks(Utf16(s))`: the fenced pieces, or the single placeholder for an empty string |
| Client.CharUnits | src/bot/client.js:183 | a character below U+10000 is one code unit, any other a high surrogate followed by a low one |
| Client.Utf16 | src/bot/client.js:183 | a string has at least as many code units as characters |
| Client.Utf16Append | src/bot/client.js:183 | the code units of a concatenation are the concatenated code units |
| Client.Utf16Bmp | src/bot/client.js:183 | a string without characters beyond U+FFFF has one code unit per character |
| Client.Utf16Last | src/bot/client.js:183 | the last code unit of a run of `a` is the unit of `a` |
| Client.FenceLiterals | src/bot/client.js:185 | the fence constants are the code units of the literals around each piece |
| Client.EmptyChunkLiteral | src/bot/client.js:188 | the placeholder constant is the code units of the source's placeholder literal |
| Client.AstralCountsTwice | src/bot/client.js:183-187 | 1900 characters starting with an emoji are 1901 code units and go out as two messages, the second holding only the last letter |
| Client.CutSplitsSurrogatePair | src/bot/client.js:185-186 | 1899 letters followed by an emoji are cut between the emoji's two surrogates, so the first message ends with a lone high surrogate |
| Client.Chunks | src/bot/client.js:179-189 | what `chunk2000` returns for given code units; its properties are `ChunksFit`, `PiecesConcat` and `FencedPiecesArePieces` |
| App.RouteOf | src/app.js:61-93 | `off` stops, `r`/`refresh` reloads, `q`/`quit`/`exit` quits, everything else goes to the state machine, each exactly |
| App.MenuInputDelegated | src/app.js:92-93 | `on`, `s`, `switch` and every printed number reach the state machine |
| App.SameCommand | src/app.js:58-59 | the state machine normalises the already trimmed line to the same command the router saw |
| App.FieldText | src/app.js:29 | a message field in a template string, "undefined" when absent |
| App.ExitAnnounced | src/app.js:37 | the exit announcement ends with the decimal digits of the exit code, or with "null" after a signal |
| App.EventEffects | src/app.js:28-40 | output chunks go to the matching stream. An error prints the worker's text, and log messages and unknown names print nothing |
| App.WorkerMessageAnnounced | src/app.js:29-33 | ready announces the worker's account and error the worker's text; exactly the log messages are silent |
| App.App.constructor | src/app.js:24-52 | the worker reference, the cache and the state machine share the host; the state machine is given the configured playlist url (the source gives it none, see Findings); idle, no worker, nothing loaded |
| App.App.Boot | src/app.js:54-55 | the playlist is loaded once from the configured url, then the prompt and the greeting |
| App.App.OnWorkerEvent | src/app.js:27-43 | announces the event and then prompts with the cursor kept. An exit clears the worker reference and the readiness flag, and no other event touches them |
| App.App.OnLine | src/app.js:57-94 | for the trimmed, lower-cased line: `off` only sends a guarded stop, and `r`/`refresh` only reloads (each then prompts). A quit is as in `OnQuit`; an idle non-command changes nothing |
| App.App.OnQuit | src/app.js:73-90 | outside idle it only cancels the selection and prompts. In idle with a connected worker it sends `leave`, schedules exit code 0 after 300 ms when process exit is allowed, and prompts; without one it exits at once when allowed and otherwise only prompts. The cache and the worker reference are untouched |
| Strings.TrimStart | src/app.js:58 | removing leading white space never lengthens the text |
| Strings.TrimEnd | src/app.js:58 | removing trailing white space never lengthens the text |
| Strings.Trim | src/app.js:58 | `trim` never lengthens the text |
| Strings.TrimStartShape | src/app.js:58 | the leading white space, and only it, is removed |
| Strings.TrimEndShape | src/app.js:58 | the trailing white space, and only it, is removed |
| Strings.TrimShape | src/app.js:58 | the trimmed text neither starts nor ends with white space |
| Strings.TrimNoop | src/app.js:58 | text without white space at its ends is its own trim |
| Strings.TrimIdempotent | src/bot/stateMachine.js:49 | trimming twice is trimming once |
| Strings.ToLower | src/app.js:59 | each character lower-cased in place |
| Strings.ToUpper | src/bot/menus.js:12 | each character upper-cased in place |
| Strings.ToLowerIdempotent | src/bot/stateMachine.js:49 | lower-casing twice is lower-casing once |
| Strings.Split | src/services/playlist.js:19 | at least one piece, none containing the separator |
| Strings.JoinSplit | src/services/playlist.js:19-20 | re-joining the pieces on the separator gives the text back |
| Strings.JoinHead | src/bot/client.js:88 | the joined text starts with the first part |
| Strings.BeforeFirst | src/services/playlist.js:19 | the text before the first separator contains no separator |
| Strings.CutAtFirst | src/services/playlist.js:19 | the text is what comes before the first separator, the separator, and what comes after |
| Strings.SplitHeadTail | src/services/playlist.js:19-20 | `[head, ...rest]` of a split: head is before the first separator, and rest re-joined is after it |
| Strings.ConcatAppend | src/bot/client.js:184-187 | concatenation distributes over appending lists |
| Strings.AppendLines | src/bot/menus.js:27-29 | the `forEach` appending to `buf` gives the start followed by every line |
| Strings.Decimal | src/bot/menus.js:28 | the printed number is a non-empty string of digits |
| Strings.DecimalRoundTrip | src/bot/menus.js:28 | the printed digits read back as the number |
| Strings.ToNumber | src/bot/stateMachine.js:77 | `Number(cmd)` on a string; its properties are `NumberOfDigits`, `NumberOfDecimal` and `NumberOfFraction` |
| Strings.NumberOfDigits | src/bot/stateMachine.js:77 | `Number` of a string of digits is their value |
| Strings.UnsignedOfDigits | src/bot/stateMachine.js:77 | a plain string of digits is an unsigned decimal literal of exactly their value |
| Strings.MantissaOfDigits | src/bot/stateMachine.js:77 | a plain string of digits is a mantissa of exactly their value |
| Strings.NumberOfDecimal | src/bot/stateMachine.js:77 | `Number` of a printed number is that number |
| Strings.NoSeparatorInDigits | src/bot/menus.js:28 | a string of digits has no dot |
| Sorting.BelowTotal | src/services/playlist.js:77-78 | the code-point order used for `localeCompare` is total |
| Sorting.BelowAntisymmetric | src/services/playlist.js:77-78 | and antisymmetric |
| Sorting.BelowTransitive | src/services/playlist.js:77-78 | and transitive |
| Sorting.Insert | src/services/playlist.js:77 | one insertion step of the sort; its properties are `InsertMultiset` and `InsertSorted` |
| Sorting.InsertMultiset | src/services/playlist.js:98 | inserting adds exactly the one element |
| Sorting.InsertSorted | src/services/playlist.js:98 | inserting into a sorted list keeps it sorted |
| Sorting.SortStrings | src/services/playlist.js:77-78 | the sort of `orderCategories` and of the keys; its properties are `SortStringsShape` |
| Sorting.SortStringsShape | src/services/playlist.js:98 | the sort returns a sorted permutation of its input |
| Sorting.Filter | src/services/playlist.js:58 | at most as long as the input, every element passing the test |
| Sorting.Reject | src/services/playlist.js:75 | at most as long as the input, every element failing the test |
| Sorting.FilterRejectMultiset | src/services/playlist.js:73-76 | the two parts together hold exactly the input's elements |
| Sorting.FilterKeeps | src/services/playlist.js:58 | an element passing the test is kept |
| Sorting.FilterAppend | src/bot/menus.js:11-16 | filtering distributes over appending |
| Sorting.FilterAll | src/bot/menus.js:11-16 | a list that all passes is its own filter and rejects nothing |
| Sorting.FilterNone | src/bot/menus.js:11-16 | a list that all fails filters to nothing and is its own rejection |
| Sorting.FilterIsSubsequence | src/services/playlist.js:58 | the filter keeps a subsequence of its input |
| Sorting.RejectIsSubsequence | src/services/playlist.js:75 | the rejection keeps a subsequence of its input |
| Sorting.PermutationKeeps | src/services/playlist.js:98-100 | a permutation keeps a property all elements have |
| Sorting.SortedParts | src/services/playlist.js:79 | two sorted parts, the first all passing and the second all failing, concatenate into a list where no pass follows a fail and each part is sorted |
| Sorting.SortedPartition | src/services/playlist.js:70-80 | the sorted passes followed by the sorted fails; its properties are `SortedPartitionShape` |
| Sorting.SortedPartitionShape | src/services/playlist.js:70-80 | sorted passes followed by sorted fails: a permutation with both properties |
| Sorting.PartitionShape | src/bot/menus.js:9-17 | passes followed by fails: a permutation with no pass after a fail |

## Left out

- Concurrency: each worker handler and each completion callback is one atomic step; interleavings at `await` are not modelled. In particular, the completion check at src/worker/stream-worker.js:337 reads `thisAbort.aborted`, which an `AbortController` does not have, so only `runId === myRun` guards it (and the model follows that). Because of this, a play that settles while a stop's teardown is still waiting finds its slots still set and can post `stopped` a second time; with atomic steps that teardown has already emptied the pipeline, and the second one is a no-op. A start waiting for the login is parked in `waiting` and continues as a separate `Resume` step.
- Time: the worker's waits (150–800 ms) are dropped, and `Date.now()` is the `now` parameter. The FIFO name is modelled as coming from that reading, so two starts in the same millisecond would share a name. The supervisor's back-off and the 300 ms exit delay appear as effects, because their order matters.
- The transcoder and FIFO plumbing (the ffmpeg argument list, `mkfifo`, `execSync`, unlinking) and the Discord and self-bot clients: they are effects in a trace, and their results are parameters (`Fault`, `Response`, the new message's id). Only a thrown `joinVoice`, FIFO creation or `prepareStream` is modelled as a failure.
- The worker's console and stdout filter (src/worker/stream-worker.js:24-53) is output plumbing.
- The playlist loader's console messages are not modelled.
- `fetch`: the download is the `Response` input. An unset url fails with the message Node gives.
- `localeCompare` is modelled as plain code-point lexicographic order.
- `toLowerCase` and `toUpperCase` are modelled on ASCII letters only. The core case-maps only commands, attribute keys (ASCII by their pattern) and category names inside the vod, France and favourite-prefix tests; names are always displayed as they are. The tests compare with ASCII text, and no non-ASCII letter upper-cases to one of its letters.
- `Number()` follows the decimal grammar of section 7.1.4.1 of ECMAScript 2024 (white space, sign, digits, fraction, exponent, `Infinity`) and hexadecimal, octal and binary literals, with finite values taken exactly. Rounding to binary64 is not modelled.
- The regular-expression scan of the attributes: `__proto__` is skipped, so a plain object's prototype setter is modelled as a key that is never stored.
- The `env` and `onEvent` passing of `launchWorker` and the process environment are not modelled; the worker's three settings are one `configured` flag.
- Exit events are not tied to a worker's identity. An `exit` from a worker that was already replaced clears the current reference in the source too, and the model keeps that.
- `workerReady` is only ever set false by the source, and the model keeps that flag as-is.
- The worker's seven pipeline variables are one field `pipe`, updated slot by slot.
- `startApp` is split into the `App.App` constructor (the wiring) and `Boot` (the load, prompt and greeting).
- The Discord front end's `messageCreate` handler (prefix, author, guild and role checks; replies) and `makeSend`, which routes text through `chunk2000`, are not modelled. Only the chunks themselves are.
- The `ready` handler of the Discord client and the `FakeReadline` are not modelled; in the model the renderer's text channel is the `textChannel` flag.
- src/bot/index.js and src/index.js are not part of this model; they only wire the processes together.
- App.App.constructor: gives the state machine the configured playlist url, so the composed model runs the corrected reload of the first Findings row. The source builds the state machine without a url.
- Selection.StateMachine.StartSelection: reloads from `playlistUrl`, which the application sets to the configured url (the corrected behaviour); with `playlistUrl == None` it is the source as written.
- WorkerControl.RestartWorkerAndStart: assumes the new worker posts `ready`. A worker that exits first (missing settings, a failed login) leaves the source's `await readyPromise` pending forever, so no start is sent; the model logs `AwaitReady` and then the start.
- Selection.StateMachine.EnsureWorker: assumes the launched worker posts `ready`; when it never does, the source's handler stays suspended at the await, and nothing after it runs.
- Selection.StateMachine.HandleIdle: `on` without a worker is stated as if `ready` arrives; otherwise the source never reaches `startSelection`.
- Selection.StateMachine.HandleChooseChannel: a start or switch is stated as if `ready` arrives; otherwise the source never sends the start and never returns to idle.
- Client.Chunk2000: takes a string. The `String(s ?? "")` conversion of other values is not modelled. The messages are code-unit sequences, and a cut may leave a lone surrogate, as in the source.
- Selection.StateMachine.HandleCommand: its own contract states the normalisation, the idle no-op and the cancel. The selection and launch outcomes are stated by `HandleIdle`, `HandleChooseCategory` and `HandleChooseChannel`, which it calls on the normalised command.
- App.App.OnLine: for delegated lines outside the idle no-op, the outcome is the one `Selection.StateMachine.HandleCommand` states, and it is not restated.
- Selection.StateMachine.HandleChooseCategory and Selection.StateMachine.HandleChooseChannel use the corrected number check `Pick` (see Findings). They do not model what the source does with a fractional index.

## Findings

| source | as written | input that shows it | evidently intended | confidence | as-written member | corrected member |
|---|---|---|---|---|---|---|
| src/bot/stateMachine.js:33 | `startSelection` calls `ensurePlaylistLoaded()` without the playlist url, so the reload fetches `undefined`, which always fails | start with the download failing (cache unloaded), then `on` once the server is back: the selection still says the playlist is unavailable | reload from the configured `M3U_URL`, as `loadPlaylistOnce(M3U_URL)` does at start | not executed | Selection.SelectionReadyAsWritten, Selection.AsWrittenNeverRecovers | Selection.SelectionReady, Selection.CorrectedSelectionRecovers |
| src/bot/stateMachine.js:77-78, 102-103 | the menu index is `Number(cmd) - 1` checked only for NaN and range, so fractional numbers pass | "1.5" with two entries: index 0.5 passes, `sorted[0.5]` is `undefined` and a channel pick reads `.title` of `undefined` | accept only whole numbers 1..n and pick entry n - 1 | not executed | Selection.IndexCheckAsWritten, Selection.FractionPassesCheck | Selection.Pick, Selection.PickIsWholeAcceptance, Selection.PickDisplayed, Selection.EmbedNumberSelects |
