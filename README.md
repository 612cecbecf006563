# eclipse-wakatime core, modelled in Dafny

The WakaTime plugin for Eclipse watches the editor and reports *heartbeats* to the `wakatime-cli`
program. A heartbeat is a file (or database entity), the time, whether it was a save, the project,
and the cursor's line and column. This project models the plugin's core:

- **`debouncer.dfy`: module `Debouncing`.** This is `Debouncer.java`, the per-key debouncer built on a
  single-threaded scheduled executor.
  - The executor is a pure state machine, `Sched`. It holds the clock, the scheduled tasks with their
    cancelled flag and phase, the `delayedMap` from key to task, and whether it has been shut down.
  - Every operation has a function (`AfterDebounce`, `AfterStart`, `AfterFinish`, `AfterShutdown`,
    `AfterTick`). Runs of steps are modelled as `Execute`.
  - The class `Debouncer<R>` holds these fields. Each of its methods is proved to move its state by
    the matching function.
- **`heartbeat.dfy`: module `Heartbeats`.** This is `Heartbeat.java`.
  - The throttle is `canSend`. The constructor, with `setProject` / `setDefaultProject`,
    `setFileMetadata` and `fixFilePath`, is modelled as methods that return the new value. The
    value of the plugin's `lastProject` afterwards is returned too.
  - `getProjectFolder` and `toCliCommands` are the other two operations.
- **`cli_command.dfy`: module `CliCommand`.** This is the command line `toCliCommands` builds. It is
  modelled as an encoder from an argument record, plus a decoder for the list it produces. The decoder
  is the partner that shows the list carries exactly the heartbeat's fields.
- **`wakatime.dfy`: module `WakaTimePlugin`.** This is `WakaTime.java`.
  - The DEBUG setting and the READY decision of `checkCLI` are modelled.
  - So are `processHeartbeat` and the READY gate of `sendHeartbeat`.
  - The other operations are the build watchers (`startWatchingBuild`, `startWatchingAutoBuild`,
    `stopWatchingBuild`, `stopWatchingAutoBuild` and their periodic task), and the auto-build
    listener's two debounced runnables.
  - The class `WakaTime` holds the plugin's fields and the debouncer. Every method is tied to a
    function on a snapshot of those fields.
- **`menu_handler.dfy`: module `ApiKeyConfig`.** These are `getApiKey` and `setApiKey` of
  `MenuHandler.java`. They read and rewrite the `api_key` line of `~/.wakatime.cfg`. The file's
  content is a parameter: `None` when the file cannot be opened.
- **`java_strings.dfy` and `wrappers.dfy`.** These hold the Java library behaviour the core relies on:
  - `String.trim`, which strips characters up to U+0020;
  - `String.split` on one character, which drops trailing empty pieces;
  - `Integer.toString`;
  - 32-bit `int` wrap-around;
  - an `Option` type.

The clock, the workspace's projects, the editor, the environment variable and the configuration
file's text are all parameters. A launched `wakatime-cli` process is recorded as its argument list,
appended to the `launched` field.

## Model

Source paths are relative to the repository root.

| member | source | states |
|---|---|---|
| Debouncing.Init | com.wakatime.eclipse.plugin/src/com/wakatime/eclipse/plugin/Debouncer.java:9-11 | a new debouncer has no task, an empty map, a running executor and the clock at 0 |
| Debouncing.CancelFuture | com.wakatime.eclipse.plugin/src/com/wakatime/eclipse/plugin/Debouncer.java:24-26 | cancel(true) on the previous future marks it cancelled unless it has already completed; every other task is unchanged |
| Debouncing.AfterDebounce | com.wakatime.eclipse.plugin/src/com/wakatime/eclipse/plugin/Debouncer.java:13-27 | after shutdown nothing changes; otherwise a new task is appended (due at now + delay, live), the key maps to it, whatever task the key mapped before is cancelled, and every other task and key is unchanged |
| Debouncing.AfterStart | com.wakatime.eclipse.plugin/src/com/wakatime/eclipse/plugin/Debouncer.java:10 | the single worker runs one task at a time: the started task becomes Running with its other fields kept, and is the only running one; every other task, the map, the clock and the shutdown flag are unchanged |
| Debouncing.AfterFinish | com.wakatime.eclipse.plugin/src/com/wakatime/eclipse/plugin/Debouncer.java:17-21 | when the runnable returns, its task completes with its other fields kept and the finally block removes its key from the map, whichever task that entry names; other keys, other tasks, the clock and the shutdown flag are unchanged |
| Debouncing.AfterShutdown | com.wakatime.eclipse.plugin/src/com/wakatime/eclipse/plugin/Debouncer.java:29-31 | shutdownNow terminates the executor and leaves every task, the map and the clock as they were |
| Debouncing.AfterTick | com.wakatime.eclipse.plugin/src/com/wakatime/eclipse/plugin/Debouncer.java:22-23 | time moves forward by the given amount; every task, the map and the shutdown flag are unchanged |
| Debouncing.ExecuteIsLater | com.wakatime.eclipse.plugin/src/com/wakatime/eclipse/plugin/Debouncer.java:13-31 | over any run of steps, tasks only move forward (waiting, running, completed), a cancelled task stays cancelled, and termination is permanent |
| Debouncing.CancelledNeverRuns | com.wakatime.eclipse.plugin/src/com/wakatime/eclipse/plugin/Debouncer.java:24-26 | a task cancelled by a later debounce before it started never starts, whatever happens next |
| Debouncing.ShutdownIsFinal | com.wakatime.eclipse.plugin/src/com/wakatime/eclipse/plugin/Debouncer.java:29-31 | after shutdown no new task is accepted and no waiting task ever starts |
| Debouncing.StartsAtMostOnce | com.wakatime.eclipse.plugin/src/com/wakatime/eclipse/plugin/Debouncer.java:14-23 | a task that has started can never be started again |
| Debouncing.Coalesce | com.wakatime.eclipse.plugin/src/com/wakatime/eclipse/plugin/Debouncer.java:13-27 | a burst of debounces under one key leaves exactly the last runnable live and mapped; every earlier task of the burst is cancelled, and of the older tasks only the one the key mapped is cancelled |
| Debouncing.BurstRunsOnlyLast | com.wakatime.eclipse.plugin/src/com/wakatime/eclipse/plugin/Debouncer.java:13-27 | after such a burst, only the last runnable can start once its delay has elapsed, and no other task of the burst ever starts |
| Debouncing.TrackedMeansOneLivePerKey | com.wakatime.eclipse.plugin/src/com/wakatime/eclipse/plugin/Debouncer.java:11 | while every live task is the one its key maps to, no key has two live tasks |
| Debouncing.TrackedPreserved | com.wakatime.eclipse.plugin/src/com/wakatime/eclipse/plugin/Debouncer.java:13-31 | every step keeps that invariant, except a finish that happens after its key was debounced again while that task ran |
| Debouncing.FinishForgetsNewerTask | com.wakatime.eclipse.plugin/src/com/wakatime/eclipse/plugin/Debouncer.java:20 | such a finish removes the entry of a newer live task of the same key, which then escapes cancellation |
| Debouncing.LostTrackScenario | com.wakatime.eclipse.plugin/src/com/wakatime/eclipse/plugin/Debouncer.java:13-27 | concrete run (debounce, start, debounce, finish, debounce) that ends with two live tasks under one key |
| Debouncing.Debouncer.constructor | com.wakatime.eclipse.plugin/src/com/wakatime/eclipse/plugin/Debouncer.java:9-11 | the fields start in the initial state |
| Debouncing.Debouncer.Debounce | com.wakatime.eclipse.plugin/src/com/wakatime/eclipse/plugin/Debouncer.java:13-27 | the fields move by AfterDebounce; the call is accepted exactly when the executor is not shut down |
| Debouncing.Debouncer.StartTask | com.wakatime.eclipse.plugin/src/com/wakatime/eclipse/plugin/Debouncer.java:14-19 | the fields move by AfterStart |
| Debouncing.Debouncer.FinishTask | com.wakatime.eclipse.plugin/src/com/wakatime/eclipse/plugin/Debouncer.java:17-21 | the fields move by AfterFinish |
| Debouncing.Debouncer.Shutdown | com.wakatime.eclipse.plugin/src/com/wakatime/eclipse/plugin/Debouncer.java:29-31 | the fields move by AfterShutdown |
| Debouncing.Debouncer.Tick | com.wakatime.eclipse.plugin/src/com/wakatime/eclipse/plugin/Debouncer.java:22-23 | the fields move by AfterTick |
| Heartbeats.CanSend | com.wakatime.eclipse.plugin/src/com/wakatime/eclipse/plugin/Heartbeat.java:93-99 | a write is always sent; any other heartbeat is sent exactly when the window since the last sent time has passed or the entity differs from the last file |
| Heartbeats.ListenerThrottle | com.wakatime.eclipse.plugin/src/com/wakatime/eclipse/plugin/CustomCaretListener.java:43 | the listeners' inline test: a different file, or more than the window since the last time; ListenerThrottleIsCanSend ties it to canSend |
| Heartbeats.ListenerThrottleIsCanSend | com.wakatime.eclipse.plugin/src/com/wakatime/eclipse/plugin/CustomCaretListener.java:42-47 | the listeners' inline throttle test agrees with canSend for a heartbeat that is not a write |
| Heartbeats.FixFilePath | com.wakatime.eclipse.plugin/src/com/wakatime/eclipse/plugin/Heartbeat.java:224-226 | a slash before a drive letter (`/C:/`) is dropped; any other path is unchanged; the result never has such a slash |
| Heartbeats.FixFilePathIdempotent | com.wakatime.eclipse.plugin/src/com/wakatime/eclipse/plugin/Heartbeat.java:224-226 | fixing a path twice is the same as fixing it once |
| Heartbeats.SetFileMetadata | com.wakatime.eclipse.plugin/src/com/wakatime/eclipse/plugin/Heartbeat.java:51-91 | the line count when the document is known; line number and cursor position only together, only when the line, offset and column are valid, both 1-based with Java int wrap-around; nothing else changes |
| Heartbeats.DefaultProject | com.wakatime.eclipse.plugin/src/com/wakatime/eclipse/plugin/Heartbeat.java:193-213 | the plugin's last project when there is one, else the first open project of the workspace, else none (and then no project is open) |
| Heartbeats.SetProject | com.wakatime.eclipse.plugin/src/com/wakatime/eclipse/plugin/Heartbeat.java:149-191 | the editor input's project, else its IProject adapter, else its IResource adapter's project, each only when named and then remembered as lastProject; otherwise the default choice, with lastProject untouched |
| Heartbeats.NewHeartbeat | com.wakatime.eclipse.plugin/src/com/wakatime/eclipse/plugin/Heartbeat.java:35-49 | timestamp in whole seconds, type "file", not building, unsaved exactly for a database entity, project chosen as setProject does; a file entity gets its path fixed and its metadata set |
| Heartbeats.ProjectFolder | com.wakatime.eclipse.plugin/src/com/wakatime/eclipse/plugin/Heartbeat.java:215-222 | a folder is reported exactly when the heartbeat has a project, and then it is that project's location (none when the location is unknown) |
| Heartbeats.PluginName | com.wakatime.eclipse.plugin/src/com/wakatime/eclipse/plugin/Heartbeat.java:107 | the `--plugin` value: IDE name, "/", Eclipse version, " eclipse-wakatime/", plugin version; ToCliCommands proves it is the fifth argument |
| Heartbeats.ToCliCommands | com.wakatime.eclipse.plugin/src/com/wakatime/eclipse/plugin/Heartbeat.java:101-147 | the list starts with the CLI, `--entity`, the entity, `--plugin`, and the plugin string; it decodes back to exactly the heartbeat's fields; with DEBUG, `--verbose` is last |
| CliCommand.Encode | com.wakatime.eclipse.plugin/src/com/wakatime/eclipse/plugin/Heartbeat.java:102-107 | every encoded list starts with the fixed five-argument prefix |
| CliCommand.AppendFlag | com.wakatime.eclipse.plugin/src/com/wakatime/eclipse/plugin/Heartbeat.java:108-141 | one flag step appends the flag (and its value, when it takes one) only when it is present, leaving the rest of the encoding to come |
| CliCommand.DecodeEncode | com.wakatime.eclipse.plugin/src/com/wakatime/eclipse/plugin/Heartbeat.java:101-147 | every argument list the encoder builds decodes back to the record it was built from |
| CliCommand.VerboseIsLast | com.wakatime.eclipse.plugin/src/com/wakatime/eclipse/plugin/Heartbeat.java:142-145 | when verbose is requested, `--verbose` is the last argument |
| WakaTimePlugin.InitialState | com.wakatime.eclipse.plugin/src/com/wakatime/eclipse/plugin/WakaTime.java:81-84 | the plugin starts not READY, not debugging, with lastTime 0, no last file or project, no watcher, both scheduler fields empty and nothing launched |
| WakaTimePlugin.DebugSetting | com.wakatime.eclipse.plugin/src/com/wakatime/eclipse/plugin/WakaTime.java:136 | DEBUG is on when the setting is present and trims to "true"; DebugOnWhenPadded and DebugOnOnlyWhenPadded prove both directions of what that means for the raw value |
| WakaTimePlugin.DebugOnWhenPadded | com.wakatime.eclipse.plugin/src/com/wakatime/eclipse/plugin/WakaTime.java:136-137 | "true" surrounded by any characters up to U+0020 turns DEBUG on |
| WakaTimePlugin.DebugOnOnlyWhenPadded | com.wakatime.eclipse.plugin/src/com/wakatime/eclipse/plugin/WakaTime.java:136-137 | DEBUG is on only for such a value: "true" with nothing but padding around it |
| WakaTimePlugin.NonBlank | com.wakatime.eclipse.plugin/src/com/wakatime/eclipse/plugin/WakaTime.java:207 | $WAKATIME_CLI_LOCATION counts as set when it exists and does not trim to empty; ReadyAfterCheck uses it as the one case that leaves READY unchanged |
| WakaTimePlugin.ReadyAfterCheck | com.wakatime.eclipse.plugin/src/com/wakatime/eclipse/plugin/WakaTime.java:200-224 | READY becomes true unless the CLI is installed, old, and $WAKATIME_CLI_LOCATION is set and not blank; a READY plugin stays READY |
| WakaTimePlugin.AfterSend | com.wakatime.eclipse.plugin/src/com/wakatime/eclipse/plugin/WakaTime.java:276-306 | not READY: nothing happens; READY: exactly one process is launched, whose argument list decodes to the heartbeat's fields, and nothing else changes |
| WakaTimePlugin.AfterProcess | com.wakatime.eclipse.plugin/src/com/wakatime/eclipse/plugin/WakaTime.java:265-274 | a null or throttled heartbeat changes nothing; an accepted one is sent (when READY) and becomes lastFile, lastTime and lastIsBuilding; watchers and build flags are untouched |
| WakaTimePlugin.RepeatIsThrottled | com.wakatime.eclipse.plugin/src/com/wakatime/eclipse/plugin/WakaTime.java:265-274 | processing the same heartbeat (not a write) twice in a row sends at most once: the second call changes nothing |
| WakaTimePlugin.AfterStartWatching | com.wakatime.eclipse.plugin/src/com/wakatime/eclipse/plugin/WakaTime.java:382-418 | the executor the field held is shut down and a new live one takes its place and the field, so exactly one watcher of the kind is live and every live watcher is still the one its field holds |
| WakaTimePlugin.StartWatchingChangesOnlyKind | com.wakatime.eclipse.plugin/src/com/wakatime/eclipse/plugin/WakaTime.java:382-418 | only the executor the field held is shut down; every other executor, the other kind's field and every other plugin field keep their values |
| WakaTimePlugin.OneLiveWatcherPerKind | com.wakatime.eclipse.plugin/src/com/wakatime/eclipse/plugin/WakaTime.java:382-418 | while every live watcher is the one its field holds, no two live watchers have the same kind |
| WakaTimePlugin.AfterStopWatching | com.wakatime.eclipse.plugin/src/com/wakatime/eclipse/plugin/WakaTime.java:420-434 | only the executor the kind's field holds is shut down: afterwards no watcher of the kind is live, every other watcher is unchanged, and so is every other field |
| WakaTimePlugin.AfterWatcherFires | com.wakatime.eclipse.plugin/src/com/wakatime/eclipse/plugin/WakaTime.java:391-398 | the periodic task processes its heartbeat, so every field other than the watchers is as processHeartbeat leaves it; once the build it watches is over, exactly that watcher is shut down and none of its kind remains live; otherwise the watchers are unchanged |
| WakaTimePlugin.AfterAction | com.wakatime.eclipse.plugin/src/com/wakatime/eclipse/plugin/WakaTime.java:234-256 | every field other than the auto-build watchers is what setting isAutoBuilding and then processHeartbeat give; the start action shuts down the old auto-build watcher and makes a new one the only live one of its kind; the done action shuts down the one the field holds and leaves the field as it was; other watchers are unchanged |
| WakaTimePlugin.QuickBuildRunsOnlyDone | com.wakatime.eclipse.plugin/src/com/wakatime/eclipse/plugin/WakaTime.java:226-263 | an auto-build that ends within BUILD_THRESHOLD: its start action was not yet due, is cancelled by the done event's debounce and never runs; the done action is the live mapped task |
| WakaTimePlugin.WakaTime.constructor | com.wakatime.eclipse.plugin/src/com/wakatime/eclipse/plugin/WakaTime.java:81-84 | the fields start in the initial state and the debouncer is new and empty |
| WakaTimePlugin.WakaTime.LoadDebugSetting | com.wakatime.eclipse.plugin/src/com/wakatime/eclipse/plugin/WakaTime.java:136-137 | only DEBUG changes, to the setting's value |
| WakaTimePlugin.WakaTime.CheckCli | com.wakatime.eclipse.plugin/src/com/wakatime/eclipse/plugin/WakaTime.java:200-224 | only READY changes, as ReadyAfterCheck decides |
| WakaTimePlugin.WakaTime.NewHeartbeatFor | com.wakatime.eclipse.plugin/src/com/wakatime/eclipse/plugin/Heartbeat.java:35-49 | only lastProject changes, as setProject decides; the heartbeat is of type "file", not building, with the clock's seconds and the given flags, no alternate language; a database entity keeps its name and has no metadata, a file gets its path fixed and its metadata set from the editor |
| WakaTimePlugin.WakaTime.SendHeartbeat | com.wakatime.eclipse.plugin/src/com/wakatime/eclipse/plugin/WakaTime.java:276-306 | the fields move by AfterSend |
| WakaTimePlugin.WakaTime.ProcessHeartbeat | com.wakatime.eclipse.plugin/src/com/wakatime/eclipse/plugin/WakaTime.java:265-274 | the fields move by AfterProcess |
| WakaTimePlugin.WakaTime.StartWatching | com.wakatime.eclipse.plugin/src/com/wakatime/eclipse/plugin/WakaTime.java:382-418 | the fields move by AfterStartWatching |
| WakaTimePlugin.WakaTime.StopWatching | com.wakatime.eclipse.plugin/src/com/wakatime/eclipse/plugin/WakaTime.java:420-434 | the fields move by AfterStopWatching |
| WakaTimePlugin.WakaTime.WatcherFires | com.wakatime.eclipse.plugin/src/com/wakatime/eclipse/plugin/WakaTime.java:410-417 | the fields move by AfterWatcherFires |
| WakaTimePlugin.WakaTime.OnAutoBuildAboutToRun | com.wakatime.eclipse.plugin/src/com/wakatime/eclipse/plugin/WakaTime.java:230-243 | the start action is debounced under "auto-build" for BUILD_THRESHOLD (3 s) |
| WakaTimePlugin.WakaTime.OnAutoBuildDone | com.wakatime.eclipse.plugin/src/com/wakatime/eclipse/plugin/WakaTime.java:246-258 | the done action is debounced under "auto-build" for 1 ms |
| WakaTimePlugin.WakaTime.RunDebouncedTask | com.wakatime.eclipse.plugin/src/com/wakatime/eclipse/plugin/WakaTime.java:235-255 | the debouncer starts that task, and the plugin's fields move by AfterAction on its runnable |
| WakaTimePlugin.WakaTime.FinishDebouncedTask | com.wakatime.eclipse.plugin/src/com/wakatime/eclipse/plugin/Debouncer.java:17-21 | the debouncer moves by AfterFinish |
| WakaTimePlugin.WakaTime.Tick | com.wakatime.eclipse.plugin/src/com/wakatime/eclipse/plugin/Debouncer.java:22-23 | the debouncer moves by AfterTick |
| WakaTimePlugin.WakaTime.Stop | com.wakatime.eclipse.plugin/src/com/wakatime/eclipse/plugin/WakaTime.java:187 | the debouncer moves by AfterShutdown |
| ApiKeyConfig.ReadLines | com.wakatime.eclipse.plugin/src/com/wakatime/eclipse/plugin/MenuHandler.java:66-72 | no line readLine returns holds a line terminator |
| ApiKeyConfig.ReadUnlines | com.wakatime.eclipse.plugin/src/com/wakatime/eclipse/plugin/MenuHandler.java:99-108 | lines written each followed by "\n" are read back as exactly those lines |
| ApiKeyConfig.LastMatchExists | com.wakatime.eclipse.plugin/src/com/wakatime/eclipse/plugin/MenuHandler.java:66-73 | the scan finds a line exactly when some line passes the test |
| ApiKeyConfig.LastMatchWins | com.wakatime.eclipse.plugin/src/com/wakatime/eclipse/plugin/MenuHandler.java:66-73 | the scan keeps the last line that passes the test |
| ApiKeyConfig.IsApiKeyLine | com.wakatime.eclipse.plugin/src/com/wakatime/eclipse/plugin/MenuHandler.java:68-69 | the test both operations apply: split on "=" yields exactly two pieces and the left trims to `api_key`; NoEqualsNoEntry, ApiKeyLineReads and DebugLineNoEntry say which lines pass |
| ApiKeyConfig.KeyOf | com.wakatime.eclipse.plugin/src/com/wakatime/eclipse/plugin/MenuHandler.java:70 | the key an api_key line holds contains no "=" and is already trimmed |
| ApiKeyConfig.GetApiKey | com.wakatime.eclipse.plugin/src/com/wakatime/eclipse/plugin/MenuHandler.java:55-85 | the key is the trimmed right side of the last `api_key = ...` line with exactly two sides; "" when there is none or the file cannot be opened |
| ApiKeyConfig.NoEntryReadsEmpty | com.wakatime.eclipse.plugin/src/com/wakatime/eclipse/plugin/MenuHandler.java:56 | a file without an api_key line reads as the empty key |
| ApiKeyConfig.SetApiKey | com.wakatime.eclipse.plugin/src/com/wakatime/eclipse/plugin/MenuHandler.java:87-138 | the written text is the file's lines with every api_key line replaced, or the three-line default file when no api_key line was found |
| ApiKeyConfig.ApiKeyLineReads | com.wakatime.eclipse.plugin/src/com/wakatime/eclipse/plugin/MenuHandler.java:104 | the line written for a key without "=" is an api_key line holding the trimmed key |
| ApiKeyConfig.DefaultConfigLines | com.wakatime.eclipse.plugin/src/com/wakatime/eclipse/plugin/MenuHandler.java:120-125 | the default file reads back as exactly its three lines: `[settings]`, the api_key line and `debug = false` |
| ApiKeyConfig.SettingLineSplits | com.wakatime.eclipse.plugin/src/com/wakatime/eclipse/plugin/MenuHandler.java:102-104 | a line `name = value` with no "=" in either side splits into the two padded sides, and its left side trims back to the name |
| ApiKeyConfig.DebugLineNoEntry | com.wakatime.eclipse.plugin/src/com/wakatime/eclipse/plugin/MenuHandler.java:124 | the default file's `debug = false` line is not an api_key line |
| ApiKeyConfig.DefaultEntries | com.wakatime.eclipse.plugin/src/com/wakatime/eclipse/plugin/MenuHandler.java:120-125 | the default file has an api_key line, and every api_key line in it is the one for the new key |
| ApiKeyConfig.SetThenGet | com.wakatime.eclipse.plugin/src/com/wakatime/eclipse/plugin/MenuHandler.java:55-138 | for a key without "=" or line breaks, setting it and then reading the file gives back the trimmed key |
| ApiKeyConfig.SetKeepsOtherLines | com.wakatime.eclipse.plugin/src/com/wakatime/eclipse/plugin/MenuHandler.java:99-108 | a file with an api_key line keeps its line count and every other line verbatim and in place; each api_key line becomes the new one |
| ApiKeyConfig.SetIdempotent | com.wakatime.eclipse.plugin/src/com/wakatime/eclipse/plugin/MenuHandler.java:87-138 | setting the same key twice writes the same file as setting it once |
| JavaStrings.Trim | com.wakatime.eclipse.plugin/src/com/wakatime/eclipse/plugin/MenuHandler.java:69-70 | the result has no leading or trailing character up to U+0020, is no longer than the input, and is the input itself when that has none |
| JavaStrings.TrimAfterBlank | com.wakatime.eclipse.plugin/src/com/wakatime/eclipse/plugin/MenuHandler.java:70 | trimming ignores a leading blank, so the value after `= ` trims to the key itself |
| JavaStrings.TrimIdempotent | com.wakatime.eclipse.plugin/src/com/wakatime/eclipse/plugin/MenuHandler.java:69-70 | trimming twice is trimming once |
| JavaStrings.Split | com.wakatime.eclipse.plugin/src/com/wakatime/eclipse/plugin/MenuHandler.java:68 | a string without the separator is its own single piece; otherwise the result is the pieces between separators, leading empty pieces kept, with only empty pieces dropped from the end, so a non-empty result never ends in an empty piece; no piece holds the separator |
| JavaStrings.SplitPair | com.wakatime.eclipse.plugin/src/com/wakatime/eclipse/plugin/MenuHandler.java:68 | a line with one separator between two pieces (the second not empty) splits into exactly those two pieces |
| JavaStrings.JoinPieces | com.wakatime.eclipse.plugin/src/com/wakatime/eclipse/plugin/MenuHandler.java:68 | the pieces between separators lose nothing: joined with the separator again they give back the line |
| JavaStrings.NatToStringValue | com.wakatime.eclipse.plugin/src/com/wakatime/eclipse/plugin/Heartbeat.java:130-141 | the decimal text of a number reads back as that number |
| JavaStrings.IntToString | com.wakatime.eclipse.plugin/src/com/wakatime/eclipse/plugin/Heartbeat.java:130-141 | a minus sign exactly for negative numbers, then decimal digits that read back as the number's absolute value, with no leading zero except for 0 itself |
| JavaStrings.Wrap32 | com.wakatime.eclipse.plugin/src/com/wakatime/eclipse/plugin/Heartbeat.java:82-86 | Java int arithmetic: the result is the value reduced into the 32-bit range, congruent modulo 2^32 |

## Left out

- The program's I/O is replaced by parameters and recorded values:
  - Reading `~/.wakatime.cfg` and `System.getenv` are parameters.
  - `Runtime.exec` of `wakatime-cli` is recorded as its argument list, and the thread that runs it
    is not modelled.
  - The Logger output and the `PrintWriter`, including a failure to open it, are left out. They
    change no modelled state.
  - An IOException from `readLine` partway through the file is left out: the model reads the whole
    file. In getApiKey such an error returns the key of the last matching line among those read
    before it. In setApiKey it ends the loop with the text built so far. If an api_key line was
    already seen, only that partial text is written back and the rest of the file is lost. If not,
    the three-line default file replaces it.
- Threads and real time are reduced to steps:
  - The executors' threads and real time become the explicit steps start, finish and tick, which
    interleave with debounce, shutdown and the plugin's calls in any order.
  - Interrupting a running task by `cancel(true)` is modelled only as its cancelled flag.
  - Debouncing.AfterDebounce: a debounce is one atomic step. In the source, `put(key, schedule(...))`
    schedules the wrapper before the map entry is written. With the done action's 1 ms delay, the
    wrapper can run and its `finally` can remove the key before the `put`, which then leaves a
    completed future in the map. `Wf` excludes that state, so the model does not capture it.
  - Debouncing.CanStart: the order in which due tasks start is not constrained by their due times.
    The single-threaded scheduled executor starts them earliest-due first; the model lets any due,
    live task start while the worker is idle. The safety lemmas hold for every such order, so they
    hold for the executor's.
- Debouncing.AfterShutdown: the threads `shutdownNow` interrupts are not modelled. Waiting tasks stay
  in the list, but no step can start them again.
- WakaTimePlugin.AfterWatcherFires: the 90-second fixed delay of the watchers' periodic tasks is not
  modelled. A firing is a step that any live watcher may take at any time.
- WakaTimePlugin.QuickBuildRunsOnlyDone: it covers the case where the only thing between the two
  auto-build events is the passage of time. Other interleavings are covered by the general debouncer
  lemmas.
- RunDebouncedTask applies a runnable's effect in one step, when its task starts. Calls made
  concurrently while it runs are not interleaved into it.
- getHeartbeat is not part of this model. Finding the active editor through the workbench (and the
  database-editor special case) is left out; its heartbeats are inputs to the operations.
  - The 5-argument Heartbeat constructor calls in `WakaTime.java` do not match the 4-argument
    constructor of `Heartbeat.java`. The model follows `Heartbeat.java`, where a new heartbeat is
    never building.
- CanSend: `lastTime` and `FREQUENCY` are BigDecimal in `WakaTime.java`. The model uses integer
  seconds, which is what `heartbeat.timestamp` assigns to `lastTime`.
  - The window is a parameter of the pure functions. The class fixes it at FREQUENCY * 60 = 7200
    seconds.
  - `getCurrentTimestamp` with its fractional seconds is left out.
- Heartbeats.SetFileMetadata: an `Editor` has either a selection with a start line and an offset, or
  none. A selection that is not an `ITextSelection`, where the cast throws ClassCastException, cannot
  be represented. The BadLocationException of `getLineOffset` is modelled: the cursor and line stay
  unset.
- Heartbeats.NewHeartbeat: it requires an editor unless the entity is a database. For a file the
  source dereferences the editor and would throw, so that case is not modelled.
  - Null entries in the workspace's project array are left out.
- WakaTimePlugin.ReadyAfterCheck: whether `installCLI` actually succeeds, and `createSymlink`, are not
  modelled. READY is set regardless, as in the code. The existence check on the file at
  $WAKATIME_CLI_LOCATION only decides a log line.
- The rest of `WakaTime.java` is left out, because it is wiring and logging. This covers
  earlyStartup's listener registration (beyond the DEBUG read), promptForApiKey's dialog, the editor,
  caret, mouse, document and execution listeners, Dependencies, Activator and ConfigFile.
- ApiKeyConfig.SetThenGet, ApiKeyConfig.SetIdempotent: these require a key with no "=" and no line
  break, because no other key survives the round trip. A key with an inner "=" is written but then
  fails the two-piece test when read. A key whose only "=" is at its end reads back cut at that "=",
  since split drops the trailing empty piece. A key with a line break splits the written line.
- Java `String.split` with a regex is modelled for the one literal separator the code uses, and
  `trim` for its ASCII rule.
