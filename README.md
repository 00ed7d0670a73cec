# telegram_bot_host: the bot supervisor, modelled in Dafny

The host runs users' Telegram bots as child processes. Its core is the
`BotManager` class. It keeps four maps:

- `bots`: each bot's configuration;
- `botProcesses`: the bots that are running;
- `botLogs` and `botErrors`: each bot's bounded log and error histories.

Beside the maps it keeps one directory per bot under the bots directory,
holding the bot's configuration, its entry file and a `bot.pid` file.

Its operations are:

- creating, cloning, updating and deleting bots;
- starting a bot: checks, stale-process reaping, dependency installation, spawn and registration;
- stopping a bot: SIGTERM, a grace period, and SIGKILL only if the bot is still registered;
- the child's `close` and `error` handlers;
- stopping all bots;
- the sweep of orphaned PID files when the host starts.

The log routes of the HTTP API read and clear the histories:

- `GET /:botId` filters a bot's log by level and keeps the last `limit` entries.
- `GET /:botId/errors` keeps the last `limit` errors.
- `DELETE /:botId` clears the logs, the errors or both.
- The system log readers turn a log file into its last 100 or 50 non-blank lines.

## How the model is built

The host the supervisor acts on is the class `Os.Host`. It holds:

- the set of live processes;
- how each process answers SIGTERM;
- the exit status a dead process leaves;
- the bots' directories and their PID files;
- a ghost record of every `process.kill` call.

`Manager.BotManager` is a class with the four maps as fields. It also has a
ghost sequence of the socket.io emits, and a reference to the host.

Every method of the two classes ensures `Valid()`, and that the new state is a
pure function of the old one:

- `Host.State()` gives a `Machine`;
- `BotManager.State()` gives a `World`;
- each method ensures `State() == AfterX(old(State()), …)`.

The `After…` functions live in modules `Supervisor`, `Starting`,
`Stopping`, `Lifecycle` and `Shutdown`. Each follows the method's own call
structure. What each operation does is proved as lemmas about these
functions. Examples are who is registered afterwards, what is appended to
which history, which signals are sent and which PID files remain.

The world outside becomes parameters:

- the new bot's UUID and the clock, one timestamp per call (`now`);
- the parent's environment;
- what the installer prints and how it ends (`InstallRun`);
- what `spawn` does (`SpawnOutcome`).

The sweeps run in an order that is also an input. `stopAllBots` uses the
registry's insertion order. `cleanupOrphanedProcesses` uses the directory
listing's order. The lemmas about the sweeps hold for every order.

Other modules:

- `JsStrings` models `trim` and `split`/`join`.
- `JsNumbers` models `parseInt` with its radix sniffing, and the text `String(pid)` produces.
- `Buffers` models the bounded histories.
- `BotConfigs` models the configurations, `Object.assign`, the file extension and interpreter tables, and the files of a bot directory.
- `ChildEnvironment` models the child's environment, with a method that builds it key by key as the `forEach` does.
- `Provisioning` models `ensureDependencies`.
- `LogRoutes` models the route handlers.

Behaviour of the code worth knowing when reading the model:

- Histories are capped at 1000 log entries and 100 error entries.
- `stopBot` without a registered child removes the PID file only when its SIGTERM was delivered. A marker naming a dead process stays.
- Python dependencies are installed on every start when `requirements.txt` exists. Nothing marks them installed.
- `updateBot` restarts the bot when the merged configuration has `autoStart`. This does not depend on whether the bot was running before. The configuration merge stays in memory even when writing `config.json` fails.
- Clearing the history of an unknown bot creates empty entries for it.
- A negative `limit` drops the first entries instead of keeping the last ones.
- `spawn` of a program that cannot be found or run (a `php` bot on a host without PHP, a `python` interpreter on a host with only `python3`) returns a child without a pid and emits `error` on the next tick. The listener is attached only after the PID file write is awaited, so as written the event finds no listener and ends the host process. The model puts the listener first (see Findings).
- Express tries routes in the order they are registered. `/:botId/errors` (src/routes/logs.js:37) comes before `/system/errors` (src/routes/logs.js:107), so a request for `/system/errors` reads as the errors of a bot named `system`, and the system handler looks unreachable. This is a reading of the code, not executed. The model gives each handler on its own.

## Model

| member | source | states |
|---|---|---|
| JsStrings.TrimStart | src/routes/logs.js:91 | the result is a suffix of the input, every dropped character is white space, and it does not start with white space |
| JsStrings.TrimEnd | src/routes/logs.js:91 | the result is a prefix of the input, every dropped character is white space, and it does not end with white space |
| JsStrings.TrimEmptyIffBlank | src/botManager.js:128 | `s.trim() === ''` exactly when every character of `s` is white space |
| JsStrings.TrimIdempotent | src/botManager.js:613 | trimming twice is trimming once |
| JsStrings.Split | src/routes/logs.js:90 | `split` always yields at least one piece |
| JsStrings.SplitPiecesAvoidSeparator | src/routes/logs.js:90 | no piece `split('\n')` yields contains a newline |
| JsStrings.JoinSplit | src/routes/logs.js:90 | joining the pieces of a split with the separator gives back the text |
| JsStrings.SplitJoin | src/routes/logs.js:90 | splitting the join of separator-free pieces gives back the pieces |
| JsNumbers.Neg | src/routes/logs.js:29 | unary minus keeps NaN as NaN and negates an integer |
| JsNumbers.DigitRun | src/botManager.js:522 | the run of leading digits parseInt consumes is maximal |
| JsNumbers.Decimal | src/botManager.js:608 | `String(n)` of a natural is a non-empty string of decimal digits, with no leading zero unless it is "0" |
| JsNumbers.ValueOfDecimal | src/botManager.js:608 | the digits of `String(n)` have value `n` |
| JsNumbers.ParseIntOfDecimal | src/botManager.js:659 | parseInt reads back a natural's decimal text when nothing follows it, or a character that is neither a digit nor a letter |
| JsNumbers.ParseInt | src/botManager.js:659 | (function) `parseInt` with no radix: leading white space, one sign, then the magnitude, NaN without digits |
| JsNumbers.ParseIntOfIntText | src/botManager.js:659 | parseInt reads back the text `String(pid)` wrote for any integer, negative ones included |
| JsNumbers.ParseIntOfUndefined | src/botManager.js:608 | the PID file a child without a pid leaves ("undefined") parses to NaN |
| JsNumbers.ParseIntSkipsLeadingSpace | src/botManager.js:522 | parseInt ignores leading white space |
| Buffers.KeepNewest | src/botManager.js:870-873 | (function) the last `cap` entries of a history |
| Buffers.Push | src/botManager.js:868-873 | (function) `push`, then `shift` while over the cap |
| Buffers.KeepNewestSuffix | src/botManager.js:870-873 | trimming keeps the last `min(cap, length)` entries, as a suffix |
| Buffers.PushBounded | src/botManager.js:868-873 | after a push the history has at most `cap` entries and ends with the new one; below the cap it is the old history plus the entry |
| Buffers.PushAtCapEvictsOldest | src/botManager.js:868-873 | pushing onto a full history drops exactly its oldest entry |
| Buffers.KeepNewestAbsorbs | src/botManager.js:871-873 | trimming before appending more changes nothing about the final trim |
| Buffers.PushAllKeepsNewest | src/botManager.js:868-875 | pushing entries one by one equals appending them all and keeping the newest `cap` |
| Buffers.PushAllOverflow | src/botManager.js:868-875 | pushing at least `cap` entries leaves exactly the last `cap` of them |
| Buffers.PushAllSnoc | src/botManager.js:868-875 | pushing a sequence plus one entry is pushing the sequence, then the entry |
| Buffers.PushAllBounded | src/botManager.js:888-893 | any number of pushes keeps a history within its cap |
| Buffers.PushAllConcat | src/botManager.js:868-875 | pushing two sequences in turn is pushing their concatenation |
| Buffers.AppendAtPushesEach | src/botManager.js:861-875 | appending to a key of the history map pushes onto that key's history, an absent key counting as `[]` |
| Buffers.AppendAtOne | src/botManager.js:861-875 | one `addLog` replaces the bot's history by the old one pushed with the entry |
| Buffers.AppendAtConcat | src/botManager.js:861-875 | two appends to the same key are one append of both |
| Buffers.AppendAtBounded | src/botManager.js:882-895 | appends keep every history of the map within its cap and touch no other key |
| Buffers.AppendAtLast | src/botManager.js:868-875 | after a non-empty append the last entry of the history is the last appended |
| Buffers.Stamped | src/botManager.js:862-866 | one log entry per message |
| Buffers.StampedErrors | src/botManager.js:883-886 | one error entry per message |
| Buffers.StampedConcat | src/botManager.js:862-866 | stamping distributes over concatenation |
| Buffers.AppendStamped | src/botManager.js:860-879 | two batches of `addLog` calls are one batch |
| Buffers.AppendStampedOne | src/botManager.js:860-879 | one more `addLog` extends a batch by one message |
| Buffers.AppendStampedErrors | src/botManager.js:881-899 | two batches of `addError` calls are one batch |
| Buffers.AppendStampedErrorsOne | src/botManager.js:881-899 | one more `addError` extends a batch by one message |
| BotConfigs.MergeKeepsIdentity | src/botManager.js:762 | an update keeps the bot's id and creation time and sets `updatedAt`; an empty update changes nothing else |
| BotConfigs.Merge | src/botManager.js:762 | (function) `Object.assign` of the six update fields and `updatedAt` onto the configuration |
| BotConfigs.MergeTwice | src/botManager.js:762 | two updates in turn are one combined update, the later field winning |
| BotConfigs.MergeIdempotent | src/botManager.js:762 | applying the same update twice is applying it once |
| BotConfigs.RestartCondition | src/botManager.js:778 | updateBot restarts exactly when the update turns `autoStart` on, or leaves out `autoStart` on a bot that had it on |
| BotConfigs.LanguageOfName | src/botManager.js:583-598 | the language name stored in a configuration and the language it selects determine each other |
| BotConfigs.FileExtension | src/botManager.js:157-167 | (function) the extension table, "js" for a language it does not name |
| BotConfigs.FileExtensionDistinguishes | src/botManager.js:157-167 | the six known languages have six different extensions |
| BotConfigs.FileExtensionFallback | src/botManager.js:166 | an unknown language gets "js"; every extension is one of the six |
| BotConfigs.Launch | src/botManager.js:583-598 | (function) the interpreter and arguments spawn is given per language, node by default |
| BotConfigs.LaunchRunsEntryFile | src/botManager.js:583-598 | every interpreter is given `bot.<ext>` as its last argument |
| BotConfigs.LaunchFallsBackToNode | src/botManager.js:596-597 | any language other than javascript, typescript, python and php runs under `node` |
| BotConfigs.BotFilesHoldEntry | src/botManager.js:120-155 | the bot files are the entry file with the code or template, plus `package.json` exactly for js/ts and `requirements.txt` exactly for python |
| BotConfigs.DirectoryFilesHold | src/botManager.js:100-104 | a bot directory gets `config.json` with the configuration and the entry file |
| BotConfigs.TemplateFor | src/botManager.js:169-441 | (function) the boilerplate per language, the JavaScript one by default, embedding the token for Python and PHP |
| BotConfigs.BlankCodeGetsTemplate | src/botManager.js:128-130 | blank code is replaced by the language's template with the token |
| ChildEnvironment.BaseEnv | src/botManager.js:559-562 | the parent's variables are copied and `PATH` is always set, to the parent's when it is non-empty and to the default otherwise |
| ChildEnvironment.LastBinding | src/botManager.js:565-570 | the value a key gets is that of its last declaration with a truthy key and a defined value, and none when there is no such declaration |
| ChildEnvironment.OverlayBinding | src/botManager.js:566-570 | writing the declarations in order leaves each key with its last binding, or the base value when it has none |
| ChildEnvironment.ChildEnv | src/botManager.js:558-574 | (function) the child's environment: the parent's with `PATH` set, then the declared or the default variables |
| ChildEnvironment.ChildEnvDeclared | src/botManager.js:559-570 | with declared variables, each key is the last declaration's value, otherwise the parent's, and `PATH` is non-empty whenever no declaration binds it |
| ChildEnvironment.ChildEnvUndeclared | src/botManager.js:571-575 | without a declared array, `BOT_TOKEN` is the token and `NODE_ENV` is "production" |
| ChildEnvironment.DefaultEnvironmentAgrees | src/botManager.js:92-95 | the default declarations give the same environment as the fallback branch |
| ChildEnvironment.BuildChildEnv | src/botManager.js:559-575 | the loop over the declarations builds exactly the environment specified |
| Provisioning.InstallFailure | src/botManager.js:457 | an installer fails exactly when it does not close with code 0 |
| Provisioning.OutputLinesSnoc | src/botManager.js:455-456 | npm output goes to the log; pip's standard output goes to the log and its standard error to the errors |
| Provisioning.OutputPartitioned | src/botManager.js:470-476 | each installer chunk is recorded exactly once; for npm, all of it in order in the log |
| Provisioning.InstallReported | src/botManager.js:443-483 | the log gets the announcement, the output, and the completion message only on success; a failure ends the errors with "Dependency installation failed: …" |
| Provisioning.InstallIdempotence | src/botManager.js:446-468 | npm runs again on the next start exactly when its run, successful or not, left no node_modules folder; pip installs again every time |
| Os.Unit | src/botManager.js:663 | a pid and its group id name the same process |
| Os.LiveAfterRemovesAtMostTarget | src/botManager.js:663-669 | `process.kill` ends at most its target; a probe ends nothing; a delivered SIGKILL ends the target; an undeliverable call changes nothing |
| Os.PidTextTargetsProcess | src/botManager.js:608 | the pid written to `bot.pid` reads back, and its group is reachable exactly when the process is alive |
| Os.KillMissed | src/botManager.js:673-675 | a signal to a missing target only records the failed call |
| Os.EscalateEffect | src/botManager.js:662-669 | SIGTERM, then SIGKILL only when SIGTERM was delivered; the target alone ends; files stay |
| Os.StepsKeepSane | src/botManager.js:941-985 | every host step keeps the live pids valid |
| Os.Host.constructor | src/botManager.js:14-17 | the host starts in the given state with no signal sent |
| Os.Host.Signal | src/botManager.js:958 | `process.kill` reports delivery exactly when the target is reachable, and the state follows the kill step |
| Os.Host.Escalate | src/botManager.js:662-669 | SIGTERM and, if delivered, SIGKILL, as the escalation step says |
| Os.Host.Exit | src/botManager.js:622 | a process exits with its code |
| Os.Host.Spawned | src/botManager.js:585 | a fresh pid becomes live |
| Os.Host.MakeDir | src/botManager.js:83 | `ensureDir` creates the directory or keeps the existing one |
| Os.Host.WriteFiles | src/botManager.js:132 | written files replace those of the same name in an existing directory; a missing directory is left as it is |
| Os.Host.WritePidFile | src/botManager.js:608 | the PID file holds the text written, when the directory exists |
| Os.Host.RemovePidFile | src/botManager.js:732 | the PID file is removed, a missing one being no error |
| Os.Host.RemoveDir | src/botManager.js:798 | the bot directory and its PID file are removed |
| Supervisor.PidFileNamesChild | src/botManager.js:608 | the PID file of a spawned child reaches exactly that child, and one written for a child without a pid reaches nothing |
| Supervisor.PidTextNamesProcess | src/botManager.js:520-539 | a stale PID file holding a valid pid kills exactly that process, if alive |
| Supervisor.AddPushes | src/botManager.js:860-899 | `addLog`/`addError` push the entry onto this bot's history only, an entry being appended below the cap and the oldest dropped at it |
| Supervisor.CloseEffect | src/botManager.js:622-630 | `close` deregisters the bot, removes its PID file, logs the exit code and emits "stopped"; no process or other bot changes |
| Supervisor.AfterOutput | src/botManager.js:453-476 | installer output changes only the histories and emits |
| Supervisor.OutputLogged | src/botManager.js:455-456 | the installer's log lines are appended to the bot's log in order |
| Supervisor.OutputErrorsRecorded | src/botManager.js:473 | pip's standard error is appended to the bot's errors in order |
| Starting.StartReported | src/botManager.js:503-646 | a start reaches the launch exactly when the directory and entry file exist, any needed install succeeds and spawn does not throw; a process runs exactly when spawn also gave a pid. A start that stops short ends the errors with "Failed to start bot: …"; a launch ends the log with "Bot started successfully", and the errors with "Process error: …" when the program could not be run |
| Starting.WrittenBotPassesFileChecks | src/botManager.js:503-514 | a directory holding a written bot passes both file checks |
| Starting.EnsureLogs | src/botManager.js:443-483 | ensureDependencies appends the installer's log lines to this bot's log only when an install is needed |
| Starting.EnsureErrors | src/botManager.js:473-482 | ensureDependencies appends pip's errors and the failure message only when an install is needed |
| Starting.EnsureHost | src/botManager.js:451-468 | an install changes only this bot's directory, only when it is needed, and only by the node_modules folder npm leaves |
| Starting.EnsureFrame | src/botManager.js:443-483 | ensureDependencies registers, configures and emits nothing beyond history events |
| Starting.InstallEndFrame | src/botManager.js:477-482 | the closing message of an install registers and configures nothing |
| Starting.ReapEffect | src/botManager.js:518-554 | a stale PID file is removed in every case and ends the process it reaches |
| Starting.LaunchEffect | src/botManager.js:605-640 | a launch writes the PID file and adds the process if there is one, logs "Bot started successfully" and emits "running"; the child stays registered, unless the 'error' event of a program that cannot be run arrives during the PID file write, which adds "Process error: …" and deregisters it (the corrected listener order, see Findings) |
| Starting.InstallAndSpawnLogs | src/botManager.js:579-637 | the log after install and spawn is the installer's lines plus the started message on success |
| Starting.InstallAndSpawnErrors | src/botManager.js:579-646 | the errors after install and spawn are pip's lines, then "Failed to start bot: …" on failure, or "Process error: …" for a program that cannot be run |
| Starting.InstallAndSpawnRegisters | src/botManager.js:580-608 | only a spawn with a pid leaves the child registered and adds its process; every launch writes the PID file, "undefined" without a pid |
| Starting.InstallAndSpawnRest | src/botManager.js:579-640 | install and spawn change directories only through the install, and emit "running" last on success |
| Starting.StartGuards | src/botManager.js:487-495 | an already running bot gets "Bot is already running" and an unknown one "Bot not found", with nothing changed |
| Starting.ProbedStage | src/botManager.js:580-603 | after the file checks, the result is a success exactly when the start reaches the launch, and otherwise its error is the stage's message |
| Starting.StartCases | src/botManager.js:499-514 | a missing directory or entry file records only the failure |
| Starting.ProbedLogs | src/botManager.js:579-637 | the log after the file checks is the start's log lines |
| Starting.StartLogs | src/botManager.js:486-648 | startBot appends exactly its log lines to this bot's log |
| Starting.ProbedErrors | src/botManager.js:579-646 | the errors after the file checks are the start's error lines |
| Starting.StartErrors | src/botManager.js:486-648 | startBot appends exactly its error lines to this bot's errors |
| Starting.ProbedRegisters | src/botManager.js:518-608 | after the file checks, the bot is registered exactly when a process runs, and nothing else is |
| Starting.ProbedRecordsPid | src/botManager.js:518-608 | after the file checks, the old PID file is handled first, a launch writes the new one, and only a running process is added to the live set |
| Starting.StartRegisters | src/botManager.js:486-648 | startBot leaves the bot registered exactly when a process runs; its PID file is the new pid ("undefined" without one), removed or untouched per stage; the stale process is reaped only past the file checks |
| Starting.ProbedRest | src/botManager.js:579-640 | after the file checks, only the install changes directories, and "running" is emitted last after a launch |
| Starting.AfterStart | src/botManager.js:486-648 | (function) the state startBot leaves, stage by stage |
| Starting.StartRest | src/botManager.js:486-648 | startBot changes directories only by a needed install, and emits "running" last after a launch |
| Starting.StartOutcome | src/botManager.js:605-646 | startBot reports success exactly when it reaches the launch; the bot is registered afterwards exactly when a process runs; for a program that cannot be run the last error is "Process error: …", and on failure it is "Failed to start bot: " plus the error returned |
| Starting.StartFailureRecorded | src/botManager.js:632-646 | a start that runs no process ends the errors with why: the 'error' event's message, or the failure it returns |
| Starting.TrySpawnAsWrittenDiffers | src/botManager.js:582-646 | as written, a program that cannot be run ends the host process before startBot logs the start or replies; for every other spawn the code as written agrees with the model |
| Stopping.StopEscalatesOnlyWhenNeeded | src/botManager.js:688-726 | SIGKILL is sent exactly when the child has no pid or survives SIGTERM; no signal is delivered twice; the first call is SIGTERM to the group |
| Stopping.SignalChildEffect | src/botManager.js:688-700 | a signal goes to the group, and falls back to the process only when the group is unreachable |
| Stopping.GraceEffect | src/botManager.js:702-726 | after the wait, SIGKILL is sent only if the bot is still registered; the child is gone and deregistered with its PID file |
| Stopping.GraceLogs | src/botManager.js:622-630 | the close during the wait logs the exit code and emits "stopped" once |
| Stopping.StopChildRegistry | src/botManager.js:728-739 | stopping a running bot deregisters it and removes its PID file, and nothing else is registered or removed |
| Stopping.StopChildSignals | src/botManager.js:684-726 | stopping a running bot ends exactly its process, through the signal sequence specified |
| Stopping.StopChildLogs | src/botManager.js:622-630 | stopping a running bot logs its exit code once |
| Stopping.StopByPidFileEffect | src/botManager.js:652-679 | without a child, a PID file reaching a live group ends it and is removed; any other file stays |
| Stopping.StopDeregisters | src/botManager.js:650-747 | stopBot leaves the bot unregistered on both paths and starts no process |
| Stopping.OrphanProbedFirst | src/botManager.js:956-969 | SIGTERM is sent exactly when the probe `kill(pid, 0)` succeeds, and then the process is gone |
| Stopping.ProbeAndReapEffect | src/botManager.js:956-969 | a probed pid is ended exactly when it is alive; files stay |
| Stopping.ReapOrphanEffect | src/botManager.js:951-981 | each PID file is removed whether readable or not, after its process is probed and reaped |
| Stopping.TermsFollowProbesAppend | src/botManager.js:947-982 | "every SIGTERM follows a delivered probe" is kept from one PID file to the next |
| Lifecycle.ProvisionRegisters | src/botManager.js:106-109 | a new bot is configured with empty histories, and nothing else changes in the maps |
| Lifecycle.ProvisionWrites | src/botManager.js:83-104 | a new bot's directory gets its configuration and files, with no PID file or process change |
| Lifecycle.MakeDirThenWrite | src/botManager.js:83-101 | `ensureDir` then the writes leave the existing files merged with the written ones |
| Lifecycle.ProvisionedBotStarts | src/botManager.js:78-118 | a created bot passes startBot's file checks |
| Lifecycle.CreateEffect | src/botManager.js:78-113 | createBot's configuration has the data's fields, `autoStart` false unless given, the default variables when none given, and both times now, and is registered |
| Lifecycle.CloneEffect | src/botManager.js:814-853 | cloning an unknown bot fails with "Source bot not found" and changes nothing; otherwise the copy has " (Copy)", an empty token, no autoStart and the default variables, and the source is untouched |
| Lifecycle.StoppedForUpdateEffect | src/botManager.js:756-759 | the stop within updateBot leaves the bot unregistered and its configuration and directory in place |
| Lifecycle.UpdateConfigures | src/botManager.js:749-787 | updateBot stores the merged configuration, and the bot runs afterwards only if the merge asks for a restart; no other bot's registration changes |
| Lifecycle.RewriteRegisters | src/botManager.js:761-780 | after the stop, the merge is stored and only a restart registers the bot again |
| Lifecycle.WrittenHoldsBot | src/botManager.js:770-773 | a rewritten directory holds the bot's configuration and entry file, also after an install |
| Lifecycle.HoldsBotAfterWrite | src/botManager.js:132 | files written over an existing directory win, so the directory holds the bot they hold |
| Lifecycle.HoldsBotAfterInstall | src/botManager.js:451-477 | an install keeps the configuration and entry file |
| Lifecycle.UpdateCases | src/botManager.js:755-781 | updateBot stops, merges, rewrites the directory and then starts the bot exactly when the merge asks for it |
| Lifecycle.UpdateWrites | src/botManager.js:769-773 | after updateBot the directory holds the merged configuration and entry file |
| Lifecycle.AfterUpdate | src/botManager.js:749-786 | (function) the state updateBot leaves: stop, merge, rewrite, then restart when asked |
| Lifecycle.UpdateReported | src/botManager.js:749-786 | updateBot succeeds exactly for a known bot with a directory, returning the merged configuration, and fails with "Bot not found" for an unknown one |
| Lifecycle.DeleteEffect | src/botManager.js:789-807 | deleteBot removes the bot from all four maps and its directory and PID file, and leaves the other bots' entries alone |
| Shutdown.ElementsSnoc | src/botManager.js:929 | the ids visited grow by the one visited last |
| Shutdown.StopAllEffect | src/botManager.js:925-938 | stopping the ids of a list deregisters exactly those, ends their processes, removes their PID files, and starts nothing |
| Shutdown.StopAllClearsRegistry | src/botManager.js:925-938 | stopAllBots over the registry's ids leaves nothing registered |
| Shutdown.OrphanVictimsAdd | src/botManager.js:947-982 | one more directory adds at most the process its PID file names |
| Shutdown.OrphanStep | src/botManager.js:956-969 | a PID file's probe after earlier reaps ends the same process as against the first live set |
| Shutdown.SweepStepFiles | src/botManager.js:947-982 | one more directory removes its PID file and only the live process it names |
| Shutdown.SweepStepSignals | src/botManager.js:947-982 | one more directory keeps earlier calls and sends SIGTERM only after a delivered probe |
| Shutdown.SweepEffect | src/botManager.js:941-985 | in any listing order, the sweep removes every listed PID file, ends exactly the live processes named by readable ones, sends SIGTERM only after a successful probe, and leaves no PID file when every directory is listed |
| Manager.BotManager.constructor | src/botManager.js:8-14 | a new manager has empty maps and no emits |
| Manager.BotManager.GetBotLogs | src/botManager.js:909-911 | the bot's log, or `[]` for an unknown bot, never above 1000 entries |
| Manager.BotManager.GetBotErrors | src/botManager.js:913-915 | the bot's errors, or `[]` for an unknown bot, never above 100 entries |
| Manager.BotManager.GetBotStatus | src/botManager.js:917-923 | `running` exactly when the bot is registered, with its logs and errors |
| Manager.BotManager.AddLog | src/botManager.js:860-879 | the push of the entry and the emit, as AfterAddLog says |
| Manager.BotManager.AddError | src/botManager.js:881-899 | the push of the entry and the emit, as AfterAddError says |
| Manager.BotManager.Emit | src/botManager.js:876-878 | an emit is recorded only when there is a socket.io server, and the maps are unchanged |
| Manager.BotManager.OnStdout | src/botManager.js:612-615 | child output is logged trimmed |
| Manager.BotManager.OnStderr | src/botManager.js:617-620 | child error output is recorded trimmed |
| Manager.BotManager.OnClose | src/botManager.js:622-630 | the close handler, as AfterClose says |
| Manager.BotManager.OnError | src/botManager.js:632-635 | the error handler records "Process error: …" and deregisters the bot |
| Manager.BotManager.RecordInstallerOutput | src/botManager.js:453-476 | the installer's chunks are recorded in order |
| Manager.BotManager.EnsureDependencies | src/botManager.js:443-483 | the failure it throws, and its state change, as AfterEnsure says |
| Manager.BotManager.ReapStaleProcess | src/botManager.js:518-554 | the stale PID file handling, as AfterReap says |
| Manager.BotManager.LaunchChild | src/botManager.js:605-640 | a launch, with the 'error' listener in the corrected order, as AfterLaunch says |
| Manager.BotManager.TrySpawn | src/botManager.js:582-646 | a spawn attempt and its result: a failure for an install failure or a throwing spawn, and success for a launch |
| Manager.BotManager.InstallAndSpawn | src/botManager.js:579-646 | the install and the spawn, with the result |
| Manager.BotManager.StartProbed | src/botManager.js:518-646 | startBot after the file checks |
| Manager.BotManager.StartBot | src/botManager.js:486-648 | startBot's result and new state, with the 'error' listener in the corrected order; the Starting lemmas characterise them (success exactly on a launch, registered exactly when a process runs, the last error on failure) |
| Manager.BotManager.SignalChild | src/botManager.js:688-700 | a signal to the group with the fallback to the process |
| Manager.BotManager.AwaitClose | src/botManager.js:702-703 | the grace wait, during which the close of a dead child is handled |
| Manager.BotManager.ForceStop | src/botManager.js:706-726 | SIGKILL and the second wait, when still registered |
| Manager.BotManager.Grace | src/botManager.js:702-726 | the wait and the escalation, as AfterGrace says |
| Manager.BotManager.StopChild | src/botManager.js:684-742 | stopping a registered child, which the Stopping lemmas characterise |
| Manager.BotManager.StopByPidFile | src/botManager.js:652-679 | stopping through the PID file alone |
| Manager.BotManager.StopBot | src/botManager.js:650-747 | stopBot always reports success, with the new state AfterStop says |
| Manager.BotManager.Provision | src/botManager.js:82-110 | a new bot's directory and entries |
| Manager.BotManager.WriteBotDirectory | src/botManager.js:83-104 | the directory and its files |
| Manager.BotManager.CreateBot | src/botManager.js:78-118 | createBot's reply and state |
| Manager.BotManager.CloneBot | src/botManager.js:814-858 | cloneBot's reply and state |
| Manager.BotManager.UpdateBot | src/botManager.js:749-787 | updateBot's reply and its state, including the restart |
| Manager.BotManager.StopForUpdate | src/botManager.js:756-759 | the stop when running |
| Manager.BotManager.Rewrite | src/botManager.js:761-786 | the merge kept in memory, then the write of config.json or the ENOENT failure |
| Manager.BotManager.WriteAndRestart | src/botManager.js:770-780 | the bot files rewritten and the restart |
| Manager.BotManager.Restart | src/botManager.js:777-780 | the restart when the merge asks for it |
| Manager.BotManager.DeleteBot | src/botManager.js:789-812 | deleteBot reports success, with the state AfterDelete says |
| Manager.BotManager.StopAllBots | src/botManager.js:925-938 | the loop stops the bots of the registry's order one by one, which Shutdown.StopAllClearsRegistry characterises |
| Manager.BotManager.ProbeAndReap | src/botManager.js:956-969 | the probe and the reaping of one pid |
| Manager.BotManager.ReapOrphan | src/botManager.js:951-981 | one directory's PID file |
| Manager.BotManager.CleanupOrphanedProcesses | src/botManager.js:941-985 | the loop over the listing, which Shutdown.SweepEffect characterises |
| LogRoutes.IsSubsequence | src/routes/logs.js:26 | (predicate) the entries of one sequence occur in another in order |
| LogRoutes.SubsequenceReflexive | src/routes/logs.js:26 | every sequence is a subsequence of itself |
| LogRoutes.SubsequenceCons | src/routes/logs.js:26 | a subsequence stays one when an entry is put in front of the other |
| LogRoutes.SubsequenceDropFirst | src/routes/logs.js:29 | dropping the first of a subsequence keeps it one |
| LogRoutes.SubsequenceSuffix | src/routes/logs.js:29 | every suffix of a subsequence is one |
| LogRoutes.Keep | src/routes/logs.js:26 | `filter` keeps only entries that pass, and in their original order |
| LogRoutes.KeepCounts | src/routes/logs.js:26 | `filter` keeps every passing entry, as many times as it occurs, and no other |
| LogRoutes.LastEntries | src/routes/logs.js:29 | `slice(-limit)` is a suffix of the list |
| LogRoutes.SliceFrom | src/routes/logs.js:29 | (function) JavaScript's `slice(start)` with a number start, NaN read as 0 |
| LogRoutes.LastEntriesIsSlice | src/routes/logs.js:29 | the case split equals JavaScript's `slice` with the negated parsed limit |
| LogRoutes.LastEntriesLength | src/routes/logs.js:29 | NaN or 0 keeps everything; a positive limit keeps at most that many; a negative one drops that many from the front |
| LogRoutes.LevelFilteredSound | src/routes/logs.js:25-27 | the level filter gives an ordered subsequence with only that level |
| LogRoutes.SuffixOfSubsequence | src/routes/logs.js:29 | the last entries of a filtered list are an ordered subsequence of the stored list |
| LogRoutes.QueryLogs | src/routes/logs.js:21-29 | the reply is an ordered subsequence of the log with only the requested level, a suffix of the filtered list, and by default its last 100 |
| LogRoutes.LevelFilterComplete | src/routes/logs.js:25-27 | the filter keeps every entry of the level, and an absent or empty level keeps the whole log |
| LogRoutes.GetLogs | src/routes/logs.js:14-35 | without a manager "Bot manager not available"; otherwise an ordered subsequence of the bot's log, with only the level asked, and `[]` for an unknown bot |
| LogRoutes.QueryErrors | src/routes/logs.js:44-48 | a suffix of the errors, by default the last 50 |
| LogRoutes.GetErrors | src/routes/logs.js:37-54 | without a manager "Bot manager not available"; otherwise a suffix of the bot's errors, `[]` for an unknown bot |
| LogRoutes.ClearEffect | src/routes/logs.js:63-71 | "logs" empties only this bot's log, "errors" only its errors, "all" or no type both, any other type nothing; nothing else changes |
| LogRoutes.ClearHistory | src/routes/logs.js:56-77 | without a manager "Bot manager not available"; otherwise "Cleared &lt;type&gt; for bot &lt;id&gt;" and the clear ClearEffect describes |
| LogRoutes.NonBlankLines | src/routes/logs.js:89-91 | the lines kept are non-blank, in file order |
| LogRoutes.NonBlankLinesComplete | src/routes/logs.js:89-91 | every non-blank line is kept as often as it occurs |
| LogRoutes.ReadSystemLog | src/routes/logs.js:85-99 | a missing file gives `[]`; otherwise the last `min(cap, lines)` non-blank lines, each parsed or given the fallback, in order |
| LogRoutes.SystemCombined | src/routes/logs.js:79-105 | at most 100 entries |
| LogRoutes.SystemErrors | src/routes/logs.js:107-133 | at most 50 entries (the handler itself; the note on route order above applies) |
| LogRoutes.SystemEntryFallback | src/routes/logs.js:92-98 | an entry is the fallback exactly when its line is not JSON, and then it holds the line |

## Left out

- BotConfigs.FileExtension, BotConfigs.TemplateFor: a language named after an inherited `Object.prototype` member (`constructor`, `toString`, `hasOwnProperty`, `__proto__`, …) is treated as an unknown language. In the source, `extensions[language] || 'js'` (src/botManager.js:166) and `boilerplates[language] || boilerplates.javascript` (src/botManager.js:440) find the inherited value instead. The entry file is then named after that value's text, and with blank code `fs.writeFile` is handed a function and throws, so createBot, cloneBot and updateBot fail after config.json was written. The model would need the text of every inherited member to follow the source here.
- BotConfigs.FileExtensionFallback: for those inherited names the source's extension is not "js" and not one of the six, as said above.
- BotConfigs.BlankCodeGetsTemplate: for those inherited names the source writes no template and the write throws, as said above. LaunchFallsBackToNode, Lifecycle.CreateEffect, Lifecycle.CloneEffect and Lifecycle.UpdateReported carry the same assumption for those names.
- Starting.TrySpawnAsWritten: the host ending is the value HostExits, which carries no state. Whether `bot.pid` with the text `undefined` reached the disk first is a race, and the host's in-memory maps are lost anyway.
- The `close` event Node emits after an `error` from spawn is the separate step OnClose.
- Starting.LaunchEffect: in the corrected order, the code after the awaited PID file write does not look at the error, so a program that cannot be run still logs "Bot started successfully", emits "running" and makes startBot reply with success. The model keeps that.
- `loadExistingBots` is not modelled. It reads JSON configurations from the directory listing and starts bots whose flag asks for it. It is file-format I/O.
- The grace waits (3 s, 5 s, 2 s and 1 s) have no timing model. During a wait, the child's `close` arrives exactly when the child is no longer alive.
- Overlapping asynchronous calls are not modelled. Every operation runs to completion before the next starts. The restart updateBot does not await also runs to completion inside UpdateBot.
- The outer `catch` blocks of stopBot and deleteBot are unreachable in the model, because every filesystem step they guard is best-effort or succeeds here. Filesystem errors other than a missing directory (ENOENT) are not modelled, and neither are disk-full or permission errors.
- `fs.readFile` failing on a PID file is the `Unreadable` file.
- socket.io emits are a ghost sequence of events. No delivery is modelled.
- The logger's messages are not modelled.
- The boilerplate templates are opaque values. Only the choice of template by language is modelled.
- The cleanup of orphaned processes, which the constructor starts without awaiting, is the separate method CleanupOrphanedProcesses.
- `getInstance` and the two managers the server and the routes create are not modelled. A route takes the manager, or null, as a parameter.
- The log routes' `JSON.parse` is a parameter of ReadSystemLog. The existing file is the optional file text, so read errors and the 500 replies they cause are not modelled.
- A query parameter given twice is not modelled: Express then passes an array, and here every parameter is one string.
- The kernel's pid allocation is modelled by one assumption: the pid `spawn` returns is a valid pid that is not already live.
- A PID file holding `0` or `1`, which only something other than the supervisor could write, would make `-pid` target the supervisor's own process group or every process. The model treats these targets as reaching nothing. A group and its leader are one process.
- Shutdown.StopAllEffect: states the stopped bots' registrations, PID files and processes, but not what their logs hold afterwards. StopChildLogs states that for each stop.
- LogRoutes.ReadSystemLog: requires a positive cap. The routes only use 100 and 50, and `slice(-0)` would keep everything.
- LogRoutes.SystemCombined: states only the bound. The contents are ReadSystemLog's.
- LogRoutes.SystemErrors: states only the bound. The contents are ReadSystemLog's.
- BotConfigs.MergeKeepsIdentity: the model's update carries only the six documented fields. `Object.assign` at src/botManager.js:762 copies every own key of the update, so an update naming `id` or `createdAt` (or any other key) would overwrite it. The lemma therefore holds by the update's type. No route of the repository calls this updateBot (src/routes/bots.js:67 goes through `BotService`), and the configuration's id being its map key is an invariant of the model.
- Manager.BotManager.UpdateBot: does not model updates naming `id`, `createdAt` or unknown keys, for the reason above. Such an update would file a configuration with another id under the old key, write it to `config.json`, and make the next `ensureDependencies` look in the other id's directory.

## Findings

| source | as written | input that shows it | evidently intended | confidence | as-written member | corrected member |
|---|---|---|---|---|---|---|
| src/botManager.js:605-635 | the child's `error` listener is attached after `await fs.writeFile` of the PID file, but spawn emits `error` for a program that cannot be run on the next tick, so the event finds no listener and the host process ends before any reply or start log | a bot whose language is `php` on a host without PHP, or a `python` bot on a host that has only `python3` | the listener records "Process error: spawn … ENOENT" and deregisters the bot, and the host keeps running | not executed | Starting.TrySpawnAsWrittenDiffers | Starting.LaunchEffect |
