/**
 * startBot and the dependency installation it runs: the checks it makes in
 * order (the bot's directory, its entry file, a PID file left by an
 * earlier process, the installer, the spawn), what a start attempt records
 * in the bot's histories, and what it registers.
 */
module Starting {
  import opened Optional
  import opened JsNumbers
  import opened Buffers
  import opened BotConfigs
  import opened ChildEnvironment
  import opened Provisioning
  import opened Os
  import opened Supervisor

  const StartedMessage: string := "Bot started successfully"
  const StartFailedPrefix: string := "Failed to start bot: "
  const SpawnFailedPrefix: string := "Failed to spawn bot process: "
  const NoDirectoryPrefix: string := "Bot directory does not exist: "
  const NoEntryPrefix: string := "Bot file does not exist: "
  const AlreadyRunning: string := "Bot is already running"
  const NotFound: string := "Bot not found"

  /** How far an attempt to start a bot gets. */
  datatype Stage =
    | NoDirectory
    | NoEntryFile
    | InstallFailed(message: string)
    | SpawnFailed(message: string)
    | Started(pid: int)
    | CannotRun(message: string)

  /** The start got as far as the launch: spawn returned a child, with a
      pid or, for a program that cannot be run, without one. */
  predicate Launched(stage: Stage) {
    stage.Started? || stage.CannotRun?
  }

  /** The error ensureDependencies throws for a bot whose directory holds
      `files`, if it throws one. */
  function DependencyFailure(language: Language, files: Option<map<string, Content>>, run: InstallRun): Option<string> {
    if InstallNeeded(language, files) then InstallFailure(language, run) else None
  }

  /** The checks startBot makes, in order: the directory, the entry file, the
      dependency installation, the spawn. */
  function StartStage(files: Option<map<string, Content>>, language: Language, install: InstallRun, spawn: SpawnOutcome): Stage {
    if files.None? then NoDirectory
    else if EntryFile(language) !in files.value then NoEntryFile
    else if DependencyFailure(language, files, install).Some? then InstallFailed(DependencyFailure(language, files, install).value)
    else match spawn
      case SpawnThrows(m) => SpawnFailed(m)
      case Spawned(pid) => Started(pid)
      case Unrunnable(m) => CannotRun(m)
  }

  /** The start got past the file checks (and so dealt with the PID file). */
  predicate Probed(stage: Stage) {
    !stage.NoDirectory? && !stage.NoEntryFile?
  }

  /** The message of the error a failed start reports. */
  function StageError(stage: Stage, dir: string, language: Language): string {
    match stage
    case NoDirectory => NoDirectoryPrefix + dir
    case NoEntryFile => NoEntryPrefix + dir + "/" + EntryFile(language)
    case InstallFailed(m) => m
    case SpawnFailed(m) => SpawnFailedPrefix + m
    case Started(_) => ""
    case CannotRun(_) => ""
  }

  /** The lines a start attempt adds to the bot's log. */
  function StartLogLines(stage: Stage, files: Option<map<string, Content>>, language: Language, install: InstallRun): seq<string> {
    (if Probed(stage) && InstallNeeded(language, files) then InstallLogLines(language, install) else [])
      + (if Launched(stage) then [StartedMessage] else [])
  }

  /** The lines a start attempt adds to the bot's error history. */
  function StartErrorLines(stage: Stage, files: Option<map<string, Content>>, language: Language, install: InstallRun, dir: string): seq<string> {
    (if Probed(stage) && InstallNeeded(language, files) then InstallErrorLines(language, install) else [])
      + (if stage.Started? then []
         else if stage.CannotRun? then [ProcessErrorPrefix + stage.message]
         else [StartFailedPrefix + StageError(stage, dir, language)])
  }

  /** A start gets to the launch exactly when the directory and entry file
      exist, any installation it runs succeeds and spawn returns, and a
      process runs when spawn also gave it a pid. A start that stops short
      ends the error history with its reason; a launch ends the log with the
      start line, and the error history with the 'error' event's message
      when the program could not be run. */
  lemma StartReported(files: Option<map<string, Content>>, language: Language, install: InstallRun, spawn: SpawnOutcome, dir: string)
    ensures var stage := StartStage(files, language, install, spawn);
      Launched(stage) <==> (files.Some? && EntryFile(language) in files.value && !spawn.SpawnThrows?
        && (InstallNeeded(language, files) ==> install.end == Closed(Some(0))))
    ensures var stage := StartStage(files, language, install, spawn);
      stage.Started? <==> Launched(stage) && spawn.Spawned?
    ensures var stage := StartStage(files, language, install, spawn);
      var errs := StartErrorLines(stage, files, language, install, dir);
      !Launched(stage) ==> |errs| > 0 && errs[|errs| - 1] == StartFailedPrefix + StageError(stage, dir, language)
    ensures var stage := StartStage(files, language, install, spawn);
      var errs := StartErrorLines(stage, files, language, install, dir);
      stage.CannotRun? ==> spawn == Unrunnable(stage.message) && |errs| > 0 && errs[|errs| - 1] == ProcessErrorPrefix + stage.message
    ensures var stage := StartStage(files, language, install, spawn);
      var lines := StartLogLines(stage, files, language, install);
      Launched(stage) ==> |lines| > 0 && lines[|lines| - 1] == StartedMessage
  {
  }

  /** A bot directory as createBot, cloneBot or updateBot writes it passes
      both file checks of the next start. */
  lemma WrittenBotPassesFileChecks(existing: map<string, Content>, c: BotConfig, install: InstallRun, spawn: SpawnOutcome)
    ensures Probed(StartStage(Some(existing + DirectoryFiles(c)), c.language, install, spawn))
  {
    DirectoryFilesHold(c);
  }

  // ensureDependencies

  /** The end of ensureDependencies: the completion is logged, or the
      failure is recorded. */
  function AfterInstallEnd(w: World, id: BotId, language: Language, failure: Option<string>, now: string): World {
    match failure
    case None => AfterAddLog(w, id, Info, Completion(language), now)
    case Some(m) => AfterAddError(w, id, InstallFailedPrefix + m, now)
  }

  /** ensureDependencies: when the bot needs an installer, its announcement,
      its output and its end, and the node_modules folder an npm run leaves
      (added once the run is over: nothing looks at the directory meanwhile). */
  function AfterEnsure(w: World, bot: BotConfig, run: InstallRun, now: string): World {
    if !InstallNeeded(bot.language, FilesOf(w.os.dirs, bot.id)) then w
    else
      var announced := AfterAddLog(w, bot.id, Info, Announcement(bot.language), now);
      var output := AfterOutput(announced, bot.id, bot.language, run.output, now);
      var ended := AfterInstallEnd(output, bot.id, bot.language, InstallFailure(bot.language, run), now);
      if IsNode(bot.language) && run.modules then ended.(os := AfterWrite(ended.os, bot.id, map["node_modules" := Folder])) else ended
  }

  /** The installation adds InstallLogLines to the log, in order. */
  lemma EnsureLogs(w: World, bot: BotConfig, run: InstallRun, now: string)
    ensures var needed := InstallNeeded(bot.language, FilesOf(w.os.dirs, bot.id));
      AfterEnsure(w, bot, run, now).botLogs
        == AppendAt(w.botLogs, bot.id, Stamped(now, Info, if needed then InstallLogLines(bot.language, run) else []), LogCap)
  {
    var language := bot.language;
    var id := bot.id;
    if InstallNeeded(language, FilesOf(w.os.dirs, id)) {
      var announce := Announcement(language);
      var output := OutputLines(language, run.output);
      var announced := AfterAddLog(w, id, Info, announce, now);
      OutputLogged(announced, id, language, run.output, now);
      StampedConcat(now, Info, [], [announce]);
      AppendStamped(w.botLogs, id, now, Info, [announce], output, LogCap);
      if InstallFailure(language, run).None? {
        AppendStampedOne(w.botLogs, id, now, Info, [announce] + output, Completion(language), LogCap);
        assert InstallLogLines(language, run) == [announce] + output + [Completion(language)];
      } else {
        assert InstallLogLines(language, run) == [announce] + output;
      }
    } else {
      StampedConcat(now, Info, [], []);
    }
  }

  /** The installation adds InstallErrorLines to the error history, in order. */
  lemma EnsureErrors(w: World, bot: BotConfig, run: InstallRun, now: string)
    ensures var needed := InstallNeeded(bot.language, FilesOf(w.os.dirs, bot.id));
      AfterEnsure(w, bot, run, now).botErrors
        == AppendAt(w.botErrors, bot.id, StampedErrors(now, if needed then InstallErrorLines(bot.language, run) else []), ErrorCap)
  {
    var language := bot.language;
    var id := bot.id;
    if InstallNeeded(language, FilesOf(w.os.dirs, id)) {
      var errOutput := ErrorOutputLines(language, run.output);
      var announced := AfterAddLog(w, id, Info, Announcement(language), now);
      OutputErrorsRecorded(announced, id, language, run.output, now);
      var failure := InstallFailure(language, run);
      if failure.None? {
        assert InstallErrorLines(language, run) == errOutput;
      } else {
        AppendStampedErrorsOne(w.botErrors, id, now, errOutput, InstallFailedPrefix + failure.value, ErrorCap);
        assert InstallErrorLines(language, run) == errOutput + [InstallFailedPrefix + failure.value];
      }
    } else {
      StampedConcat(now, "", [], []);
    }
  }

  /** Of the host, only the bot's directory changes, and only by what the
      installer leaves in it. */
  lemma EnsureHost(w: World, bot: BotConfig, run: InstallRun, now: string)
    ensures var needed := InstallNeeded(bot.language, FilesOf(w.os.dirs, bot.id));
      AfterEnsure(w, bot, run, now).os
        == if needed then w.os.(dirs := w.os.dirs[bot.id := FilesAfterInstall(bot.language, w.os.dirs[bot.id], run)]) else w.os
  {
    if InstallNeeded(bot.language, FilesOf(w.os.dirs, bot.id)) {
      var announced := AfterAddLog(w, bot.id, Info, Announcement(bot.language), now);
      var output := AfterOutput(announced, bot.id, bot.language, run.output, now);
      var ended := AfterInstallEnd(output, bot.id, bot.language, InstallFailure(bot.language, run), now);
      assert ended.os == w.os;
      InstallLeaves(w.os, bot.id, bot.language, run);
    }
  }

  /** The folder an npm run leaves is FilesAfterInstall's. */
  lemma InstallLeaves(m: Machine, id: BotId, language: Language, run: InstallRun)
    requires id in m.dirs && InstallNeeded(language, Some(m.dirs[id]))
    ensures (if IsNode(language) && run.modules then AfterWrite(m, id, map["node_modules" := Folder]) else m)
      == m.(dirs := m.dirs[id := FilesAfterInstall(language, m.dirs[id], run)])
  {
    var files := m.dirs[id];
    if IsNode(language) && run.modules {
      assert files + map["node_modules" := Folder] == files["node_modules" := Folder];
    } else {
      assert m.dirs[id := files] == m.dirs;
    }
  }

  /** The installation registers nothing and only ever adds emits, none
      without a socket.io server. */
  lemma EnsureFrame(w: World, bot: BotConfig, run: InstallRun, now: string)
    ensures var w' := AfterEnsure(w, bot, run, now);
      && w'.io == w.io && w'.root == w.root && w'.bots == w.bots && w'.botProcesses == w.botProcesses
      && w.events <= w'.events && (!w.io ==> w'.events == w.events)
  {
    if InstallNeeded(bot.language, FilesOf(w.os.dirs, bot.id)) {
      var announced := AfterAddLog(w, bot.id, Info, Announcement(bot.language), now);
      var output := AfterOutput(announced, bot.id, bot.language, run.output, now);
      assert w.events <= announced.events <= output.events;
      InstallEndFrame(output, bot.id, bot.language, InstallFailure(bot.language, run), now);
    }
  }

  lemma InstallEndFrame(w: World, id: BotId, language: Language, failure: Option<string>, now: string)
    ensures var w' := AfterInstallEnd(w, id, language, failure, now);
      && w'.io == w.io && w'.root == w.root && w'.bots == w.bots && w'.botProcesses == w.botProcesses
      && w.events <= w'.events && (!w.io ==> w'.events == w.events)
  {
  }

  // the PID file of an earlier process

  /** startBot's handling of a PID file left by an earlier process: SIGTERM,
      and SIGKILL when that was delivered, to the group it names, then the
      file is removed (an unreadable one only removed). */
  function AfterReap(m: Machine, id: BotId): Machine {
    if id !in m.pidFiles then m
    else
      var signalled := match m.pidFiles[id]
        case Readable(text) => AfterEscalate(m, Neg(ParseInt(text)))
        case Unreadable => m;
      AfterUnlink(signalled, id)
  }

  /** The PID file is gone afterwards, and the group it named, if alive, is dead. */
  lemma ReapEffect(m: Machine, id: BotId)
    ensures AfterReap(m, id).live == AfterMarker(FileAt(m.pidFiles, id), m.live)
    ensures AfterReap(m, id).pidFiles == m.pidFiles - {id}
    ensures AfterReap(m, id).dirs == m.dirs && AfterReap(m, id).onTerm == m.onTerm
  {
    if id in m.pidFiles && m.pidFiles[id].Readable? {
      EscalateEffect(m, Neg(ParseInt(m.pidFiles[id].text)));
    }
  }

  // the spawn

  /** The pid of the child spawn returned (undefined when the program cannot
      be run). */
  function SpawnPid(spawn: SpawnOutcome): Option<int> {
    if spawn.Spawned? then Some(spawn.pid) else None
  }

  /** The message of the 'error' event that follows a spawn of a program
      that cannot be run. */
  function LaunchError(spawn: SpawnOutcome): Option<string> {
    if spawn.Unrunnable? then Some(spawn.message) else None
  }

  /** The error lines the child's 'error' listener adds during a launch. */
  function ProcessErrorLines(spawn: SpawnOutcome): seq<string> {
    if spawn.Unrunnable? then [ProcessErrorPrefix + spawn.message] else []
  }

  /** The process spawn created, and the PID file written for it. */
  function AfterRecordSpawn(m: Machine, id: BotId, pid: Option<int>): Machine {
    AfterWritePid(if pid.Some? then AfterSpawn(m, pid.value) else m, id, PidText(pid))
  }

  /** A spawn that returned: the child is registered and its PID file
      written; the 'error' event of a program that cannot be run, arriving
      while that write is awaited, is recorded and deregisters the child
      (its listener attached before the write); then the start is logged and
      the bot reported running. */
  function AfterLaunch(w: World, id: BotId, child: Child, error: Option<string>, now: string): World {
    var registered := w.(botProcesses := w.botProcesses[id := child], os := AfterRecordSpawn(w.os, id, child.pid));
    var handled := if error.Some? then AfterProcessError(registered, id, error.value, now) else registered;
    var logged := AfterAddLog(handled, id, Info, StartedMessage, now);
    logged.(events := logged.events + if w.io then [StatusEvent(id, Running)] else [])
  }

  /** What startBot returns once the installation is over. */
  function SpawnResult(failure: Option<string>, spawn: SpawnOutcome): Outcome {
    if failure.Some? then Failed(failure.value)
    else match spawn
      case SpawnThrows(m) => Failed(SpawnFailedPrefix + m)
      case Spawned(_) => Ok
      case Unrunnable(_) => Ok
  }

  /** After the installation: its failure, a spawn that throws, or the launch. */
  function AfterTrySpawn(w: World, id: BotId, failure: Option<string>, child: Child, spawn: SpawnOutcome, now: string): World {
    var r := SpawnResult(failure, spawn);
    if r.Ok? then AfterLaunch(w, id, child, LaunchError(spawn), now)
    else AfterAddError(w, id, StartFailedPrefix + r.error, now)
  }

  /** How startBot ends from the spawn on: with its reply, or with the host
      process exiting before it replies. */
  datatype Run = Replied(state: World, reply: Outcome) | HostExits

  /** The spawn as src/botManager.js:582-646 orders it, the 'error' listener
      attached only after the PID file is written. The 'error' event of a
      program that cannot be run is emitted while that write is awaited,
      finds no listener, and the EventEmitter's throw is not caught anywhere:
      the host process exits. */
  function TrySpawnAsWritten(w: World, id: BotId, failure: Option<string>, child: Child, spawn: SpawnOutcome, now: string): Run {
    if failure.Some? then Replied(AfterAddError(w, id, StartFailedPrefix + failure.value, now), Failed(failure.value))
    else match spawn
      case SpawnThrows(m) =>
        var thrown := SpawnFailedPrefix + m;
        Replied(AfterAddError(w, id, StartFailedPrefix + thrown, now), Failed(thrown))
      case Spawned(_) => Replied(AfterLaunch(w, id, child, None, now), Ok)
      case Unrunnable(_) => HostExits
  }

  /** As written, a program that cannot be run (a php bot on a host without
      php, say) ends the host before startBot logs the start or replies; for
      every other spawn the code as written and AfterTrySpawn agree. */
  lemma TrySpawnAsWrittenDiffers(w: World, id: BotId, failure: Option<string>, child: Child, spawn: SpawnOutcome, now: string)
    ensures failure.None? && spawn.Unrunnable? ==> TrySpawnAsWritten(w, id, failure, child, spawn, now) == HostExits
    ensures !(failure.None? && spawn.Unrunnable?) ==>
      TrySpawnAsWritten(w, id, failure, child, spawn, now) == Replied(AfterTrySpawn(w, id, failure, child, spawn, now), SpawnResult(failure, spawn))
  {
  }

  /** The child startBot registers for a spawn that returned. */
  function LaunchedChild(language: Language, dir: string, env: Env, spawn: SpawnOutcome): Child {
    Child(SpawnPid(spawn), Launch(language), dir, env)
  }

  /** The dependency installation (which addresses the bot by its
      configuration's id) and what follows it (by the id startBot was given). */
  function AfterInstallAndSpawn(w: World, id: BotId, bot: BotConfig, env: Env, install: InstallRun, spawn: SpawnOutcome, now: string): World {
    var failure := DependencyFailure(bot.language, FilesOf(w.os.dirs, bot.id), install);
    var child := LaunchedChild(bot.language, BotDir(w.root, id), env, spawn);
    AfterTrySpawn(AfterEnsure(w, bot, install, now), id, failure, child, spawn, now)
  }

  /** startBot once the directory and the entry file are found: the PID file
      of an earlier process, the child's environment, then the rest. */
  function AfterProbed(w: World, id: BotId, processEnv: Env, install: InstallRun, spawn: SpawnOutcome, now: string): World
    requires id in w.bots
  {
    var bot := w.bots[id];
    AfterInstallAndSpawn(w.(os := AfterReap(w.os, id)), id, bot, ChildEnv(processEnv, bot), install, spawn, now)
  }

  /** startBot. */
  function AfterStart(w: World, id: BotId, processEnv: Env, install: InstallRun, spawn: SpawnOutcome, now: string): World {
    if id in w.botProcesses || id !in w.bots then w
    else
      var language := w.bots[id].language;
      var dir := BotDir(w.root, id);
      if id !in w.os.dirs then AfterAddError(w, id, StartFailedPrefix + StageError(NoDirectory, dir, language), now)
      else if EntryFile(language) !in w.os.dirs[id] then AfterAddError(w, id, StartFailedPrefix + StageError(NoEntryFile, dir, language), now)
      else AfterProbed(w, id, processEnv, install, spawn, now)
  }

  /** What startBot returns. */
  function StartResult(w: World, id: BotId, install: InstallRun, spawn: SpawnOutcome): Outcome {
    if id in w.botProcesses then Failed(AlreadyRunning)
    else if id !in w.bots then Failed(NotFound)
    else
      var language := w.bots[id].language;
      var stage := StartStage(FilesOf(w.os.dirs, id), language, install, spawn);
      if Launched(stage) then Ok else Failed(StageError(stage, BotDir(w.root, id), language))
  }

  /** A launch adds the child's PID file and its process. The child stays
      registered unless an 'error' event arrives, which is recorded and
      deregisters it. The start is logged and emitted, and the bot reported
      running. */
  lemma LaunchEffect(w: World, id: BotId, child: Child, error: Option<string>, now: string)
    requires id in w.os.dirs
    ensures var w' := AfterLaunch(w, id, child, error, now);
      && w'.botProcesses == (if error.Some? then w.botProcesses - {id} else w.botProcesses[id := child])
      && w'.botLogs == AppendAt(w.botLogs, id, [LogEntry(now, Info, StartedMessage)], LogCap)
      && w'.botErrors == (if error.Some? then AppendAt(w.botErrors, id, [ErrorEntry(now, ProcessErrorPrefix + error.value)], ErrorCap) else w.botErrors)
      && w'.os.pidFiles == w.os.pidFiles[id := Readable(PidText(child.pid))]
      && w'.os.live == w.os.live + (if child.pid.Some? then {child.pid.value} else {})
      && w'.os.dirs == w.os.dirs && w'.os.onTerm == w.os.onTerm && w'.os.sent == w.os.sent
      && w'.io == w.io && w'.root == w.root && w'.bots == w.bots
      && w'.events == w.events
        + if w.io then (if error.Some? then [ErrorEvent(id, ErrorEntry(now, ProcessErrorPrefix + error.value))] else [])
          + [LogEvent(id, LogEntry(now, Info, StartedMessage)), StatusEvent(id, Running)] else []
  {
  }

  /** After the installation, the log gains the start line exactly when the
      start succeeds. */
  lemma InstallAndSpawnLogs(w: World, bot: BotConfig, env: Env, install: InstallRun, spawn: SpawnOutcome, now: string)
    ensures var needed := InstallNeeded(bot.language, FilesOf(w.os.dirs, bot.id));
      var r := SpawnResult(DependencyFailure(bot.language, FilesOf(w.os.dirs, bot.id), install), spawn);
      AfterInstallAndSpawn(w, bot.id, bot, env, install, spawn, now).botLogs
        == AppendAt(w.botLogs, bot.id, Stamped(now, Info,
          (if needed then InstallLogLines(bot.language, install) else []) + (if r.Ok? then [StartedMessage] else [])), LogCap)
  {
    var needed := InstallNeeded(bot.language, FilesOf(w.os.dirs, bot.id));
    var logLines := if needed then InstallLogLines(bot.language, install) else [];
    EnsureLogs(w, bot, install, now);
    if SpawnResult(DependencyFailure(bot.language, FilesOf(w.os.dirs, bot.id), install), spawn).Ok? {
      AppendStampedOne(w.botLogs, bot.id, now, Info, logLines, StartedMessage, LogCap);
    } else {
      assert logLines + [] == logLines;
    }
  }

  /** ... and the error history the failure exactly when it fails. */
  lemma InstallAndSpawnErrors(w: World, bot: BotConfig, env: Env, install: InstallRun, spawn: SpawnOutcome, now: string)
    ensures var needed := InstallNeeded(bot.language, FilesOf(w.os.dirs, bot.id));
      var r := SpawnResult(DependencyFailure(bot.language, FilesOf(w.os.dirs, bot.id), install), spawn);
      AfterInstallAndSpawn(w, bot.id, bot, env, install, spawn, now).botErrors
        == AppendAt(w.botErrors, bot.id, StampedErrors(now,
          (if needed then InstallErrorLines(bot.language, install) else []) + (if r.Ok? then ProcessErrorLines(spawn) else [StartFailedPrefix + r.error])), ErrorCap)
  {
    var needed := InstallNeeded(bot.language, FilesOf(w.os.dirs, bot.id));
    var errLines := if needed then InstallErrorLines(bot.language, install) else [];
    EnsureErrors(w, bot, install, now);
    var r := SpawnResult(DependencyFailure(bot.language, FilesOf(w.os.dirs, bot.id), install), spawn);
    if r.Ok? && spawn.Unrunnable? {
      AppendStampedErrorsOne(w.botErrors, bot.id, now, errLines, ProcessErrorPrefix + spawn.message, ErrorCap);
    } else if r.Ok? {
      assert errLines + [] == errLines;
    } else {
      AppendStampedErrorsOne(w.botErrors, bot.id, now, errLines, StartFailedPrefix + r.error, ErrorCap);
    }
  }

  /** The child is registered, with its PID file and its process, exactly
      when the start succeeds; nothing else is registered. */
  lemma InstallAndSpawnRegisters(w: World, bot: BotConfig, env: Env, install: InstallRun, spawn: SpawnOutcome, now: string)
    requires bot.id in w.os.dirs
    ensures var w' := AfterInstallAndSpawn(w, bot.id, bot, env, install, spawn, now);
      var r := SpawnResult(DependencyFailure(bot.language, FilesOf(w.os.dirs, bot.id), install), spawn);
      && w'.botProcesses == (if r.Ok? && spawn.Spawned? then w.botProcesses[bot.id := LaunchedChild(bot.language, BotDir(w.root, bot.id), env, spawn)]
        else if r.Ok? then w.botProcesses - {bot.id} else w.botProcesses)
      && w'.os.pidFiles == (if r.Ok? then w.os.pidFiles[bot.id := Readable(PidText(SpawnPid(spawn)))] else w.os.pidFiles)
      && w'.os.live == w.os.live + (if r.Ok? && spawn.Spawned? then {spawn.pid} else {})
      && w'.io == w.io && w'.root == w.root && w'.bots == w.bots
  {
    var installed := AfterEnsure(w, bot, install, now);
    EnsureHost(w, bot, install, now);
    EnsureFrame(w, bot, install, now);
    if SpawnResult(DependencyFailure(bot.language, FilesOf(w.os.dirs, bot.id), install), spawn).Ok? {
      LaunchEffect(installed, bot.id, LaunchedChild(bot.language, BotDir(w.root, bot.id), env, spawn), LaunchError(spawn), now);
    }
  }

  /** The directory changes only by the installation, and the emits only grow,
      ending with the bot reported running when it started. */
  lemma InstallAndSpawnRest(w: World, bot: BotConfig, env: Env, install: InstallRun, spawn: SpawnOutcome, now: string)
    requires bot.id in w.os.dirs
    ensures var w' := AfterInstallAndSpawn(w, bot.id, bot, env, install, spawn, now);
      var needed := InstallNeeded(bot.language, FilesOf(w.os.dirs, bot.id));
      var r := SpawnResult(DependencyFailure(bot.language, FilesOf(w.os.dirs, bot.id), install), spawn);
      && w'.os.dirs == (if needed then w.os.dirs[bot.id := FilesAfterInstall(bot.language, w.os.dirs[bot.id], install)] else w.os.dirs)
      && w'.os.onTerm == w.os.onTerm
      && w.events <= w'.events && (!w.io ==> w'.events == w.events)
      && (w.io && r.Ok? ==> w'.events[|w'.events| - 1] == StatusEvent(bot.id, Running))
  {
    var installed := AfterEnsure(w, bot, install, now);
    EnsureHost(w, bot, install, now);
    EnsureFrame(w, bot, install, now);
    if SpawnResult(DependencyFailure(bot.language, FilesOf(w.os.dirs, bot.id), install), spawn).Ok? {
      LaunchEffect(installed, bot.id, LaunchedChild(bot.language, BotDir(w.root, bot.id), env, spawn), LaunchError(spawn), now);
    }
  }

  // startBot as a whole

  /** A start attempt on a bot that is running, or that does not exist,
      changes nothing. */
  lemma StartGuards(w: World, id: BotId, processEnv: Env, install: InstallRun, spawn: SpawnOutcome, now: string)
    ensures id in w.botProcesses ==>
      AfterStart(w, id, processEnv, install, spawn, now) == w && StartResult(w, id, install, spawn) == Failed(AlreadyRunning)
    ensures id !in w.botProcesses && id !in w.bots ==>
      AfterStart(w, id, processEnv, install, spawn, now) == w && StartResult(w, id, install, spawn) == Failed(NotFound)
  {
  }

  /** The bot a start attempt works on: a known bot that is not running. */
  predicate Startable(w: World, id: BotId) {
    id !in w.botProcesses && id in w.bots && w.bots[id].id == id
  }

  function StageOf(w: World, id: BotId, install: InstallRun, spawn: SpawnOutcome): Stage
    requires id in w.bots
  {
    StartStage(FilesOf(w.os.dirs, id), w.bots[id].language, install, spawn)
  }

  /** After the file checks, how far the start gets is what SpawnResult says. */
  lemma ProbedStage(w: World, id: BotId, install: InstallRun, spawn: SpawnOutcome)
    requires id in w.bots && Probed(StageOf(w, id, install, spawn))
    ensures var language := w.bots[id].language;
      var r := SpawnResult(DependencyFailure(language, FilesOf(w.os.dirs, id), install), spawn);
      var stage := StageOf(w, id, install, spawn);
      && (r.Ok? <==> Launched(stage))
      && (r.Failed? ==> r.error == StageError(stage, BotDir(w.root, id), language))
      && (stage.Started? ==> spawn == Spawned(stage.pid))
      && (stage.CannotRun? ==> spawn == Unrunnable(stage.message))
  {
  }

  /** A start attempt on a known bot that is not running fails at the file
      checks with its error recorded, or gets past them. */
  lemma StartCases(w: World, id: BotId, processEnv: Env, install: InstallRun, spawn: SpawnOutcome, now: string)
    requires Startable(w, id)
    ensures var stage := StageOf(w, id, install, spawn);
      AfterStart(w, id, processEnv, install, spawn, now)
        == if Probed(stage) then AfterProbed(w, id, processEnv, install, spawn, now)
          else AfterAddError(w, id, StartFailedPrefix + StageError(stage, BotDir(w.root, id), w.bots[id].language), now)
  {
  }

  /** Past the file checks, the log gains the installer's lines and the
      start line. */
  lemma ProbedLogs(w: World, id: BotId, processEnv: Env, install: InstallRun, spawn: SpawnOutcome, now: string)
    requires Startable(w, id) && Probed(StageOf(w, id, install, spawn))
    ensures AfterProbed(w, id, processEnv, install, spawn, now).botLogs
      == AppendAt(w.botLogs, id, Stamped(now, Info, StartLogLines(StageOf(w, id, install, spawn), FilesOf(w.os.dirs, id), w.bots[id].language, install)), LogCap)
  {
    var bot := w.bots[id];
    ReapEffect(w.os, id);
    InstallAndSpawnLogs(w.(os := AfterReap(w.os, id)), bot, ChildEnv(processEnv, bot), install, spawn, now);
    ProbedStage(w, id, install, spawn);
  }

  /** A start attempt adds StartLogLines to the bot's log. */
  lemma StartLogs(w: World, id: BotId, processEnv: Env, install: InstallRun, spawn: SpawnOutcome, now: string)
    requires Startable(w, id)
    ensures AfterStart(w, id, processEnv, install, spawn, now).botLogs
      == AppendAt(w.botLogs, id, Stamped(now, Info, StartLogLines(StageOf(w, id, install, spawn), FilesOf(w.os.dirs, id), w.bots[id].language, install)), LogCap)
  {
    StartCases(w, id, processEnv, install, spawn, now);
    if Probed(StageOf(w, id, install, spawn)) {
      ProbedLogs(w, id, processEnv, install, spawn, now);
    } else {
      StampedConcat(now, Info, [], []);
    }
  }

  /** Past the file checks, the error history gains the installer's lines
      and the failure. */
  lemma ProbedErrors(w: World, id: BotId, processEnv: Env, install: InstallRun, spawn: SpawnOutcome, now: string)
    requires Startable(w, id) && Probed(StageOf(w, id, install, spawn))
    ensures AfterProbed(w, id, processEnv, install, spawn, now).botErrors
      == AppendAt(w.botErrors, id, StampedErrors(now, StartErrorLines(StageOf(w, id, install, spawn), FilesOf(w.os.dirs, id), w.bots[id].language, install, BotDir(w.root, id))), ErrorCap)
  {
    var bot := w.bots[id];
    ReapEffect(w.os, id);
    InstallAndSpawnErrors(w.(os := AfterReap(w.os, id)), bot, ChildEnv(processEnv, bot), install, spawn, now);
    ProbedStage(w, id, install, spawn);
  }

  /** ... and StartErrorLines to its error history. */
  lemma StartErrors(w: World, id: BotId, processEnv: Env, install: InstallRun, spawn: SpawnOutcome, now: string)
    requires Startable(w, id)
    ensures AfterStart(w, id, processEnv, install, spawn, now).botErrors
      == AppendAt(w.botErrors, id, StampedErrors(now, StartErrorLines(StageOf(w, id, install, spawn), FilesOf(w.os.dirs, id), w.bots[id].language, install, BotDir(w.root, id))), ErrorCap)
  {
    StartCases(w, id, processEnv, install, spawn, now);
    var stage := StageOf(w, id, install, spawn);
    if Probed(stage) {
      ProbedErrors(w, id, processEnv, install, spawn, now);
    } else {
      var line := StartFailedPrefix + StageError(stage, BotDir(w.root, id), w.bots[id].language);
      assert StartErrorLines(stage, FilesOf(w.os.dirs, id), w.bots[id].language, install, BotDir(w.root, id)) == [line];
      StampedConcat(now, "", [], [line]);
    }
  }

  /** Past the file checks, the child is registered exactly when a process
      runs, and no other registration changes. */
  lemma ProbedRegisters(w: World, id: BotId, processEnv: Env, install: InstallRun, spawn: SpawnOutcome, now: string)
    requires Startable(w, id) && Probed(StageOf(w, id, install, spawn))
    ensures var w' := AfterProbed(w, id, processEnv, install, spawn, now);
      var bot := w.bots[id];
      && w'.botProcesses == (if StageOf(w, id, install, spawn).Started?
        then w.botProcesses[id := LaunchedChild(bot.language, BotDir(w.root, id), ChildEnv(processEnv, bot), spawn)]
        else w.botProcesses)
      && w'.bots == w.bots && w'.io == w.io && w'.root == w.root
  {
    var bot := w.bots[id];
    ReapEffect(w.os, id);
    InstallAndSpawnRegisters(w.(os := AfterReap(w.os, id)), bot, ChildEnv(processEnv, bot), install, spawn, now);
    ProbedStage(w, id, install, spawn);
    if StageOf(w, id, install, spawn).CannotRun? {
      assert w.botProcesses - {id} == w.botProcesses;
    }
  }

  /** Past the file checks, the PID file of an earlier process is handled
      first; a launch then writes the new one, and a process that runs is
      alive. */
  lemma ProbedRecordsPid(w: World, id: BotId, processEnv: Env, install: InstallRun, spawn: SpawnOutcome, now: string)
    requires Startable(w, id) && Probed(StageOf(w, id, install, spawn))
    ensures var w' := AfterProbed(w, id, processEnv, install, spawn, now);
      var stage := StageOf(w, id, install, spawn);
      && w'.os.pidFiles == (if Launched(stage) then w.os.pidFiles[id := Readable(PidText(SpawnPid(spawn)))] else w.os.pidFiles - {id})
      && w'.os.live == AfterMarker(FileAt(w.os.pidFiles, id), w.os.live) + (if stage.Started? then {stage.pid} else {})
  {
    var bot := w.bots[id];
    ReapEffect(w.os, id);
    InstallAndSpawnRegisters(w.(os := AfterReap(w.os, id)), bot, ChildEnv(processEnv, bot), install, spawn, now);
    ProbedStage(w, id, install, spawn);
  }

  /** The bot is registered, with the child spawn returned, exactly when the
      start succeeds, and no other registration changes. Past the file
      checks, the PID file of an earlier process is gone and the group it
      named, if alive, is dead; a successful start leaves the new child alive
      with a PID file naming it. */
  lemma StartRegisters(w: World, id: BotId, processEnv: Env, install: InstallRun, spawn: SpawnOutcome, now: string)
    requires Startable(w, id)
    ensures var w' := AfterStart(w, id, processEnv, install, spawn, now);
      var bot := w.bots[id];
      var stage := StageOf(w, id, install, spawn);
      && w'.botProcesses == (if stage.Started?
        then w.botProcesses[id := LaunchedChild(bot.language, BotDir(w.root, id), ChildEnv(processEnv, bot), spawn)]
        else w.botProcesses)
      && w'.os.pidFiles == (if Launched(stage) then w.os.pidFiles[id := Readable(PidText(SpawnPid(spawn)))]
        else if Probed(stage) then w.os.pidFiles - {id} else w.os.pidFiles)
      && w'.os.live == (if Probed(stage) then AfterMarker(FileAt(w.os.pidFiles, id), w.os.live) else w.os.live)
        + (if stage.Started? then {stage.pid} else {})
      && w'.bots == w.bots && w'.io == w.io && w'.root == w.root
  {
    StartCases(w, id, processEnv, install, spawn, now);
    if Probed(StageOf(w, id, install, spawn)) {
      ProbedRegisters(w, id, processEnv, install, spawn, now);
      ProbedRecordsPid(w, id, processEnv, install, spawn, now);
    }
  }

  /** Past the file checks, the directory changes only by the installation,
      and the emits only grow, ending with the bot reported running when it
      started. */
  lemma ProbedRest(w: World, id: BotId, processEnv: Env, install: InstallRun, spawn: SpawnOutcome, now: string)
    requires Startable(w, id) && Probed(StageOf(w, id, install, spawn))
    ensures var w' := AfterProbed(w, id, processEnv, install, spawn, now);
      var language := w.bots[id].language;
      && w'.os.dirs == (if InstallNeeded(language, FilesOf(w.os.dirs, id))
        then w.os.dirs[id := FilesAfterInstall(language, w.os.dirs[id], install)] else w.os.dirs)
      && w'.os.onTerm == w.os.onTerm
      && w.events <= w'.events && (!w.io ==> w'.events == w.events)
      && (w.io && Launched(StageOf(w, id, install, spawn)) ==> |w'.events| > 0 && w'.events[|w'.events| - 1] == StatusEvent(id, Running))
  {
    var bot := w.bots[id];
    ReapEffect(w.os, id);
    InstallAndSpawnRest(w.(os := AfterReap(w.os, id)), bot, ChildEnv(processEnv, bot), install, spawn, now);
    ProbedStage(w, id, install, spawn);
  }

  /** The bot's directory changes only by what the installer leaves in it,
      and the emits only grow, ending with the bot reported running when it
      started. */
  lemma StartRest(w: World, id: BotId, processEnv: Env, install: InstallRun, spawn: SpawnOutcome, now: string)
    requires Startable(w, id)
    ensures var w' := AfterStart(w, id, processEnv, install, spawn, now);
      var stage := StageOf(w, id, install, spawn);
      var language := w.bots[id].language;
      && w'.os.dirs == (if Probed(stage) && InstallNeeded(language, FilesOf(w.os.dirs, id))
        then w.os.dirs[id := FilesAfterInstall(language, w.os.dirs[id], install)] else w.os.dirs)
      && w'.os.onTerm == w.os.onTerm
      && w.events <= w'.events && (!w.io ==> w'.events == w.events)
      && (w.io && Launched(stage) ==> |w'.events| > 0 && w'.events[|w'.events| - 1] == StatusEvent(id, Running))
  {
    StartCases(w, id, processEnv, install, spawn, now);
    if Probed(StageOf(w, id, install, spawn)) {
      ProbedRest(w, id, processEnv, install, spawn, now);
    }
  }

  /** What startBot returns agrees with what it did: success exactly when the
      bot got to the launch, the bot registered afterwards exactly when a
      process runs, the 'error' event's message closing the bot's error
      history when the program could not be run, and a failure's message
      closing it otherwise. */
  lemma StartOutcome(w: World, id: BotId, processEnv: Env, install: InstallRun, spawn: SpawnOutcome, now: string)
    requires Startable(w, id)
    ensures var w' := AfterStart(w, id, processEnv, install, spawn, now);
      var r := StartResult(w, id, install, spawn);
      var stage := StageOf(w, id, install, spawn);
      && (r.Ok? <==> Launched(stage))
      && (id in w'.botProcesses <==> stage.Started?)
      && (stage.CannotRun? ==>
        var errs := Lookup(w'.botErrors, id);
        |errs| > 0 && errs[|errs| - 1] == ErrorEntry(now, ProcessErrorPrefix + stage.message))
      && (r.Failed? ==>
        var errs := Lookup(w'.botErrors, id);
        |errs| > 0 && errs[|errs| - 1] == ErrorEntry(now, StartFailedPrefix + r.error))
  {
    StartRegisters(w, id, processEnv, install, spawn, now);
    if !StageOf(w, id, install, spawn).Started? {
      StartFailureRecorded(w, id, processEnv, install, spawn, now);
    }
  }

  /** A start that runs no process ends the bot's error history with why:
      the 'error' event's message, or the failure startBot reports. */
  lemma StartFailureRecorded(w: World, id: BotId, processEnv: Env, install: InstallRun, spawn: SpawnOutcome, now: string)
    requires Startable(w, id) && !StageOf(w, id, install, spawn).Started?
    ensures var errs := Lookup(AfterStart(w, id, processEnv, install, spawn, now).botErrors, id);
      var stage := StageOf(w, id, install, spawn);
      |errs| > 0 && errs[|errs| - 1] == ErrorEntry(now,
        if stage.CannotRun? then ProcessErrorPrefix + stage.message else StartFailedPrefix + StartResult(w, id, install, spawn).error)
  {
    var stage := StageOf(w, id, install, spawn);
    var language := w.bots[id].language;
    var files := FilesOf(w.os.dirs, id);
    var dir := BotDir(w.root, id);
    var last := if stage.CannotRun? then ProcessErrorPrefix + stage.message else StartFailedPrefix + StartResult(w, id, install, spawn).error;
    var lines := StartErrorLines(stage, files, language, install, dir);
    var prefix := if Probed(stage) && InstallNeeded(language, files) then InstallErrorLines(language, install) else [];
    if stage.CannotRun? {
      assert lines == prefix + [ProcessErrorPrefix + stage.message];
    } else {
      assert StartResult(w, id, install, spawn) == Failed(StageError(stage, dir, language));
      assert lines == prefix + [StartFailedPrefix + StageError(stage, dir, language)];
    }
    var stamped := StampedErrors(now, lines);
    assert |stamped| == |lines| && stamped[|stamped| - 1] == ErrorEntry(now, last);
    StartErrors(w, id, processEnv, install, spawn, now);
    var after := AfterStart(w, id, processEnv, install, spawn, now);
    assert after.botErrors == AppendAt(w.botErrors, id, stamped, ErrorCap);
    AppendAtLast(w.botErrors, id, stamped, ErrorCap);
  }
}
