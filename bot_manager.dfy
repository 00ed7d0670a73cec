/**
 * The BotManager class: the supervisor's four maps as fields, the host it
 * drives, and one method per operation. Every method is proved to move the
 * whole state exactly as the matching function of Supervisor, Starting,
 * Stopping or Lifecycle says; what those functions mean is proved there.
 *
 * The events the supervisor would wait for (the child's 'close' and 'error'
 * events and its output) are methods the environment calls; the installer's
 * run, what spawn() does and the clock are parameters.
 */
module Manager {
  import opened Optional
  import opened JsStrings
  import opened JsNumbers
  import opened Buffers
  import opened BotConfigs
  import opened ChildEnvironment
  import opened Provisioning
  import opened Os
  import opened Supervisor
  import opened Starting
  import opened Stopping
  import opened Lifecycle
  import opened Shutdown

  class BotManager {
    const host: Host
    /** Whether a socket.io server was given. */
    const hasIo: bool
    const botsDir: string
    var bots: map<BotId, BotConfig>
    var botProcesses: map<BotId, Child>
    var botLogs: map<BotId, seq<LogEntry>>
    var botErrors: map<BotId, seq<ErrorEntry>>
    /** Every emit, in order. */
    ghost var events: seq<Event>

    ghost function State(): World
      reads this, host
    {
      World(hasIo, botsDir, bots, botProcesses, botLogs, botErrors, events, host.State())
    }

    /** Each configuration is filed under its own id, every registered child
        that has a pid has a real one, the histories are within their caps,
        and the host is sane. */
    ghost predicate Valid()
      reads this, host
    {
      && host.Valid()
      && (forall id | id in bots :: bots[id].id == id)
      && (forall id | id in botProcesses && botProcesses[id].pid.Some? :: IsPid(botProcesses[id].pid.value))
      && (forall id | id in botLogs :: |botLogs[id]| <= LogCap)
      && (forall id | id in botErrors :: |botErrors[id]| <= ErrorCap)
    }

    constructor (host: Host, hasIo: bool, botsDir: string)
      requires host.Valid()
      ensures Valid()
      ensures State() == World(hasIo, botsDir, map[], map[], map[], map[], [], host.State())
    {
      this.host := host;
      this.hasIo := hasIo;
      this.botsDir := botsDir;
      bots := map[];
      botProcesses := map[];
      botLogs := map[];
      botErrors := map[];
      events := [];
    }

    // lookups

    /** getBotLogs: the bot's log, oldest first; empty for an unknown bot. */
    function GetBotLogs(botId: BotId): (r: seq<LogEntry>)
      requires Valid()
      reads this, host
      ensures |r| <= LogCap
      ensures botId !in botLogs ==> r == []
      ensures botId in botLogs ==> r == botLogs[botId]
    {
      Lookup(botLogs, botId)
    }

    /** getBotErrors: the bot's error history; empty for an unknown bot. */
    function GetBotErrors(botId: BotId): (r: seq<ErrorEntry>)
      requires Valid()
      reads this, host
      ensures |r| <= ErrorCap
      ensures botId !in botErrors ==> r == []
      ensures botId in botErrors ==> r == botErrors[botId]
    {
      Lookup(botErrors, botId)
    }

    /** getBotStatus: running exactly when a child is registered. */
    function GetBotStatus(botId: BotId): (s: Status)
      requires Valid()
      reads this, host
      ensures s.running <==> botId in botProcesses
      ensures s.logs == GetBotLogs(botId) && s.errors == GetBotErrors(botId)
    {
      Status(botId in botProcesses, GetBotLogs(botId), GetBotErrors(botId))
    }

    // the histories

    /** addLog: push onto the bot's log, drop the oldest entries beyond the
        cap, and emit the entry. */
    method AddLog(botId: BotId, level: string, message: string, now: string)
      requires Valid()
      modifies this
      ensures Valid()
      ensures State() == AfterAddLog(old(State()), botId, level, message, now)
    {
      var entry := LogEntry(now, level, message);
      var logs := Lookup(botLogs, botId);
      logs := logs + [entry];
      KeepNewestSuffix(logs, LogCap);
      if |logs| > LogCap {
        logs := logs[|logs| - LogCap..];
      }
      botLogs := botLogs[botId := logs];
      Emit(LogEvent(botId, entry));
    }

    /** addError: the same for the error history and its cap. */
    method AddError(botId: BotId, error: string, now: string)
      requires Valid()
      modifies this
      ensures Valid()
      ensures State() == AfterAddError(old(State()), botId, error, now)
    {
      var entry := ErrorEntry(now, error);
      var errors := Lookup(botErrors, botId);
      errors := errors + [entry];
      KeepNewestSuffix(errors, ErrorCap);
      if |errors| > ErrorCap {
        errors := errors[|errors| - ErrorCap..];
      }
      botErrors := botErrors[botId := errors];
      Emit(ErrorEvent(botId, entry));
    }

    /** An emit to the bot's room, when there is a socket.io server. */
    method Emit(e: Event)
      modifies this
      ensures events == old(events) + if hasIo then [e] else []
      ensures bots == old(bots) && botProcesses == old(botProcesses)
      ensures botLogs == old(botLogs) && botErrors == old(botErrors)
    {
      if hasIo {
        events := events + [e];
      }
    }

    // the child's events

    /** A chunk of the child's stdout: logged, trimmed, at level info. */
    method OnStdout(botId: BotId, data: string, now: string)
      requires Valid()
      modifies this
      ensures Valid()
      ensures State() == AfterAddLog(old(State()), botId, Info, Trim(data), now)
    {
      AddLog(botId, Info, Trim(data), now);
    }

    /** A chunk of the child's stderr: recorded, trimmed, as an error. */
    method OnStderr(botId: BotId, data: string, now: string)
      requires Valid()
      modifies this
      ensures Valid()
      ensures State() == AfterAddError(old(State()), botId, Trim(data), now)
    {
      AddError(botId, Trim(data), now);
    }

    /** The child's 'close' event. */
    method OnClose(botId: BotId, code: Option<int>, now: string)
      requires Valid()
      modifies this, host
      ensures Valid()
      ensures State() == AfterClose(old(State()), botId, code, now)
    {
      botProcesses := botProcesses - {botId};
      host.RemovePidFile(botId);
      AddLog(botId, Info, ExitMessage(code), now);
      Emit(StatusEvent(botId, Stopped));
    }

    /** The child's 'error' event. */
    method OnError(botId: BotId, message: string, now: string)
      requires Valid()
      modifies this
      ensures Valid()
      ensures State() == AfterProcessError(old(State()), botId, message, now)
    {
      AddError(botId, ProcessErrorPrefix + message, now);
      botProcesses := botProcesses - {botId};
    }

    // ensureDependencies

    /** The installer's output, chunk by chunk, into the bot's histories. */
    method RecordInstallerOutput(botId: BotId, language: Language, output: seq<Chunk>, now: string)
      requires Valid()
      modifies this
      ensures Valid()
      ensures State() == AfterOutput(old(State()), botId, language, output, now)
    {
      for i := 0 to |output|
        invariant Valid()
        invariant State() == AfterOutput(old(State()), botId, language, output[..i], now)
      {
        var c := output[i];
        assert output[..i + 1][..i] == output[..i];
        if IsNode(language) || c.stream == Stdout {
          AddLog(botId, Info, c.text, now);
        } else {
          AddError(botId, c.text, now);
        }
      }
      assert output[..|output|] == output;
    }

    /** ensureDependencies: run the installer when the bot needs one; report
        the failure it records, if any. */
    method EnsureDependencies(bot: BotConfig, run: InstallRun, now: string) returns (failure: Option<string>)
      requires Valid()
      modifies this, host
      ensures Valid()
      ensures failure == DependencyFailure(bot.language, FilesOf(old(host.dirs), bot.id), run)
      ensures State() == AfterEnsure(old(State()), bot, run, now)
    {
      if !InstallNeeded(bot.language, FilesOf(host.dirs, bot.id)) {
        return None;
      }
      AddLog(bot.id, Info, Announcement(bot.language), now);
      RecordInstallerOutput(bot.id, bot.language, run.output, now);
      failure := InstallFailure(bot.language, run);
      match failure {
        case None =>
          AddLog(bot.id, Info, Completion(bot.language), now);
        case Some(m) =>
          AddError(bot.id, InstallFailedPrefix + m, now);
      }
      if IsNode(bot.language) && run.modules {
        host.WriteFiles(bot.id, map["node_modules" := Folder]);
      }
    }

    // startBot

    /** startBot's handling of a PID file left by an earlier process. */
    method ReapStaleProcess(botId: BotId)
      requires Valid()
      modifies host
      ensures Valid()
      ensures State() == old(State()).(os := AfterReap(old(State()).os, botId))
    {
      if botId in host.pidFiles {
        match host.pidFiles[botId] {
          case Readable(text) =>
            var _ := host.Escalate(Neg(ParseInt(text)));
          case Unreadable =>
        }
        host.RemovePidFile(botId);
      }
    }

    /** A spawn that returned: register the child and write its PID file,
        meanwhile handling the 'error' event of a program that cannot be run,
        then log the start and report the bot running. */
    method LaunchChild(botId: BotId, child: Child, error: Option<string>, now: string)
      requires Valid()
      requires child.pid.Some? ==> IsPid(child.pid.value) && child.pid.value !in host.live
      modifies this, host
      ensures Valid()
      ensures State() == AfterLaunch(old(State()), botId, child, error, now)
    {
      botProcesses := botProcesses[botId := child];
      if child.pid.Some? {
        host.Spawned(child.pid.value);
      }
      host.WritePidFile(botId, PidText(child.pid));
      if error.Some? {
        OnError(botId, error.value, now);
      }
      AddLog(botId, Info, StartedMessage, now);
      Emit(StatusEvent(botId, Running));
    }

    /** After the installation: its failure, a spawn that throws, or the launch. */
    method TrySpawn(botId: BotId, failure: Option<string>, child: Child, spawn: SpawnOutcome, now: string) returns (r: Outcome)
      requires Valid()
      requires SpawnResult(failure, spawn).Ok? && child.pid.Some? ==> IsPid(child.pid.value) && child.pid.value !in host.live
      modifies this, host
      ensures Valid()
      ensures r == SpawnResult(failure, spawn)
      ensures State() == AfterTrySpawn(old(State()), botId, failure, child, spawn, now)
    {
      if failure.Some? {
        r := Failed(failure.value);
      } else {
        match spawn {
          case SpawnThrows(m) => r := Failed(SpawnFailedPrefix + m);
          case Spawned(_) => r := Ok;
          case Unrunnable(_) => r := Ok;
        }
      }
      if r.Ok? {
        LaunchChild(botId, child, LaunchError(spawn), now);
      } else {
        AddError(botId, StartFailedPrefix + r.error, now);
      }
    }

    /** The dependency installation, then the spawn. */
    method InstallAndSpawn(botId: BotId, bot: BotConfig, env: Env, install: InstallRun, spawn: SpawnOutcome, now: string) returns (r: Outcome)
      requires Valid()
      requires spawn.Spawned? ==> IsPid(spawn.pid) && spawn.pid !in host.live
      modifies this, host
      ensures Valid()
      ensures r == SpawnResult(DependencyFailure(bot.language, FilesOf(old(host.dirs), bot.id), install), spawn)
      ensures State() == AfterInstallAndSpawn(old(State()), botId, bot, env, install, spawn, now)
    {
      EnsureHost(State(), bot, install, now);
      var failure := EnsureDependencies(bot, install, now);
      r := TrySpawn(botId, failure, LaunchedChild(bot.language, BotDir(botsDir, botId), env, spawn), spawn, now);
    }

    /** startBot once the directory and the entry file are found. */
    method StartProbed(botId: BotId, processEnv: Env, install: InstallRun, spawn: SpawnOutcome, now: string) returns (r: Outcome)
      requires Valid() && botId in bots
      requires spawn.Spawned? ==> IsPid(spawn.pid) && spawn.pid !in host.live
      modifies this, host
      ensures Valid()
      ensures r == SpawnResult(DependencyFailure(old(bots[botId]).language, FilesOf(old(host.dirs), botId), install), spawn)
      ensures State() == AfterProbed(old(State()), botId, processEnv, install, spawn, now)
    {
      var bot := bots[botId];
      ReapEffect(host.State(), botId);
      ReapStaleProcess(botId);
      var env := BuildChildEnv(processEnv, bot);
      r := InstallAndSpawn(botId, bot, env, install, spawn, now);
    }

    /** startBot. `spawn` is what spawn() does; a pid it returns is a fresh one. */
    method StartBot(botId: BotId, processEnv: Env, install: InstallRun, spawn: SpawnOutcome, now: string) returns (r: Outcome)
      requires Valid()
      requires spawn.Spawned? ==> IsPid(spawn.pid) && spawn.pid !in host.live
      modifies this, host
      ensures Valid()
      ensures r == StartResult(old(State()), botId, install, spawn)
      ensures State() == AfterStart(old(State()), botId, processEnv, install, spawn, now)
    {
      if botId in botProcesses {
        return Failed(AlreadyRunning);
      }
      if botId !in bots {
        return Failed(NotFound);
      }
      var language := bots[botId].language;
      var dir := BotDir(botsDir, botId);
      if botId !in host.dirs {
        r := Failed(StageError(NoDirectory, dir, language));
        AddError(botId, StartFailedPrefix + r.error, now);
        return;
      }
      if EntryFile(language) !in host.dirs[botId] {
        r := Failed(StageError(NoEntryFile, dir, language));
        AddError(botId, StartFailedPrefix + r.error, now);
        return;
      }
      ProbedStage(State(), botId, install, spawn);
      r := StartProbed(botId, processEnv, install, spawn, now);
    }

    // stopBot

    /** `process.kill(-child.pid, sig)`, and `child.kill(sig)` when that throws. */
    method SignalChild(pid: Option<int>, sig: Sig)
      requires Valid()
      modifies host
      ensures Valid()
      ensures State() == old(State()).(os := AfterSignalChild(old(State()).os, pid, sig))
    {
      var delivered := host.Signal(Neg(PidNum(pid)), sig);
      if !delivered && pid.Some? {
        var _ := host.Signal(Int(pid.value), sig);
      }
    }

    /** A wait: the close event of a child that is no longer alive arrives. */
    method AwaitClose(botId: BotId, pid: Option<int>, now: string)
      requires Valid()
      modifies this, host
      ensures Valid()
      ensures State() == AfterAwaitClose(old(State()), botId, pid, now)
    {
      if pid.Some? && pid.value !in host.live {
        var code := if pid.value in host.exitStatus then host.exitStatus[pid.value] else None;
        OnClose(botId, code, now);
      }
    }

    /** SIGKILL, and the wait after it. */
    method ForceStop(botId: BotId, pid: Option<int>, now: string)
      requires Valid()
      modifies this, host
      ensures Valid()
      ensures State() == AfterForceStop(old(State()), botId, pid, now)
    {
      SignalChild(pid, Kill);
      AwaitClose(botId, pid, now);
    }

    /** The wait after SIGTERM, then SIGKILL while the bot is still registered. */
    method Grace(botId: BotId, pid: Option<int>, now: string)
      requires Valid()
      modifies this, host
      ensures Valid()
      ensures State() == AfterGrace(old(State()), botId, pid, now)
    {
      AwaitClose(botId, pid, now);
      if botId in botProcesses {
        ForceStop(botId, pid, now);
      }
    }

    /** stopBot with a registered child. */
    method StopChild(botId: BotId, now: string)
      requires Valid() && botId in botProcesses
      modifies this, host
      ensures Valid()
      ensures State() == AfterStopChild(old(State()), botId, now)
    {
      var pid := botProcesses[botId].pid;
      SignalChild(pid, Term);
      Grace(botId, pid, now);
      host.RemovePidFile(botId);
      botProcesses := botProcesses - {botId};
    }

    /** stopBot without a registered child: the PID file's group gets SIGTERM
        and SIGKILL, and the file is removed when SIGTERM reached it. */
    method StopByPidFile(botId: BotId)
      requires Valid()
      modifies host
      ensures Valid()
      ensures State() == old(State()).(os := AfterStopByPidFile(old(State()).os, botId))
    {
      if botId in host.pidFiles && host.pidFiles[botId].Readable? {
        var target := Neg(ParseInt(host.pidFiles[botId].text));
        var termDelivered := host.Escalate(target);
        if termDelivered {
          host.RemovePidFile(botId);
        }
      }
    }

    /** stopBot: it always reports success. */
    method StopBot(botId: BotId, now: string) returns (r: Outcome)
      requires Valid()
      modifies this, host
      ensures Valid()
      ensures r == Ok
      ensures State() == AfterStop(old(State()), botId, now)
    {
      if botId in botProcesses {
        StopChild(botId, now);
      } else {
        StopByPidFile(botId);
      }
      r := Ok;
    }

    // createBot, cloneBot, updateBot, deleteBot

    /** A new bot's directory, files and map entries. */
    method Provision(c: BotConfig)
      requires Valid()
      modifies this, host
      ensures Valid()
      ensures State() == AfterProvision(old(State()), c)
    {
      WriteBotDirectory(c);
      botLogs := botLogs[c.id := []];
      botErrors := botErrors[c.id := []];
      bots := bots[c.id := c];
    }

    /** fs.ensureDir of the bot's directory, then config.json and the bot's files. */
    method WriteBotDirectory(c: BotConfig)
      requires Valid()
      modifies host
      ensures Valid()
      ensures State() == old(State()).(os := AfterWrite(AfterMakeDir(old(State()).os, c.id), c.id, DirectoryFiles(c)))
    {
      host.MakeDir(c.id);
      host.WriteFiles(c.id, DirectoryFiles(c));
    }

    /** createBot; `newId` is the fresh UUID. */
    method CreateBot(newId: BotId, data: BotData, now: string) returns (r: Reply)
      requires Valid()
      modifies this, host
      ensures Valid()
      ensures r == CreateResult(newId, data, now)
      ensures State() == AfterCreate(old(State()), newId, data, now)
    {
      var config := NewConfig(newId, data, now);
      Provision(config);
      r := Done(config);
    }

    /** cloneBot; `newId` is the fresh UUID. */
    method CloneBot(sourceId: BotId, newId: BotId, now: string) returns (r: Reply)
      requires Valid()
      modifies this, host
      ensures Valid()
      ensures r == CloneResult(old(State()), sourceId, newId, now)
      ensures State() == AfterClone(old(State()), sourceId, newId, now)
    {
      if sourceId !in bots {
        return Refused(SourceNotFound);
      }
      var config := CloneConfig(bots[sourceId], newId, now);
      Provision(config);
      r := Done(config);
    }

    /** updateBot, with the restart it starts run to completion. */
    method UpdateBot(botId: BotId, updates: BotUpdate, processEnv: Env, install: InstallRun, spawn: SpawnOutcome, now: string) returns (r: Reply)
      requires Valid()
      requires spawn.Spawned? ==> IsPid(spawn.pid) && spawn.pid !in host.live
      modifies this, host
      ensures Valid()
      ensures r == UpdateResult(old(State()), botId, updates, now)
      ensures State() == AfterUpdate(old(State()), botId, updates, processEnv, install, spawn, now)
    {
      if botId !in bots {
        return Refused(NotFound);
      }
      var merged := Merge(bots[botId], updates, now);
      MergeKeepsIdentity(bots[botId], updates, now);
      StoppedForUpdateEffect(State(), botId, now);
      StopForUpdate(botId, now);
      r := Rewrite(botId, merged, updates, processEnv, install, spawn, now);
    }

    /** updateBot's stop of a running bot. */
    method StopForUpdate(botId: BotId, now: string)
      requires Valid()
      modifies this, host
      ensures Valid()
      ensures State() == StoppedForUpdate(old(State()), botId, now)
    {
      if botId in botProcesses {
        var _ := StopBot(botId, now);
      }
    }

    /** updateBot after the stop: store the merge, write it, restart. */
    method Rewrite(botId: BotId, merged: BotConfig, updates: BotUpdate, processEnv: Env, install: InstallRun, spawn: SpawnOutcome, now: string) returns (r: Reply)
      requires Valid() && merged.id == botId && botId !in botProcesses
      requires spawn.Spawned? ==> IsPid(spawn.pid) && spawn.pid !in host.live
      modifies this, host
      ensures Valid()
      ensures r == if botId in old(host.dirs) then Done(merged) else Refused(ConfigWriteError(botsDir, botId))
      ensures State() == AfterRewrite(old(State()), botId, merged, updates, processEnv, install, spawn, now)
    {
      bots := bots[botId := merged];
      if botId !in host.dirs {
        return Refused(ConfigWriteError(botsDir, botId));
      }
      WriteAndRestart(botId, merged, updates, processEnv, install, spawn, now);
      r := Done(merged);
    }

    /** config.json and the bot's files, then the restart. */
    method WriteAndRestart(botId: BotId, merged: BotConfig, updates: BotUpdate, processEnv: Env, install: InstallRun, spawn: SpawnOutcome, now: string)
      requires Valid()
      requires spawn.Spawned? ==> IsPid(spawn.pid) && spawn.pid !in host.live
      modifies this, host
      ensures Valid()
      ensures State() == AfterRestart(old(State()).(os := AfterWrite(old(State()).os, botId, DirectoryFiles(merged))),
        botId, merged, updates, processEnv, install, spawn, now)
    {
      host.WriteFiles(botId, DirectoryFiles(merged));
      Restart(botId, merged, updates, processEnv, install, spawn, now);
    }

    /** The restart, when the merged configuration asks for one. */
    method Restart(botId: BotId, merged: BotConfig, updates: BotUpdate, processEnv: Env, install: InstallRun, spawn: SpawnOutcome, now: string)
      requires Valid()
      requires spawn.Spawned? ==> IsPid(spawn.pid) && spawn.pid !in host.live
      modifies this, host
      ensures Valid()
      ensures State() == AfterRestart(old(State()), botId, merged, updates, processEnv, install, spawn, now)
    {
      if RestartsAfterUpdate(merged, updates) {
        var _ := StartBot(botId, processEnv, install, spawn, now);
      }
    }

    /** deleteBot: it always reports success. */
    method DeleteBot(botId: BotId, now: string) returns (r: Outcome)
      requires Valid()
      modifies this, host
      ensures Valid()
      ensures r == Ok
      ensures State() == AfterDelete(old(State()), botId, now)
    {
      if botId in botProcesses {
        var _ := StopBot(botId, now);
      }
      host.RemoveDir(botId);
      bots := bots - {botId};
      botProcesses := botProcesses - {botId};
      botLogs := botLogs - {botId};
      botErrors := botErrors - {botId};
      r := Ok;
    }

    // stopAllBots, cleanupOrphanedProcesses

    /** stopAllBots: stopBot for each registered bot, in the registry's
        order, which `order` gives. */
    method StopAllBots(order: seq<BotId>, now: string)
      requires Valid() && ListsRegistry(State(), order)
      modifies this, host
      ensures Valid()
      ensures State() == AfterStopAll(old(State()), order, now)
    {
      for i := 0 to |order|
        invariant Valid()
        invariant State() == AfterStopAll(old(State()), order[..i], now)
      {
        assert order[..i + 1][..i] == order[..i];
        var _ := StopBot(order[i], now);
      }
      assert order[..|order|] == order;
    }

    /** `process.kill(pid, 0)` and, when that finds the process, SIGTERM
        and SIGKILL to its group. */
    method ProbeAndReap(pid: Num)
      requires Valid()
      modifies host
      ensures Valid()
      ensures State() == old(State()).(os := AfterProbeAndReap(old(State()).os, pid))
    {
      var alive := host.Signal(pid, Probe);
      if alive {
        var _ := host.Escalate(Neg(pid));
      }
    }

    /** One entry of the bots directory: its PID file, if any, is read,
        the process it names probed and reaped, and the file removed. */
    method ReapOrphan(id: BotId)
      requires Valid()
      modifies host
      ensures Valid()
      ensures State() == old(State()).(os := AfterReapOrphan(old(State()).os, id))
    {
      if id in host.pidFiles {
        match host.pidFiles[id] {
          case Readable(text) =>
            ProbeAndReap(ParseInt(text));
          case Unreadable =>
        }
        host.RemovePidFile(id);
      }
    }

    /** cleanupOrphanedProcesses over the entries of the bots directory, in
        the order `listing` gives (which names every bot directory). */
    method CleanupOrphanedProcesses(listing: seq<BotId>)
      requires Valid() && forall id | id in host.dirs :: id in listing
      modifies host
      ensures Valid()
      ensures State() == old(State()).(os := AfterSweep(old(State()).os, listing))
    {
      for i := 0 to |listing|
        invariant Valid()
        invariant State() == old(State()).(os := AfterSweep(old(State()).os, listing[..i]))
      {
        assert listing[..i + 1][..i] == listing[..i];
        ReapOrphan(listing[i]);
      }
      assert listing[..|listing|] == listing;
    }
  }
}
