/**
 * createBot, cloneBot, updateBot and deleteBot: what each writes into the
 * bots directory and into the supervisor's maps.
 *
 * The new bot's id (a fresh UUID) and the clock are parameters.
 */
module Lifecycle {
  import opened Optional
  import opened Buffers
  import opened BotConfigs
  import opened ChildEnvironment
  import opened Provisioning
  import opened Os
  import opened Supervisor
  import opened Starting
  import opened Stopping

  const SourceNotFound: string := "Source bot not found"

  const NoSuchFilePrefix: string := "ENOENT: no such file or directory, open '"

  /** The message fs.writeJson rejects with when updateBot writes the
      configuration of a bot whose directory is missing. */
  function ConfigWriteError(root: string, id: BotId): string {
    NoSuchFilePrefix + BotDir(root, id) + "/config.json'"
  }

  // createBot and cloneBot

  /** The files already in a bot's directory; none when it does not exist. */
  function ExistingFiles(dirs: map<BotId, map<string, Content>>, id: BotId): map<string, Content> {
    if id in dirs then dirs[id] else map[]
  }

  /** A new bot's directory and files, and its entries in the maps: the
      configuration and empty histories. */
  function AfterProvision(w: World, c: BotConfig): World {
    w.(os := AfterWrite(AfterMakeDir(w.os, c.id), c.id, DirectoryFiles(c)),
       bots := w.bots[c.id := c], botLogs := w.botLogs[c.id := []], botErrors := w.botErrors[c.id := []])
  }

  /** Provisioning registers the configuration under its id with empty
      histories, and leaves every other bot, the registrations and the emits
      alone. */
  lemma ProvisionRegisters(w: World, c: BotConfig)
    ensures var w' := AfterProvision(w, c);
      && w'.bots == w.bots[c.id := c]
      && Lookup(w'.botLogs, c.id) == [] && Lookup(w'.botErrors, c.id) == []
      && (forall other | other != c.id :: Lookup(w'.botLogs, other) == Lookup(w.botLogs, other) && Lookup(w'.botErrors, other) == Lookup(w.botErrors, other))
      && w'.botProcesses == w.botProcesses && w'.events == w.events
  {
  }

  /** ... writes the bot's files into its directory, creating it if needed,
      and touches neither the PID files nor the processes. */
  lemma ProvisionWrites(w: World, c: BotConfig)
    ensures var w' := AfterProvision(w, c);
      && w'.os.dirs == w.os.dirs[c.id := ExistingFiles(w.os.dirs, c.id) + DirectoryFiles(c)]
      && w'.os.pidFiles == w.os.pidFiles && w'.os.live == w.os.live && w'.os.sent == w.os.sent
  {
    MakeDirThenWrite(w.os, c.id, DirectoryFiles(c));
  }

  lemma MakeDirThenWrite(m: Machine, id: BotId, files: map<string, Content>)
    ensures var m' := AfterWrite(AfterMakeDir(m, id), id, files);
      && m'.dirs == m.dirs[id := ExistingFiles(m.dirs, id) + files]
      && m'.pidFiles == m.pidFiles && m'.live == m.live && m'.sent == m.sent
  {
  }

  /** The directory a provisioned bot gets passes both file checks of its
      next start, whatever the installer and spawn then do. */
  lemma ProvisionedBotStarts(w: World, c: BotConfig, install: InstallRun, spawn: SpawnOutcome)
    ensures var w' := AfterProvision(w, c);
      c.id in w'.bots && Probed(StageOf(w', c.id, install, spawn))
  {
    ProvisionWrites(w, c);
    WrittenBotPassesFileChecks(ExistingFiles(w.os.dirs, c.id), c, install, spawn);
  }

  /** createBot. */
  function AfterCreate(w: World, newId: BotId, data: BotData, now: string): World {
    AfterProvision(w, NewConfig(newId, data, now))
  }

  /** createBot returns the configuration it registered. */
  function CreateResult(newId: BotId, data: BotData, now: string): Reply {
    Done(NewConfig(newId, data, now))
  }

  /** The bot createBot registers carries the new id and the caller's fields,
      starts without auto-start unless asked, and declares BOT_TOKEN and
      NODE_ENV=production when the caller declares no variables. */
  lemma CreateEffect(w: World, newId: BotId, data: BotData, now: string)
    ensures var r := CreateResult(newId, data, now);
      && r.Done? && r.bot.id == newId && r.bot.name == data.name && r.bot.token == data.token
      && r.bot.language == data.language && r.bot.code == data.code
      && (r.bot.autoStart <==> data.autoStart == Some(true))
      && r.bot.createdAt == now && r.bot.updatedAt == now
      && (data.environmentVariables.None? ==> r.bot.environmentVariables == Declared(DefaultEnvironment(data.token)))
      && (data.environmentVariables.Some? ==> r.bot.environmentVariables == data.environmentVariables.value)
      && AfterCreate(w, newId, data, now).bots == w.bots[newId := r.bot]
  {
  }

  /** cloneBot. */
  function AfterClone(w: World, sourceId: BotId, newId: BotId, now: string): World {
    if sourceId !in w.bots then w
    else AfterProvision(w, CloneConfig(w.bots[sourceId], newId, now))
  }

  function CloneResult(w: World, sourceId: BotId, newId: BotId, now: string): Reply {
    if sourceId !in w.bots then Refused(SourceNotFound)
    else Done(CloneConfig(w.bots[sourceId], newId, now))
  }

  /** A clone of an unknown bot changes nothing; otherwise the copy has the
      source's language and code, " (Copy)" after its name, no token, no
      auto-start and only the default variables, and the source is untouched. */
  lemma CloneEffect(w: World, sourceId: BotId, newId: BotId, now: string)
    ensures sourceId !in w.bots ==>
      AfterClone(w, sourceId, newId, now) == w && CloneResult(w, sourceId, newId, now) == Refused(SourceNotFound)
    ensures sourceId in w.bots ==>
      var source := w.bots[sourceId];
      var r := CloneResult(w, sourceId, newId, now);
      && r.Done? && r.bot.id == newId
      && r.bot.name == source.name + " (Copy)" && r.bot.language == source.language && r.bot.code == source.code
      && r.bot.token == Some("") && !r.bot.autoStart
      && r.bot.environmentVariables == Declared(DefaultEnvironment(Some("")))
      && AfterClone(w, sourceId, newId, now).bots == w.bots[newId := r.bot]
      && (newId != sourceId ==> AfterClone(w, sourceId, newId, now).bots[sourceId] == source)
  {
  }

  // updateBot

  /** updateBot: a running bot is stopped; the configuration is merged in
      place (so the merge stays even when writing it fails); config.json and
      the bot's files are rewritten; and the bot is started again when the
      merged configuration asks for it. */
  function AfterUpdate(w: World, id: BotId, u: BotUpdate, processEnv: Env, install: InstallRun, spawn: SpawnOutcome, now: string): World {
    if id !in w.bots then w
    else AfterRewrite(StoppedForUpdate(w, id, now), id, Merge(w.bots[id], u, now), u, processEnv, install, spawn, now)
  }

  /** updateBot after the stop: the merge is stored, then written, then the
      restart. */
  function AfterRewrite(w: World, id: BotId, merged: BotConfig, u: BotUpdate, processEnv: Env, install: InstallRun, spawn: SpawnOutcome, now: string): World {
    var kept := w.(bots := w.bots[id := merged]);
    if id !in kept.os.dirs then kept
    else AfterRestart(kept.(os := AfterWrite(kept.os, id, DirectoryFiles(merged))), id, merged, u, processEnv, install, spawn, now)
  }

  /** The restart updateBot asks for when the merged configuration has auto-start on. */
  function AfterRestart(w: World, id: BotId, merged: BotConfig, u: BotUpdate, processEnv: Env, install: InstallRun, spawn: SpawnOutcome, now: string): World {
    if RestartsAfterUpdate(merged, u) then AfterStart(w, id, processEnv, install, spawn, now) else w
  }

  /** What updateBot returns (before the restart it does not wait for). */
  function UpdateResult(w: World, id: BotId, u: BotUpdate, now: string): Reply {
    if id !in w.bots then Refused(NotFound)
    else if id !in w.os.dirs then Refused(ConfigWriteError(w.root, id))
    else Done(Merge(w.bots[id], u, now))
  }

  /** The stop updateBot makes, when it makes one. */
  function StoppedForUpdate(w: World, id: BotId, now: string): World {
    if id in w.botProcesses then AfterStop(w, id, now) else w
  }

  /** The stop leaves the bot unregistered and its directory and
      configuration as they were. */
  lemma StoppedForUpdateEffect(w: World, id: BotId, now: string)
    requires id in w.botProcesses ==> var pid := w.botProcesses[id].pid; pid.Some? ==> IsPid(pid.value)
    ensures var s := StoppedForUpdate(w, id, now);
      && s.botProcesses == w.botProcesses - {id}
      && s.bots == w.bots && s.os.dirs == w.os.dirs && s.os.live <= w.os.live && s.io == w.io && s.root == w.root
  {
    if id in w.botProcesses {
      StopDeregisters(w, id, now);
    }
  }

  /** Every update of a known bot keeps the merged configuration; the bot is
      running afterwards only if it was restarted, which happens only when the
      merged configuration asks for it, the directory exists and the start
      succeeds. */
  lemma UpdateConfigures(w: World, id: BotId, u: BotUpdate, processEnv: Env, install: InstallRun, spawn: SpawnOutcome, now: string)
    requires id in w.bots && w.bots[id].id == id
    requires id in w.botProcesses ==> var pid := w.botProcesses[id].pid; pid.Some? ==> IsPid(pid.value)
    ensures var w' := AfterUpdate(w, id, u, processEnv, install, spawn, now);
      var merged := Merge(w.bots[id], u, now);
      && w'.bots == w.bots[id := merged]
      && (id in w'.botProcesses ==> RestartsAfterUpdate(merged, u) && id in w.os.dirs)
      && (forall other | other != id :: (other in w'.botProcesses <==> other in w.botProcesses))
  {
    var merged := Merge(w.bots[id], u, now);
    MergeKeepsIdentity(w.bots[id], u, now);
    StoppedForUpdateEffect(w, id, now);
    RewriteRegisters(StoppedForUpdate(w, id, now), id, merged, u, processEnv, install, spawn, now);
  }

  /** After the stop, the merge is stored and the bot is registered again
      only by a successful restart. */
  lemma RewriteRegisters(s: World, id: BotId, merged: BotConfig, u: BotUpdate, processEnv: Env, install: InstallRun, spawn: SpawnOutcome, now: string)
    requires merged.id == id && id !in s.botProcesses
    ensures var w' := AfterRewrite(s, id, merged, u, processEnv, install, spawn, now);
      && w'.bots == s.bots[id := merged]
      && (id in w'.botProcesses ==> RestartsAfterUpdate(merged, u) && id in s.os.dirs)
      && (forall other | other != id :: (other in w'.botProcesses <==> other in s.botProcesses))
  {
    var kept := s.(bots := s.bots[id := merged]);
    if id in kept.os.dirs && RestartsAfterUpdate(merged, u) {
      var written := kept.(os := AfterWrite(kept.os, id, DirectoryFiles(merged)));
      assert Startable(written, id);
      StartRegisters(written, id, processEnv, install, spawn, now);
    }
  }

  /** A directory holding the configuration file and the entry file of `c`. */
  predicate HoldsBot(files: map<string, Content>, c: BotConfig) {
    && "config.json" in files && files["config.json"] == ConfigFile(c)
    && EntryFile(c.language) in files && files[EntryFile(c.language)] == EntryContent(c)
  }

  /** Writing a bot's files makes its directory hold the bot, whatever was
      there before, and an installer run does not undo that. */
  lemma WrittenHoldsBot(existing: map<string, Content>, c: BotConfig, language: Language, install: InstallRun)
    ensures HoldsBot(existing + DirectoryFiles(c), c)
      && HoldsBot(FilesAfterInstall(language, existing + DirectoryFiles(c), install), c)
  {
    DirectoryFilesHold(c);
    HoldsBotAfterWrite(existing, DirectoryFiles(c), c);
    HoldsBotAfterInstall(existing + DirectoryFiles(c), c, language, install);
  }

  lemma HoldsBotAfterWrite(existing: map<string, Content>, files: map<string, Content>, c: BotConfig)
    requires HoldsBot(files, c)
    ensures HoldsBot(existing + files, c)
  {
  }

  lemma HoldsBotAfterInstall(files: map<string, Content>, c: BotConfig, language: Language, install: InstallRun)
    requires HoldsBot(files, c)
    ensures HoldsBot(FilesAfterInstall(language, files, install), c)
  {
    assert EntryFile(c.language)[0] == 'b';
  }

  /** The update's write, before any restart. */
  function WrittenForUpdate(w: World, id: BotId, u: BotUpdate, now: string): World
    requires id in w.bots
  {
    var stopped := StoppedForUpdate(w, id, now);
    var merged := Merge(w.bots[id], u, now);
    var kept := stopped.(bots := stopped.bots[id := merged]);
    kept.(os := AfterWrite(kept.os, id, DirectoryFiles(merged)))
  }

  lemma UpdateCases(w: World, id: BotId, u: BotUpdate, processEnv: Env, install: InstallRun, spawn: SpawnOutcome, now: string)
    requires id in w.bots && id in w.os.dirs
    requires id in w.botProcesses ==> var pid := w.botProcesses[id].pid; pid.Some? ==> IsPid(pid.value)
    ensures var merged := Merge(w.bots[id], u, now);
      var written := WrittenForUpdate(w, id, u, now);
      && AfterUpdate(w, id, u, processEnv, install, spawn, now)
        == (if RestartsAfterUpdate(merged, u) then AfterStart(written, id, processEnv, install, spawn, now) else written)
      && written.os.dirs == w.os.dirs[id := w.os.dirs[id] + DirectoryFiles(merged)]
      && written.bots == w.bots[id := merged] && id !in written.botProcesses
  {
    StoppedForUpdateEffect(w, id, now);
  }

  /** When the directory exists, it holds the merged configuration and the
      entry file for it after the update, whatever the restart does. */
  lemma UpdateWrites(w: World, id: BotId, u: BotUpdate, processEnv: Env, install: InstallRun, spawn: SpawnOutcome, now: string)
    requires id in w.bots && w.bots[id].id == id && id in w.os.dirs
    requires id in w.botProcesses ==> var pid := w.botProcesses[id].pid; pid.Some? ==> IsPid(pid.value)
    ensures var w' := AfterUpdate(w, id, u, processEnv, install, spawn, now);
      id in w'.os.dirs && HoldsBot(w'.os.dirs[id], Merge(w.bots[id], u, now))
  {
    var merged := Merge(w.bots[id], u, now);
    MergeKeepsIdentity(w.bots[id], u, now);
    UpdateCases(w, id, u, processEnv, install, spawn, now);
    var written := WrittenForUpdate(w, id, u, now);
    WrittenHoldsBot(w.os.dirs[id], merged, merged.language, install);
    if RestartsAfterUpdate(merged, u) {
      assert Startable(written, id);
      StartRest(written, id, processEnv, install, spawn, now);
    }
  }

  /** An update reports the merged configuration exactly when it could write
      it, and the reason otherwise. */
  lemma UpdateReported(w: World, id: BotId, u: BotUpdate, now: string)
    ensures UpdateResult(w, id, u, now).Done? <==> id in w.bots && id in w.os.dirs
    ensures id !in w.bots ==> UpdateResult(w, id, u, now) == Refused(NotFound)
    ensures UpdateResult(w, id, u, now).Done? ==> UpdateResult(w, id, u, now).bot == Merge(w.bots[id], u, now)
  {
  }

  // deleteBot

  /** deleteBot: a running bot is stopped, then its directory and all four
      of its map entries are removed. */
  function AfterDelete(w: World, id: BotId, now: string): World {
    var stopped := if id in w.botProcesses then AfterStop(w, id, now) else w;
    stopped.(os := AfterRemoveDir(stopped.os, id),
             bots := stopped.bots - {id}, botProcesses := stopped.botProcesses - {id},
             botLogs := stopped.botLogs - {id}, botErrors := stopped.botErrors - {id})
  }

  /** Afterwards nothing of the bot is left, and nothing of any other bot changes. */
  lemma DeleteEffect(w: World, id: BotId, now: string)
    requires id in w.botProcesses ==> var pid := w.botProcesses[id].pid; pid.Some? ==> IsPid(pid.value)
    ensures var w' := AfterDelete(w, id, now);
      && id !in w'.bots && id !in w'.botProcesses && id !in w'.botLogs && id !in w'.botErrors
      && id !in w'.os.dirs && id !in w'.os.pidFiles
      && w'.bots == w.bots - {id} && w'.botProcesses == w.botProcesses - {id}
      && w'.botErrors == w.botErrors - {id} && w'.os.dirs == w.os.dirs - {id}
      && (forall other | other != id && other in w.botLogs :: other in w'.botLogs && w'.botLogs[other] == w.botLogs[other])
  {
    if id in w.botProcesses {
      StopDeregisters(w, id, now);
      var pid := w.botProcesses[id].pid;
      StopChildLogs(w, id, now);
    }
  }
}
