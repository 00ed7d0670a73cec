/**
 * The state of the bot supervisor together with the part of the host it
 * acts on, and the steps every operation is built from: appending to a
 * bot's histories (addLog, addError) and the child's 'close' and 'error'
 * handlers.
 *
 * Every operation of the supervisor is a function from one World to the
 * next (the `After...` functions here and in Starting, Stopping and
 * Lifecycle); the BotManager class implements each of them and the lemmas
 * beside the functions state what they do.
 */
module Supervisor {
  import opened Optional
  import opened JsNumbers
  import opened Buffers
  import opened BotConfigs
  import opened ChildEnvironment
  import opened Provisioning
  import opened Os

  /** A registered child: its pid (None when spawn produced no process), the
      command it runs, its working directory and its environment. */
  datatype Child = Child(pid: Option<int>, command: Command, cwd: string, env: Env)

  /** `{ success: true }` or `{ success: false, error }`. */
  datatype Outcome = Ok | Failed(error: string)

  /** `{ success: true, bot }` or `{ success: false, error }`. */
  datatype Reply = Done(bot: BotConfig) | Refused(error: string)

  /** What spawn() does: return a child with its pid; return a child whose
      pid is undefined when the program cannot be found or run (ENOENT,
      EACCES), its 'error' event following on the next tick; or throw
      synchronously. */
  datatype SpawnOutcome = Spawned(pid: int) | Unrunnable(message: string) | SpawnThrows(message: string)

  /** getBotStatus. */
  datatype Status = Status(running: bool, logs: seq<LogEntry>, errors: seq<ErrorEntry>)

  /** An emit to the socket.io room `bot-<id>`. */
  datatype Event =
    | StatusEvent(botId: BotId, status: string)
    | LogEvent(botId: BotId, log: LogEntry)
    | ErrorEvent(botId: BotId, error: ErrorEntry)

  /** The supervisor's state: whether it has a socket.io server, the bots
      directory, its four maps, every emit so far, and the host. */
  datatype World = World(
    io: bool,
    root: string,
    bots: map<BotId, BotConfig>,
    botProcesses: map<BotId, Child>,
    botLogs: map<BotId, seq<LogEntry>>,
    botErrors: map<BotId, seq<ErrorEntry>>,
    events: seq<Event>,
    os: Machine)

  const Info: string := "info"
  const Running: string := "running"
  const Stopped: string := "stopped"
  const ExitedPrefix: string := "Bot process exited with code "
  const ProcessErrorPrefix: string := "Process error: "

  /** `path.join(botsDir, id)`. */
  function BotDir(root: string, id: BotId): string {
    root + "/" + id
  }

  function FilesOf(dirs: map<BotId, map<string, Content>>, id: BotId): Option<map<string, Content>> {
    if id in dirs then Some(dirs[id]) else None
  }

  function FileAt(pidFiles: map<BotId, PidFile>, id: BotId): Option<PidFile> {
    if id in pidFiles then Some(pidFiles[id]) else None
  }

  /** The number `process.kill` is given for a handle's pid (`-undefined` is NaN). */
  function PidNum(pid: Option<int>): Num {
    match pid
    case Some(p) => Int(p)
    case None => NaN
  }

  function ExitMessage(code: Option<int>): string {
    ExitedPrefix + CodeText(code)
  }

  /** A PID file whose pid, negated to address its group, can be signalled. */
  predicate MarkerKills(f: Option<PidFile>, live: set<int>) {
    f.Some? && f.value.Readable? && Deliverable(Neg(ParseInt(f.value.text)), live)
  }

  /** The live set after SIGTERM and SIGKILL went to the group a PID file names. */
  function AfterMarker(f: Option<PidFile>, live: set<int>): set<int> {
    if MarkerKills(f, live) then live - {Unit(Neg(ParseInt(f.value.text)).n)} else live
  }

  /** A PID file the supervisor wrote for a child names that child: acting on
      it ends exactly that process while it is alive, and does nothing once it
      is gone. A PID file written for a spawn without a pid names nothing. */
  lemma PidFileNamesChild(pid: Option<int>, live: set<int>)
    requires pid.Some? ==> IsPid(pid.value)
    ensures pid.Some? ==> (MarkerKills(Some(Readable(PidText(pid))), live) <==> pid.value in live)
    ensures pid.Some? ==> AfterMarker(Some(Readable(PidText(pid))), live) == live - {pid.value}
    ensures pid.None? ==> AfterMarker(Some(Readable(PidText(pid))), live) == live
  {
    match pid {
      case Some(p) =>
        PidTextNamesProcess(p, live);
      case None =>
        ParseIntOfUndefined();
    }
  }

  lemma PidTextNamesProcess(p: int, live: set<int>)
    requires IsPid(p)
    ensures var f := Some(Readable(PidText(Some(p))));
      && (MarkerKills(f, live) <==> p in live)
      && AfterMarker(f, live) == live - {p}
  {
    PidTextTargetsProcess(p, live);
    var t := PidText(Some(p));
    assert ParseInt(t) == Int(p);
    assert Unit(Neg(Int(p)).n) == p;
  }

  /** addLog: the entry goes to the end of the bot's log, the oldest entries
      beyond the cap are dropped, and the entry is emitted. */
  function AfterAddLog(w: World, id: BotId, level: string, message: string, now: string): World {
    var entry := LogEntry(now, level, message);
    w.(botLogs := AppendAt(w.botLogs, id, [entry], LogCap),
       events := w.events + if w.io then [LogEvent(id, entry)] else [])
  }

  /** addError: the same for the error history and its cap. */
  function AfterAddError(w: World, id: BotId, error: string, now: string): World {
    var entry := ErrorEntry(now, error);
    w.(botErrors := AppendAt(w.botErrors, id, [entry], ErrorCap),
       events := w.events + if w.io then [ErrorEvent(id, entry)] else [])
  }

  /** An entry is pushed onto its own bot's history alone, growing it by one
      below the cap and replacing the oldest entry at the cap. */
  lemma AddPushes(w: World, id: BotId, level: string, message: string, error: string, now: string, other: BotId)
    requires other != id
    ensures Lookup(AfterAddLog(w, id, level, message, now).botLogs, id) == Push(Lookup(w.botLogs, id), LogEntry(now, level, message), LogCap)
    ensures Lookup(AfterAddLog(w, id, level, message, now).botLogs, other) == Lookup(w.botLogs, other)
    ensures Lookup(AfterAddError(w, id, error, now).botErrors, id) == Push(Lookup(w.botErrors, id), ErrorEntry(now, error), ErrorCap)
    ensures Lookup(AfterAddError(w, id, error, now).botErrors, other) == Lookup(w.botErrors, other)
    ensures |Lookup(w.botLogs, id)| < LogCap ==>
      Lookup(AfterAddLog(w, id, level, message, now).botLogs, id) == Lookup(w.botLogs, id) + [LogEntry(now, level, message)]
    ensures |Lookup(w.botLogs, id)| == LogCap ==>
      Lookup(AfterAddLog(w, id, level, message, now).botLogs, id) == Lookup(w.botLogs, id)[1..] + [LogEntry(now, level, message)]
  {
    PushBounded(Lookup(w.botLogs, id), LogEntry(now, level, message), LogCap);
    if |Lookup(w.botLogs, id)| == LogCap {
      PushAtCapEvictsOldest(Lookup(w.botLogs, id), LogEntry(now, level, message), LogCap);
    }
  }

  /** The child's 'close' event: it is deregistered, its PID file removed,
      its exit code logged, and the bot reported stopped. */
  function AfterClose(w: World, id: BotId, code: Option<int>, now: string): World {
    var w1 := AfterAddLog(w.(botProcesses := w.botProcesses - {id}, os := AfterUnlink(w.os, id)), id, Info, ExitMessage(code), now);
    w1.(events := w1.events + if w.io then [StatusEvent(id, Stopped)] else [])
  }

  /** The child's 'error' event: recorded, and the child deregistered. */
  function AfterProcessError(w: World, id: BotId, message: string, now: string): World {
    AfterAddError(w, id, ProcessErrorPrefix + message, now).(botProcesses := w.botProcesses - {id})
  }

  /** A close event leaves the bot unregistered and without a PID file, with
      the exit line last in its log and the stop the last emit; nothing of
      other bots changes, and the processes are left as they are. */
  lemma CloseEffect(w: World, id: BotId, code: Option<int>, now: string)
    ensures var w' := AfterClose(w, id, code, now);
      && id !in w'.botProcesses && id !in w'.os.pidFiles
      && (forall other | other != id :: (other in w'.botProcesses <==> other in w.botProcesses) && FileAt(w'.os.pidFiles, other) == FileAt(w.os.pidFiles, other))
      && var log := Lookup(w'.botLogs, id);
      && |log| > 0 && log[|log| - 1] == LogEntry(now, Info, ExitMessage(code))
      && (w.io ==> w'.events[|w'.events| - 1] == StatusEvent(id, Stopped))
      && w'.os.live == w.os.live && w'.os.sent == w.os.sent && w'.bots == w.bots && w'.botErrors == w.botErrors
  {
    PushBounded(Lookup(w.botLogs, id), LogEntry(now, Info, ExitMessage(code)), LogCap);
  }

  /** The installer's output, chunk by chunk: npm's chunks all go to the log,
      pip's stdout to the log and its stderr to the error history. */
  function AfterOutput(w: World, id: BotId, language: Language, output: seq<Chunk>, now: string): (r: World)
    ensures r.io == w.io && r.root == w.root && r.bots == w.bots && r.botProcesses == w.botProcesses && r.os == w.os
    ensures w.events <= r.events && (!w.io ==> r.events == w.events)
    decreases |output|
  {
    if output == [] then w
    else
      var before := AfterOutput(w, id, language, output[..|output| - 1], now);
      var c := output[|output| - 1];
      if IsNode(language) || c.stream == Stdout then AfterAddLog(before, id, Info, c.text, now)
      else AfterAddError(before, id, c.text, now)
  }

  /** The whole output lands in the log as the lines OutputLines selects, in order. */
  lemma {:induction false} OutputLogged(w: World, id: BotId, language: Language, output: seq<Chunk>, now: string)
    ensures AfterOutput(w, id, language, output, now).botLogs
      == AppendAt(w.botLogs, id, Stamped(now, Info, OutputLines(language, output)), LogCap)
    decreases |output|
  {
    if output == [] {
      StampedConcat(now, Info, [], []);
    } else {
      var init := output[..|output| - 1];
      var c := output[|output| - 1];
      assert output == init + [c];
      OutputLogged(w, id, language, init, now);
      OutputLinesSnoc(language, init, c);
      if IsNode(language) || c.stream == Stdout {
        AppendStampedOne(w.botLogs, id, now, Info, OutputLines(language, init), c.text, LogCap);
      } else {
        assert OutputLines(language, init) + [] == OutputLines(language, init);
      }
    }
  }

  /** The whole output lands in the error history as the lines
      ErrorOutputLines selects, in order. */
  lemma {:induction false} OutputErrorsRecorded(w: World, id: BotId, language: Language, output: seq<Chunk>, now: string)
    ensures AfterOutput(w, id, language, output, now).botErrors
      == AppendAt(w.botErrors, id, StampedErrors(now, ErrorOutputLines(language, output)), ErrorCap)
    decreases |output|
  {
    if output == [] {
      StampedConcat(now, "", [], []);
    } else {
      var init := output[..|output| - 1];
      var c := output[|output| - 1];
      assert output == init + [c];
      OutputErrorsRecorded(w, id, language, init, now);
      OutputLinesSnoc(language, init, c);
      if IsNode(language) || c.stream == Stdout {
        assert ErrorOutputLines(language, init) + [] == ErrorOutputLines(language, init);
      } else {
        AppendStampedErrorsOne(w.botErrors, id, now, ErrorOutputLines(language, init), c.text, ErrorCap);
      }
    }
  }
}
