/**
 * Per-bot dependency installation before a start: `npm install` for
 * Node.js bots that have a package.json and no node_modules yet, and
 * `python3 -m pip install -r requirements.txt` for Python bots that have a
 * requirements.txt (on every start). The installer's run is an input: the
 * chunks it writes and how it ends.
 */
module Provisioning {
  import opened Optional
  import opened JsNumbers
  import opened BotConfigs

  datatype Stream = Stdout | Stderr

  /** One 'data' event of the installer's stdout or stderr. */
  datatype Chunk = Chunk(stream: Stream, text: string)

  /** The installer's 'close' event with its exit code (null when a signal
      ended it), or its 'error' event (it could not be spawned). */
  datatype InstallEnd = Closed(code: Option<int>) | SpawnError(message: string)

  /** An installer run: the chunks it writes, how it ends, and whether the
      bot directory holds a node_modules folder afterwards (npm can leave a
      partial one behind after a failure; pip installs outside the directory,
      so the flag is only read for Node.js bots). */
  datatype InstallRun = InstallRun(output: seq<Chunk>, end: InstallEnd, modules: bool)

  /** Whether startBot runs an installer for a bot whose directory holds
      `files` (None: the directory does not exist). */
  predicate InstallNeeded(language: Language, files: Option<map<string, Content>>) {
    if IsNode(language) then files.Some? && "package.json" in files.value && "node_modules" !in files.value
    else if language == Python then files.Some? && "requirements.txt" in files.value
    else false
  }

  const ExitedWith: string := " install exited with "

  function Tool(language: Language): string {
    if IsNode(language) then "npm" else "pip"
  }

  /** The message of the error the install promise rejects with, if it does. */
  function InstallFailure(language: Language, run: InstallRun): (r: Option<string>)
    ensures r.None? <==> run.end == Closed(Some(0))
  {
    match run.end
    case Closed(code) =>
      if code == Some(0) then None else Some(Tool(language) + ExitedWith + CodeText(code))
    case SpawnError(message) => Some(message)
  }

  /** The chunks that go to the bot's log: all of npm's, only pip's stdout. */
  function OutputLines(language: Language, output: seq<Chunk>): seq<string>
    decreases |output|
  {
    if output == [] then []
    else
      var c := output[|output| - 1];
      var before := OutputLines(language, output[..|output| - 1]);
      if IsNode(language) || c.stream == Stdout then before + [c.text] else before
  }

  /** The chunks that go to the bot's error history: pip's stderr. */
  function ErrorOutputLines(language: Language, output: seq<Chunk>): seq<string>
    decreases |output|
  {
    if output == [] then []
    else
      var c := output[|output| - 1];
      var before := ErrorOutputLines(language, output[..|output| - 1]);
      if !IsNode(language) && c.stream == Stderr then before + [c.text] else before
  }

  /** One more chunk goes to exactly one of the two histories. */
  lemma OutputLinesSnoc(language: Language, output: seq<Chunk>, c: Chunk)
    ensures OutputLines(language, output + [c])
      == OutputLines(language, output) + if IsNode(language) || c.stream == Stdout then [c.text] else []
    ensures ErrorOutputLines(language, output + [c])
      == ErrorOutputLines(language, output) + if !IsNode(language) && c.stream == Stderr then [c.text] else []
  {
    assert (output + [c])[..|output|] == output;
  }

  /** Every chunk the installer writes lands in exactly one of the two
      histories; with npm, all of them in the log. */
  lemma {:induction false} OutputPartitioned(language: Language, output: seq<Chunk>)
    ensures |OutputLines(language, output)| + |ErrorOutputLines(language, output)| == |output|
    ensures IsNode(language) ==> (ErrorOutputLines(language, output) == []
      && OutputLines(language, output) == seq(|output|, i requires 0 <= i < |output| => output[i].text))
    decreases |output|
  {
    if output != [] {
      OutputPartitioned(language, output[..|output| - 1]);
    }
  }

  const InstallFailedPrefix: string := "Dependency installation failed: "
  const NodeAnnouncement: string := "Installing Node.js dependencies..."
  const PythonAnnouncement: string := "Installing Python dependencies..."
  const NodeCompletion: string := "Node.js dependencies installed"
  const PythonCompletion: string := "Python dependencies installed"
  function Announcement(language: Language): string {
    if IsNode(language) then NodeAnnouncement else PythonAnnouncement
  }

  function Completion(language: Language): string {
    if IsNode(language) then NodeCompletion else PythonCompletion
  }

  /** The log lines of an installer run, in order. */
  function InstallLogLines(language: Language, run: InstallRun): seq<string> {
    [Announcement(language)] + OutputLines(language, run.output)
      + if InstallFailure(language, run).None? then [Completion(language)] else []
  }

  /** The error lines of an installer run, in order. */
  function InstallErrorLines(language: Language, run: InstallRun): seq<string> {
    ErrorOutputLines(language, run.output)
      + match InstallFailure(language, run)
        case Some(m) => [InstallFailedPrefix + m]
        case None => []
  }

  /** A run logs its start first and its output after it; the completion is
      logged, last, exactly when the installer exited with 0, and a failed run
      ends the error history with the failure. */
  lemma InstallReported(language: Language, run: InstallRun)
    ensures var lines := InstallLogLines(language, run);
      && lines[0] == Announcement(language)
      && lines[1..1 + |OutputLines(language, run.output)|] == OutputLines(language, run.output)
      && |lines| == 1 + |OutputLines(language, run.output)| + (if run.end == Closed(Some(0)) then 1 else 0)
      && (run.end == Closed(Some(0)) ==> lines[|lines| - 1] == Completion(language))
    ensures run.end != Closed(Some(0)) ==>
      var errs := InstallErrorLines(language, run);
      |errs| > 0 && errs[|errs| - 1] == InstallFailedPrefix + InstallFailure(language, run).value
  {
  }

  /** What the installer leaves in the bot directory: the node_modules
      folder an npm run leaves, whether it succeeded or not; pip installs
      outside it. */
  function FilesAfterInstall(language: Language, files: map<string, Content>, run: InstallRun): map<string, Content> {
    if IsNode(language) && InstallNeeded(language, Some(files)) && run.modules
    then files["node_modules" := Folder]
    else files
  }

  /** npm runs again on the next start exactly when its run left no
      node_modules folder (a failed run that left a partial one is never
      repeated), whereas pip runs on every start of a Python bot. */
  lemma InstallIdempotence(language: Language, files: map<string, Content>, run: InstallRun)
    requires InstallNeeded(language, Some(files))
    ensures IsNode(language) ==> (InstallNeeded(language, Some(FilesAfterInstall(language, files, run))) <==> !run.modules)
    ensures language == Python ==> InstallNeeded(language, Some(FilesAfterInstall(language, files, run)))
  {
  }
}
