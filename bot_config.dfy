/**
 * A bot's persisted configuration and the files the supervisor writes for it
 * in its working directory: the entry file `bot.<ext>`, chosen by language,
 * holding either the user's code or a language template; a package.json for
 * Node.js bots; a requirements.txt for Python bots; and config.json.
 */
module BotConfigs {
  import opened Optional
  import opened JsStrings

  type BotId = string

  /** One declared environment variable; `value` is None when it is undefined. */
  datatype EnvVar = EnvVar(key: string, value: Option<string>, isSecret: bool)

  /** The `environmentVariables` field: an array of declarations, or any
      other value (undefined, null, an object), which the start path treats
      alike. */
  datatype EnvSpec = Declared(vars: seq<EnvVar>) | NotAnArray

  datatype BotConfig = BotConfig(
    id: BotId,
    name: string,
    token: Option<string>,
    language: Language,
    code: Option<string>,
    autoStart: bool,
    environmentVariables: EnvSpec,
    createdAt: string,
    updatedAt: string)

  /** What a caller hands to createBot; None stands for a falsy field. */
  datatype BotData = BotData(
    name: string,
    token: Option<string>,
    language: Language,
    code: Option<string>,
    autoStart: Option<bool>,
    environmentVariables: Option<EnvSpec>)

  /** The fields an update object carries; None: the field is not present. */
  datatype BotUpdate = BotUpdate(
    name: Option<string>,
    token: Option<string>,
    language: Option<Language>,
    code: Option<string>,
    autoStart: Option<bool>,
    environmentVariables: Option<EnvSpec>)

  /** The environment a new bot gets when none is declared. */
  function DefaultEnvironment(token: Option<string>): seq<EnvVar> {
    [EnvVar("BOT_TOKEN", token, true), EnvVar("NODE_ENV", Some("production"), false)]
  }

  /** The configuration createBot builds for a fresh id at time `now`. */
  function NewConfig(id: BotId, data: BotData, now: string): BotConfig {
    BotConfig(
      id, data.name, data.token, data.language, data.code,
      data.autoStart == Some(true),
      data.environmentVariables.GetOr(Declared(DefaultEnvironment(data.token))),
      now, now)
  }

  /** The configuration cloneBot builds: same name with " (Copy)", language
      and code; no token, no auto-start, and the safe default environment
      instead of the source bot's variables. */
  function CloneConfig(source: BotConfig, id: BotId, now: string): BotConfig {
    BotConfig(
      id, source.name + " (Copy)", Some(""), source.language, source.code,
      false, Declared(DefaultEnvironment(Some(""))), now, now)
  }

  /** Object.assign(bot, updates, { updatedAt: now }). */
  function Merge(c: BotConfig, u: BotUpdate, now: string): BotConfig {
    BotConfig(
      c.id,
      u.name.GetOr(c.name),
      if u.token.Some? then u.token else c.token,
      u.language.GetOr(c.language),
      if u.code.Some? then u.code else c.code,
      u.autoStart.GetOr(c.autoStart),
      u.environmentVariables.GetOr(c.environmentVariables),
      c.createdAt,
      now)
  }

  /** The fields of `a` overridden by those present in `b`. */
  function Combine(a: BotUpdate, b: BotUpdate): BotUpdate {
    BotUpdate(
      if b.name.Some? then b.name else a.name,
      if b.token.Some? then b.token else a.token,
      if b.language.Some? then b.language else a.language,
      if b.code.Some? then b.code else a.code,
      if b.autoStart.Some? then b.autoStart else a.autoStart,
      if b.environmentVariables.Some? then b.environmentVariables else a.environmentVariables)
  }

  /** An update never changes a bot's identity or creation time, and an
      update that mentions no field only moves its modification time. */
  lemma MergeKeepsIdentity(c: BotConfig, u: BotUpdate, now: string)
    ensures Merge(c, u, now).id == c.id && Merge(c, u, now).createdAt == c.createdAt
    ensures Merge(c, u, now).updatedAt == now
    ensures u == BotUpdate(None, None, None, None, None, None) ==> Merge(c, u, now) == c.(updatedAt := now)
  {
  }

  /** Two updates in a row act as one update in which the later fields win. */
  lemma MergeTwice(c: BotConfig, u1: BotUpdate, u2: BotUpdate, t1: string, t2: string)
    ensures Merge(Merge(c, u1, t1), u2, t2) == Merge(c, Combine(u1, u2), t2)
  {
  }

  /** Applying the same update twice is the same as applying it once. */
  lemma MergeIdempotent(c: BotConfig, u: BotUpdate, now: string)
    ensures Merge(Merge(c, u, now), u, now) == Merge(c, u, now)
  {
    MergeTwice(c, u, u, now, now);
    assert Combine(u, u) == u;
  }

  /** updateBot starts the bot afterwards when `bot.autoStart && updates.autoStart !== false`. */
  predicate RestartsAfterUpdate(merged: BotConfig, u: BotUpdate) {
    merged.autoStart && u.autoStart != Some(false)
  }

  /** ... which holds exactly when the update turns auto-start on, or leaves it
      alone on a bot that has it, whether or not the bot was running. */
  lemma RestartCondition(c: BotConfig, u: BotUpdate, now: string)
    ensures RestartsAfterUpdate(Merge(c, u, now), u) <==> u.autoStart == Some(true) || (u.autoStart.None? && c.autoStart)
  {
  }

  /** A bot's language: one of the names the supervisor treats specially,
      or any other string. */
  datatype Language = JavaScript | TypeScript | Python | Php | Ruby | Go | Other(name: string)

  /** The language a configuration's `language` string names. */
  function LanguageOf(name: string): Language {
    if name == "javascript" then JavaScript
    else if name == "typescript" then TypeScript
    else if name == "python" then Python
    else if name == "php" then Php
    else if name == "ruby" then Ruby
    else if name == "go" then Go
    else Other(name)
  }

  /** The string a language is written as in a configuration. */
  function LanguageName(language: Language): string {
    match language
    case JavaScript => "javascript"
    case TypeScript => "typescript"
    case Python => "python"
    case Php => "php"
    case Ruby => "ruby"
    case Go => "go"
    case Other(name) => name
  }

  /** Reading a language string loses nothing, and a name of its own is
      never read as one of the other languages. */
  lemma LanguageOfName(name: string, language: Language)
    ensures LanguageName(LanguageOf(name)) == name
    ensures language.Other? && language.name !in {"javascript", "typescript", "python", "php", "ruby", "go"}
      ==> LanguageOf(LanguageName(language)) == language
    ensures !language.Other? ==> LanguageOf(LanguageName(language)) == language
  {
  }

  /** getFileExtension: the extension of a language's entry file; 'js' for any
      language it does not know. A name that the table inherits from
      Object.prototype, such as "constructor", counts as unknown here. */
  function FileExtension(language: Language): string {
    match language
    case JavaScript => "js"
    case TypeScript => "ts"
    case Python => "py"
    case Php => "php"
    case Ruby => "rb"
    case Go => "go"
    case Other(_) => "js"
  }

  predicate KnownLanguage(language: Language) {
    !language.Other?
  }

  /** The extension table is one to one on the languages it knows. */
  lemma FileExtensionDistinguishes(a: Language, b: Language)
    requires KnownLanguage(a) && KnownLanguage(b) && a != b
    ensures FileExtension(a) != FileExtension(b)
  {
  }

  lemma FileExtensionFallback(language: Language)
    ensures !KnownLanguage(language) ==> FileExtension(language) == "js"
    ensures FileExtension(language) in {"js", "ts", "py", "php", "rb", "go"}
  {
  }

  /** The entry file's name, `bot.<ext>`. */
  function EntryFile(language: Language): string {
    "bot." + FileExtension(language)
  }

  predicate IsNode(language: Language) {
    language == JavaScript || language == TypeScript
  }

  /** A program and its arguments. */
  datatype Command = Command(program: string, args: seq<string>)

  /** The interpreter startBot runs the entry file with. */
  function Launch(language: Language): Command {
    var file := EntryFile(language);
    match language
    case JavaScript => Command("node", [file])
    case TypeScript => Command("npx", ["ts-node", file])
    case Python => Command("python", [file])
    case Php => Command("php", [file])
    case _ => Command("node", [file])
  }

  /** The child is always handed the entry file whose presence startBot checked. */
  lemma LaunchRunsEntryFile(language: Language)
    ensures |Launch(language).args| > 0
    ensures Launch(language).args[|Launch(language).args| - 1] == EntryFile(language)
  {
  }

  /** Languages with an extension but no interpreter case (ruby, go) and
      unknown languages all run under node. */
  lemma LaunchFallsBackToNode(language: Language)
    requires language !in {JavaScript, TypeScript, Python, Php}
    ensures Launch(language) == Command("node", [EntryFile(language)])
  {
  }

  /** The boilerplate written when a bot has no code. The Python and PHP
      templates embed the token text; the JavaScript one reads BOT_TOKEN. */
  datatype Template = NodeTemplate | PythonTemplate(token: string) | PhpTemplate(token: string)

  /** `${token}` inside a template literal. */
  function TokenText(token: Option<string>): string {
    token.GetOr("undefined")
  }

  /** getBoilerplateCode: the language's template, the JavaScript one by
      default, also for a name the table inherits from Object.prototype. */
  function TemplateFor(language: Language, token: Option<string>): Template {
    if language == Python then PythonTemplate(TokenText(token))
    else if language == Php then PhpTemplate(TokenText(token))
    else NodeTemplate
  }

  /** What a file in a bot's working directory holds. */
  datatype Content =
    | ConfigFile(config: BotConfig)
    | Source(code: string)
    | Boilerplate(template: Template)
    | PackageManifest(name: string, main: string)
    | Requirements(text: string)
    | Folder

  /** The entry file holds the code, or the template when the code is falsy or blank. */
  function EntryContent(c: BotConfig): Content {
    if c.code.None? || Trim(c.code.value) == [] then Boilerplate(TemplateFor(c.language, c.token))
    else Source(c.code.value)
  }

  const PythonRequirements: seq<string> := ["python-telegram-bot==20.6", "python-dotenv==1.0.0"]

  /** The files createBotFile writes: the entry file, then a package.json for
      Node.js languages or a requirements.txt for Python. */
  function BotFiles(c: BotConfig): map<string, Content> {
    var file := EntryFile(c.language);
    var entry := map[file := EntryContent(c)];
    if IsNode(c.language) then entry["package.json" := PackageManifest("bot-" + c.id, file)]
    else if c.language == Python then entry["requirements.txt" := Requirements(Join(PythonRequirements, '\n'))]
    else entry
  }

  /** The entry file is among the files written, so a start that follows finds
      it; Node.js bots get a manifest and Python bots a requirements list. */
  lemma BotFilesHoldEntry(c: BotConfig)
    ensures EntryFile(c.language) in BotFiles(c)
    ensures BotFiles(c)[EntryFile(c.language)] == EntryContent(c)
    ensures IsNode(c.language) <==> "package.json" in BotFiles(c)
    ensures c.language == Python <==> "requirements.txt" in BotFiles(c)
    ensures "config.json" !in BotFiles(c) && "node_modules" !in BotFiles(c)
  {
  }

  /** What createBot, cloneBot and updateBot write into a bot directory:
      config.json, then createBotFile's files. */
  function DirectoryFiles(c: BotConfig): map<string, Content> {
    map["config.json" := ConfigFile(c)] + BotFiles(c)
  }

  /** The directory then holds the configuration and the entry file, and
      never a node_modules folder. */
  lemma DirectoryFilesHold(c: BotConfig)
    ensures "config.json" in DirectoryFiles(c) && DirectoryFiles(c)["config.json"] == ConfigFile(c)
    ensures EntryFile(c.language) in DirectoryFiles(c) && DirectoryFiles(c)[EntryFile(c.language)] == EntryContent(c)
    ensures "node_modules" !in DirectoryFiles(c)
  {
    BotFilesHoldEntry(c);
  }

  /** Blank code is replaced by the template of the bot's language. */
  lemma BlankCodeGetsTemplate(c: BotConfig)
    requires c.code.Some? && IsBlank(c.code.value)
    ensures EntryContent(c) == Boilerplate(TemplateFor(c.language, c.token))
  {
    TrimEmptyIffBlank(c.code.value);
  }
}
