/**
 * The handlers of the log routes: a bot's log filtered by level and cut to
 * the last `limit` entries, its error history cut the same way, clearing
 * either or both by type, and the two readers of the host's own log files.
 *
 * The router holds the bot manager it obtained when it was loaded, or null
 * when that failed. Query parameters are strings when given; the contents of
 * a system log file (None when it does not exist), JSON.parse and the clock
 * are parameters.
 */
module LogRoutes {
  import opened Optional
  import opened JsStrings
  import opened JsNumbers
  import opened Buffers
  import opened BotConfigs
  import opened Supervisor
  import opened Manager

  /** A handler's answer: status 500 with an error, or success with a body. */
  datatype Reply<T> = ServerError(error: string) | Success(body: T)

  const ManagerUnavailable: string := "Bot manager not available"

  /** The default `limit` of the log query and of the error query. */
  const DefaultLogLimit: nat := 100
  const DefaultErrorLimit: nat := 50

  /** How many entries the system log readers return at most. */
  const CombinedLimit: nat := 100
  const ErrorLogLimit: nat := 50

  // sequences

  function Min(a: int, b: int): int {
    if a < b then a else b
  }

  /** `a` is `b` with some elements left out, the rest in their order. */
  predicate IsSubsequence<T(==)>(a: seq<T>, b: seq<T>)
    decreases |b|
  {
    if a == [] then true
    else if b == [] then false
    else if a[0] == b[0] then IsSubsequence(a[1..], b[1..])
    else IsSubsequence(a, b[1..])
  }

  /** Every sequence is a subsequence of itself. */
  lemma {:induction false} SubsequenceReflexive<T>(a: seq<T>)
    ensures IsSubsequence(a, a)
    decreases |a|
  {
    if a != [] {
      SubsequenceReflexive(a[1..]);
    }
  }

  /** A subsequence stays one when an element is put in front of the whole. */
  lemma {:induction false} SubsequenceCons<T>(a: seq<T>, x: T, b: seq<T>)
    requires IsSubsequence(a, b)
    ensures IsSubsequence(a, [x] + b)
    decreases |b|, 1
  {
    if a != [] && a[0] == x {
      assert ([x] + b)[1..] == b;
      SubsequenceDropFirst(a, b);
    } else if a != [] {
      assert ([x] + b)[1..] == b;
    }
  }

  /** ... and when its first element is left out. */
  lemma {:induction false} SubsequenceDropFirst<T>(a: seq<T>, b: seq<T>)
    requires a != [] && IsSubsequence(a, b)
    ensures IsSubsequence(a[1..], b)
    decreases |b|, 0
  {
    if a[0] == b[0] {
      SubsequenceCons(a[1..], b[0], b[1..]);
    } else {
      SubsequenceDropFirst(a, b[1..]);
      SubsequenceCons(a[1..], b[0], b[1..]);
    }
    assert [b[0]] + b[1..] == b;
  }

  /** Every suffix of a subsequence is a subsequence. */
  lemma {:induction false} SubsequenceSuffix<T>(a: seq<T>, b: seq<T>, k: nat)
    requires k <= |a| && IsSubsequence(a, b)
    ensures IsSubsequence(a[k..], b)
    decreases k
  {
    if k > 0 {
      SubsequenceDropFirst(a, b);
      SubsequenceSuffix(a[1..], b, k - 1);
      assert a[1..][k - 1..] == a[k..];
    }
  }

  /** Array.prototype.filter: the elements that satisfy `p`, all of them and
      in their order. */
  function Keep<T(==,!new)>(s: seq<T>, p: T -> bool): (r: seq<T>)
    ensures |r| <= |s|
    ensures forall x | x in r :: x in s && p(x)
    ensures IsSubsequence(r, s)
    decreases |s|
  {
    if s == [] then []
    else
      var rest := Keep(s[1..], p);
      if p(s[0]) then
        assert ([s[0]] + rest)[1..] == rest;
        [s[0]] + rest
      else
        assert rest != [] ==> rest[0] in rest;
        rest
  }

  /** The filter keeps each element that satisfies `p` as often as `s` holds
      it, and nothing else. */
  lemma {:induction false} KeepCounts<T(!new)>(s: seq<T>, p: T -> bool)
    ensures forall x :: multiset(Keep(s, p))[x] == if p(x) then multiset(s)[x] else 0
    decreases |s|
  {
    if s != [] {
      KeepCounts(s[1..], p);
      assert s == [s[0]] + s[1..];
    }
  }

  /** Array.prototype.slice(start) with one argument: NaN counts as 0,
      a negative start counts back from the end, and both ends are clamped. */
  function SliceFrom<T>(s: seq<T>, start: Num): seq<T> {
    match start
    case NaN => s
    case Int(n) =>
      var from := if n < 0 then (if |s| + n < 0 then 0 else |s| + n) else Min(n, |s|);
      s[from..]
  }

  /** The last `limit` entries as the routes take them: a positive limit keeps
      the last `limit` of them (all when there are fewer); 0 and NaN keep all
      of them, whereas a negative limit drops the first `-limit`. */
  function LastEntries<T>(entries: seq<T>, limit: Num): (r: seq<T>)
    ensures |r| <= |entries| && r == entries[|entries| - |r|..]
  {
    match limit
    case NaN => entries
    case Int(n) =>
      if n > 0 then entries[|entries| - Min(n, |entries|)..]
      else entries[Min(-n, |entries|)..]
  }

  /** ... which is exactly `entries.slice(-limit)`. */
  lemma LastEntriesIsSlice<T>(entries: seq<T>, limit: Num)
    ensures LastEntries(entries, limit) == SliceFrom(entries, Neg(limit))
  {
  }

  /** How many entries a limit leaves. */
  lemma LastEntriesLength<T>(entries: seq<T>, limit: Num)
    ensures limit.NaN? || limit == Int(0) ==> LastEntries(entries, limit) == entries
    ensures limit.Int? && limit.n > 0 ==> |LastEntries(entries, limit)| == Min(limit.n, |entries|)
    ensures limit.Int? && limit.n < 0 ==> |LastEntries(entries, limit)| == |entries| - Min(-limit.n, |entries|)
  {
  }

  /** `parseInt(limit)` for a query parameter with the given default. */
  function QueryLimit(limit: Option<string>, default: nat): Num {
    match limit
    case None => Int(default)
    case Some(text) => ParseInt(text)
  }

  // GET /:botId

  /** The level filter runs only when `level` is given and not empty. */
  predicate FiltersLevel(level: Option<string>) {
    level.Some? && level.value != ""
  }

  function HasLevel(level: string): LogEntry -> bool {
    (e: LogEntry) => e.level == level
  }

  function LevelFiltered(logs: seq<LogEntry>, level: Option<string>): seq<LogEntry> {
    if FiltersLevel(level) then Keep(logs, HasLevel(level.value)) else logs
  }

  /** The filtered log is a subsequence of the log, of entries of the level. */
  lemma LevelFilteredSound(logs: seq<LogEntry>, level: Option<string>)
    ensures var f := LevelFiltered(logs, level);
      && |f| <= |logs| && IsSubsequence(f, logs)
      && (FiltersLevel(level) ==> forall e | e in f :: e.level == level.value)
  {
    SubsequenceReflexive(logs);
  }

  /** A suffix of a subsequence holds only elements of it and is a
      subsequence itself. */
  lemma SuffixOfSubsequence<T>(f: seq<T>, b: seq<T>, r: seq<T>)
    requires |r| <= |f| && r == f[|f| - |r|..] && IsSubsequence(f, b)
    ensures IsSubsequence(r, b)
    ensures forall e | e in r :: e in f
  {
    SubsequenceSuffix(f, b, |f| - |r|);
    forall e | e in r ensures e in f {
      var i :| 0 <= i < |r| && r[i] == e;
      assert f[|f| - |r| + i] == e;
    }
  }

  /** The log query: entries of the given level only, in their order, and at
      most the last `limit` of those (100 by default). */
  function QueryLogs(logs: seq<LogEntry>, level: Option<string>, limit: Option<string>): (r: seq<LogEntry>)
    ensures |r| <= |logs| && IsSubsequence(r, logs)
    ensures FiltersLevel(level) ==> forall e | e in r :: e.level == level.value
    ensures var f := LevelFiltered(logs, level);
      && |r| <= |f| && r == f[|f| - |r|..]
      && (limit.None? ==> |r| == Min(DefaultLogLimit, |f|))
  {
    var f := LevelFiltered(logs, level);
    var r := LastEntries(f, QueryLimit(limit, DefaultLogLimit));
    LevelFilteredSound(logs, level);
    SuffixOfSubsequence(f, logs, r);
    LastEntriesLength(f, QueryLimit(limit, DefaultLogLimit));
    r
  }

  /** A level filter keeps every entry of that level, each as often as the
      log holds it, and nothing else. */
  lemma LevelFilterComplete(logs: seq<LogEntry>, level: Option<string>)
    ensures FiltersLevel(level) ==> var f := LevelFiltered(logs, level);
      forall e :: multiset(f)[e] == if e.level == level.value then multiset(logs)[e] else 0
    ensures !FiltersLevel(level) ==> LevelFiltered(logs, level) == logs
  {
    if FiltersLevel(level) {
      KeepCounts(logs, HasLevel(level.value));
    }
  }

  /** The handler: 500 when there is no bot manager, otherwise the log query
      over getBotLogs, so an unknown bot gets an empty list. */
  function GetLogs(manager: BotManager?, botId: BotId, level: Option<string>, limit: Option<string>): (r: Reply<seq<LogEntry>>)
    requires manager != null ==> manager.Valid()
    reads if manager != null then {manager, manager.host} else {}
    ensures manager == null <==> r == ServerError(ManagerUnavailable)
    ensures r.Success? ==> IsSubsequence(r.body, manager.GetBotLogs(botId)) && |r.body| <= LogCap
    ensures r.Success? && FiltersLevel(level) ==> forall e | e in r.body :: e.level == level.value
    ensures r.Success? && botId !in manager.botLogs ==> r.body == []
  {
    if manager == null then ServerError(ManagerUnavailable)
    else
      var logs := manager.GetBotLogs(botId);
      Success(QueryLogs(logs, level, limit))
  }

  // GET /:botId/errors

  /** The error query: at most the last `limit` entries (50 by default). */
  function QueryErrors(errors: seq<ErrorEntry>, limit: Option<string>): (r: seq<ErrorEntry>)
    ensures |r| <= |errors| && r == errors[|errors| - |r|..]
    ensures limit.None? ==> |r| == Min(DefaultErrorLimit, |errors|)
  {
    LastEntriesLength(errors, QueryLimit(limit, DefaultErrorLimit));
    LastEntries(errors, QueryLimit(limit, DefaultErrorLimit))
  }

  function GetErrors(manager: BotManager?, botId: BotId, limit: Option<string>): (r: Reply<seq<ErrorEntry>>)
    requires manager != null ==> manager.Valid()
    reads if manager != null then {manager, manager.host} else {}
    ensures manager == null <==> r == ServerError(ManagerUnavailable)
    ensures r.Success? ==> var stored := manager.GetBotErrors(botId);
      && |r.body| <= |stored| && r.body == stored[|stored| - |r.body|..] && |r.body| <= ErrorCap
    ensures r.Success? && botId !in manager.botErrors ==> r.body == []
  {
    if manager == null then ServerError(ManagerUnavailable)
    else Success(QueryErrors(manager.GetBotErrors(botId), limit))
  }

  // DELETE /:botId

  /** The `type` parameter, "all" by default. */
  function ClearKind(kind: Option<string>): string {
    kind.GetOr("all")
  }

  predicate ClearsLogs(kind: Option<string>) {
    ClearKind(kind) == "logs" || ClearKind(kind) == "all"
  }

  predicate ClearsErrors(kind: Option<string>) {
    ClearKind(kind) == "errors" || ClearKind(kind) == "all"
  }

  const ClearedPrefix: string := "Cleared "
  const ForBot: string := " for bot "

  function ClearMessage(kind: Option<string>, botId: BotId): string {
    ClearedPrefix + ClearKind(kind) + ForBot + botId
  }

  /** The supervisor after clearing: the histories `kind` names are set to
      empty lists for the bot (entries are created for an unknown one). */
  function AfterClear(w: World, botId: BotId, kind: Option<string>): World {
    w.(botLogs := if ClearsLogs(kind) then w.botLogs[botId := []] else w.botLogs,
       botErrors := if ClearsErrors(kind) then w.botErrors[botId := []] else w.botErrors)
  }

  /** "logs" empties only the bot's log, "errors" only its error history, "all"
      (or no type) both; any other type clears nothing. No other bot's
      histories, no registration, configuration, event or host state change. */
  lemma ClearEffect(w: World, botId: BotId, kind: Option<string>)
    ensures var w' := AfterClear(w, botId, kind);
      && Lookup(w'.botLogs, botId) == (if ClearsLogs(kind) then [] else Lookup(w.botLogs, botId))
      && Lookup(w'.botErrors, botId) == (if ClearsErrors(kind) then [] else Lookup(w.botErrors, botId))
      && (forall id | id != botId :: Lookup(w'.botLogs, id) == Lookup(w.botLogs, id)
            && Lookup(w'.botErrors, id) == Lookup(w.botErrors, id))
      && w'.botProcesses == w.botProcesses && w'.bots == w.bots && w'.events == w.events && w'.os == w.os
    ensures kind == Some("logs") ==> AfterClear(w, botId, kind).botErrors == w.botErrors
    ensures kind == Some("errors") ==> AfterClear(w, botId, kind).botLogs == w.botLogs
    ensures kind.None? ==> ClearsLogs(kind) && ClearsErrors(kind)
    ensures kind.Some? && kind.value != "logs" && kind.value != "errors" && kind.value != "all" ==>
      AfterClear(w, botId, kind) == w
  {
  }

  /** The handler: it reports success whatever the type. */
  method ClearHistory(manager: BotManager?, botId: BotId, kind: Option<string>) returns (r: Reply<string>)
    requires manager != null ==> manager.Valid()
    modifies manager
    ensures manager == null ==> r == ServerError(ManagerUnavailable)
    ensures manager != null ==> manager.Valid()
    ensures manager != null ==> r == Success(ClearMessage(kind, botId))
    ensures manager != null ==> manager.State() == AfterClear(old(manager.State()), botId, kind)
  {
    if manager == null {
      return ServerError(ManagerUnavailable);
    }
    if ClearsLogs(kind) {
      manager.botLogs := manager.botLogs[botId := []];
    }
    if ClearsErrors(kind) {
      manager.botErrors := manager.botErrors[botId := []];
    }
    r := Success(ClearMessage(kind, botId));
  }

  // GET /system/combined and /system/errors

  /** A line of a system log: the parsed JSON value, or the line itself with
      the time it was read when it is not JSON. */
  datatype SystemEntry<P> = Parsed(value: P) | Unparsed(message: string, timestamp: string)

  function ToEntry<P>(line: string, parse: string -> Option<P>, now: string): SystemEntry<P> {
    match parse(line)
    case Some(v) => Parsed(v)
    case None => Unparsed(line, now)
  }

  function NotBlank(line: string): bool {
    Trim(line) != []
  }

  /** The lines of a file that are not blank, in order. */
  function NonBlankLines(text: string): (r: seq<string>)
    ensures forall line | line in r :: !IsBlank(line) && '\n' !in line
    ensures IsSubsequence(r, Split(text, '\n'))
  {
    var lines := Split(text, '\n');
    SplitPiecesAvoidSeparator(text, '\n');
    var r := Keep(lines, NotBlank);
    forall line | line in r ensures !IsBlank(line) {
      TrimEmptyIffBlank(line);
    }
    r
  }

  /** No non-blank line is dropped: each occurs as often as in the file. */
  lemma NonBlankLinesComplete(text: string)
    ensures forall line :: multiset(NonBlankLines(text))[line] == if IsBlank(line) then 0 else multiset(Split(text, '\n'))[line]
  {
    KeepCounts(Split(text, '\n'), NotBlank);
    forall line ensures NotBlank(line) <==> !IsBlank(line) {
      TrimEmptyIffBlank(line);
    }
  }

  /** A reader: nothing when the file does not exist, otherwise one entry per
      non-blank line, cut to the last `cap`. */
  function ReadSystemLog<P>(file: Option<string>, parse: string -> Option<P>, now: string, cap: nat): (r: seq<SystemEntry<P>>)
    requires cap > 0
    ensures |r| <= cap
    ensures file.None? ==> r == []
    ensures file.Some? ==> var lines := NonBlankLines(file.value);
      && |r| == Min(cap, |lines|)
      && forall i | 0 <= i < |r| :: r[i] == ToEntry(lines[|lines| - |r| + i], parse, now)
  {
    match file
    case None => []
    case Some(text) =>
      var lines := NonBlankLines(text);
      var entries := seq(|lines|, i requires 0 <= i < |lines| => ToEntry(lines[i], parse, now));
      LastEntriesLength(entries, Int(cap));
      LastEntries(entries, Int(cap))
  }

  /** GET /system/combined: the last 100 entries of the combined log. */
  function SystemCombined<P>(file: Option<string>, parse: string -> Option<P>, now: string): (r: seq<SystemEntry<P>>)
    ensures |r| <= CombinedLimit
  {
    ReadSystemLog(file, parse, now, CombinedLimit)
  }

  /** GET /system/errors: the last 50 entries of the error log. Registered
      after `/:botId/errors`, which matches the same path first. */
  function SystemErrors<P>(file: Option<string>, parse: string -> Option<P>, now: string): (r: seq<SystemEntry<P>>)
    ensures |r| <= ErrorLogLimit
  {
    ReadSystemLog(file, parse, now, ErrorLogLimit)
  }

  /** An entry is the fallback exactly when its line is not JSON, and then it
      carries the line itself. */
  lemma SystemEntryFallback<P>(file: Option<string>, parse: string -> Option<P>, now: string, cap: nat, i: nat)
    requires cap > 0 && file.Some? && i < |ReadSystemLog(file, parse, now, cap)|
    ensures var r := ReadSystemLog(file, parse, now, cap);
      var lines := NonBlankLines(file.value);
      var line := lines[|lines| - |r| + i];
      && (r[i].Unparsed? <==> parse(line).None?)
      && (r[i].Unparsed? ==> r[i].message == line && !IsBlank(line))
  {
    var r := ReadSystemLog(file, parse, now, cap);
    var lines := NonBlankLines(file.value);
    assert lines[|lines| - |r| + i] in lines;
  }
}
