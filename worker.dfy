/**
 * The worker script, worker.js: picking the assigned configurations and
 * their display names, deciding what a finished compilation means, printing
 * a run's errors and warnings, and choosing the compiler and mode.
 *
 * The bundler is not modelled: a compilation result is a `Stats` value with
 * its error flag, warning flag and the two lists `toJson()` would give.
 */
module Worker {
  import opened Wrappers
  import opened Configs

  /** What the worker throws: reading through `undefined`, or the bare `new Error()` of worker.js:74. */
  datatype Thrown = TypeError | BuildFailed

  /** JavaScript truthiness of an optional string: present and not empty. */
  predicate Truthy(s: Option<string>)
  {
    s.Some? && s.value != ""
  }

  function Digit(d: nat): char
    requires d < 10
  {
    "0123456789"[d]
  }

  /** The decimal form of an array index, as `Object.keys` spells it. */
  function DecimalString(n: nat): (s: string)
    ensures 1 <= |s|
    ensures forall i :: 0 <= i < |s| ==> '0' <= s[i] <= '9'
  {
    if n < 10 then [Digit(n)] else DecimalString(n / 10) + [Digit(n % 10)]
  }

  /** `Object.keys(entry)` for an entry that is not `undefined`. */
  function OwnKeys(entry: Entry): seq<string>
    requires !entry.EntryUndefined?
  {
    match entry
    case EntryObject(keys) => keys
    case EntryString(path) => seq(|path|, i requires 0 <= i < |path| => DecimalString(i))
    case EntryArray(paths) => seq(|paths|, i requires 0 <= i < |paths| => DecimalString(i))
    case EntryFunction => []
  }

  /**
   * `getConfigName(config)` (worker.js:13): the first key of the entry, or
   * `undefined` when it has none; reading the entry of a missing
   * configuration, or the keys of a missing entry, throws.
   */
  function GetConfigName(config: Option<Config>): (r: Result<Option<string>, Thrown>)
    ensures r.Failure? <==> config.None? || config.value.entry.EntryUndefined?
    ensures r.Failure? ==> r.error == TypeError
    ensures config.Some? && config.value.entry.EntryObject? ==>
      r == Success(if config.value.entry.keys == [] then None else Some(config.value.entry.keys[0]))
    ensures config.Some? && config.value.entry.EntryString? ==>
      r == Success(if config.value.entry.path == "" then None else Some("0"))
    ensures config.Some? && config.value.entry.EntryArray? ==>
      r == Success(if config.value.entry.paths == [] then None else Some("0"))
    ensures config.Some? && config.value.entry.EntryFunction? ==> r == Success(None)
  {
    if config.None? || config.value.entry.EntryUndefined? then Failure(TypeError)
    else
      var keys := OwnKeys(config.value.entry);
      Success(if keys == [] then None else Some(keys[0]))
  }

  /** `config[id]`: `undefined` past the end of the list. */
  function Lookup(config: seq<Config>, id: nat): (c: Option<Config>)
    ensures c.Some? <==> id < |config|
    ensures c.Some? ==> c.value == config[id]
  {
    if id < |config| then Some(config[id]) else None
  }

  /** The assigned configurations and their names, position by position. */
  datatype Grabbed = Grabbed(configs: seq<Config>, names: seq<Option<string>>)

  /**
   * `grabConfigurations(config, configIds)` (worker.js:15-24): the assigned
   * configurations in the order of the ids, each with its name; the first id
   * that is out of range or whose entry is missing makes it throw.
   */
  method GrabConfigurations(config: seq<Config>, configIds: seq<nat>) returns (r: Result<Grabbed, Thrown>)
    ensures r.Success? <==>
      forall i :: 0 <= i < |configIds| ==>
        configIds[i] < |config| && !config[configIds[i]].entry.EntryUndefined?
    ensures r.Failure? ==> r.error == TypeError
    ensures r.Success? ==> |r.value.configs| == |configIds| && |r.value.names| == |configIds|
    ensures r.Success? ==> forall i :: 0 <= i < |configIds| ==>
      configIds[i] < |config| &&
      r.value.configs[i] == config[configIds[i]] &&
      Success(r.value.names[i]) == GetConfigName(Some(config[configIds[i]]))
  {
    var configs: seq<Config> := [];
    var configsNames: seq<Option<string>> := [];
    for i := 0 to |configIds|
      invariant |configs| == i && |configsNames| == i
      invariant forall j :: 0 <= j < i ==>
        configIds[j] < |config| && !config[configIds[j]].entry.EntryUndefined?
      invariant forall j :: 0 <= j < i ==>
        configs[j] == config[configIds[j]] &&
        Success(configsNames[j]) == GetConfigName(Some(config[configIds[j]]))
    {
      var id := configIds[i];
      var name := GetConfigName(Lookup(config, id));
      if name.Failure? {
        return Failure(name.error);
      }
      configsNames := configsNames + [name.value];
      configs := configs + [config[id]];
    }
    return Success(Grabbed(configs, configsNames));
  }

  /** A warning or error object of `stats.toJson()`: its `message`, and how it prints as a whole. */
  datatype Problem = Problem(message: Option<string>, text: string)

  /** The compilation result as the worker reads it. */
  datatype Stats = Stats(hasErrors: bool, errors: seq<Problem>, hasWarnings: bool, warnings: seq<Problem>)

  /** The fatal error handed to the `run` callback. */
  datatype CompileError = CompileError(stack: Option<string>, text: string, details: Option<string>)

  /** Console output of the worker, without colour, emoji or timings. */
  datatype Output =
    | StartLine(watching: bool, name: Option<string>)
    | RebuildingLine(name: Option<string>)
    | FailureBuilding(name: Option<string>)
    | ErrorMessage(message: Option<string>)
    | ErrorStack(text: string)
    | ErrorDetails(text: string)
    | CloseCompiler
    | WarningLine(text: string)

  /** What a finished compilation leads to: a throw, the completion callback, or neither. */
  datatype DoneEffect = Threw(error: Thrown) | Completed | Reported

  datatype Done = Done(lines: seq<Output>, effect: DoneEffect)

  /**
   * `onCompilationDone` (worker.js:57-79): without errors it calls the
   * completion callback once; with errors it reports the configuration and
   * the first error's message, then throws only when asked to. An error flag
   * with an empty error list throws a `TypeError` whatever was asked.
   */
  function OnCompilationDone(stats: Stats, configName: Option<string>, throwError: bool): (d: Done)
    ensures d.effect == Completed <==> !stats.hasErrors
    ensures d.effect.Threw? <==> stats.hasErrors && (throwError || stats.errors == [])
    ensures d.effect == Threw(BuildFailed) <==> stats.hasErrors && stats.errors != [] && throwError
    ensures !stats.hasErrors ==> d.lines == []
    ensures stats.hasErrors ==> 1 <= |d.lines| <= 2 && d.lines[0] == FailureBuilding(configName)
    ensures stats.hasErrors && stats.errors != [] ==>
      |d.lines| == 2 && d.lines[1] == ErrorMessage(stats.errors[0].message)
  {
    if stats.hasErrors then
      if stats.errors == [] then Done([FailureBuilding(configName)], Threw(TypeError))
      else
        var lines := [FailureBuilding(configName), ErrorMessage(stats.errors[0].message)];
        Done(lines, if throwError then Threw(BuildFailed) else Reported)
    else Done([], Completed)
  }

  /** How one warning prints (worker.js:48-52): its message if truthy, else the warning itself. */
  function WarningText(w: Problem): string
  {
    if Truthy(w.message) then w.message.value else w.text
  }

  /**
   * `runCallback(compiler, err, stats)` (worker.js:26-55): a fatal error is
   * printed (stack if any, then details if any) and nothing else happens;
   * otherwise errors close the compiler and each warning prints in order.
   */
  method RunCallback(err: Option<CompileError>, stats: Stats) returns (out: seq<Output>)
    ensures err.Some? ==>
      |out| == (if Truthy(err.value.details) then 2 else 1) &&
      out[0] == ErrorStack(if Truthy(err.value.stack) then err.value.stack.value else err.value.text) &&
      (Truthy(err.value.details) ==> out[1] == ErrorDetails(err.value.details.value))
    ensures err.None? ==>
      var closing := if stats.hasErrors then 1 else 0;
      && |out| == closing + (if stats.hasWarnings then |stats.warnings| else 0)
      && (stats.hasErrors ==> out[0] == CloseCompiler)
      && forall i :: closing <= i < |out| ==> out[i] == WarningLine(WarningText(stats.warnings[i - closing]))
  {
    if err.Some? {
      var e := err.value;
      out := [ErrorStack(if Truthy(e.stack) then e.stack.value else e.text)];
      if Truthy(e.details) {
        out := out + [ErrorDetails(e.details.value)];
      }
      return;
    }
    out := [];
    if stats.hasErrors {
      out := [CloseCompiler];
    }
    var closing := |out|;
    if stats.hasWarnings {
      for i := 0 to |stats.warnings|
        invariant |out| == closing + i
        invariant stats.hasErrors ==> out[0] == CloseCompiler
        invariant forall j :: closing <= j < |out| ==> out[j] == WarningLine(WarningText(stats.warnings[j - closing]))
      {
        out := out + [WarningLine(WarningText(stats.warnings[i]))];
      }
    }
  }

  /** The compiler a worker drives and its mode. */
  datatype Plan =
    | MultiCompiler(configs: seq<Config>, names: seq<Option<string>>, watching: bool)
    | SingleCompiler(config: Option<Config>, name: Option<string>, watching: bool)

  /** `s[0]`: `undefined` for an empty list. */
  function First<T>(s: seq<T>): (r: Option<T>)
    ensures r.Some? <==> s != []
    ensures r.Some? ==> r.value == s[0]
  {
    if s == [] then None else Some(s[0])
  }

  /**
   * The dispatch of worker.js:190-217: more than one id gets the
   * multi-compiler over all the configurations, otherwise the single
   * compiler gets the first (possibly `undefined`).
   */
  function Dispatch(configIds: seq<nat>, grabbed: Grabbed, watchMode: bool): (p: Plan)
    ensures p.MultiCompiler? <==> |configIds| > 1
    ensures p.watching == watchMode
    ensures p.MultiCompiler? ==> p.configs == grabbed.configs && p.names == grabbed.names
    ensures p.SingleCompiler? ==>
      p.config == First(grabbed.configs) &&
      p.name == (if grabbed.names == [] then None else grabbed.names[0])
  {
    if |configIds| > 1 then MultiCompiler(grabbed.configs, grabbed.names, watchMode)
    else
      var name := if grabbed.names == [] then None else grabbed.names[0];
      SingleCompiler(First(grabbed.configs), name, watchMode)
  }

  /** How many compilers carry hooks under a plan. */
  function CompilerCount(p: Plan): nat
  {
    if p.MultiCompiler? then |p.configs| else 1
  }

  /** The name the hooks of compiler `id` report. */
  function NameOf(p: Plan, id: nat): Option<string>
    requires id < CompilerCount(p)
  {
    match p
    case MultiCompiler(_, names, _) => if id < |names| then names[id] else None
    case SingleCompiler(_, name, _) => name
  }

  /**
   * The `done` hook of compiler `id` (worker.js:99-101, 129-131, 153-155,
   * 178-180): batch mode always asks `onCompilationDone` to throw, watch
   * mode never does.
   */
  function DoneHook(p: Plan, id: nat, stats: Stats): (d: Done)
    requires id < CompilerCount(p)
    ensures !p.watching && stats.hasErrors ==> d.effect.Threw?
    ensures p.watching && stats.errors != [] ==> !d.effect.Threw?
    ensures d.effect == Completed <==> !stats.hasErrors
  {
    OnCompilationDone(stats, NameOf(p, id), !p.watching)
  }

  /** The `watchRun` hook (worker.js:103-109, 157-163): registered in watch mode only. */
  function WatchRunHook(p: Plan, id: nat): (line: Option<Output>)
    requires id < CompilerCount(p)
    ensures line.Some? <==> p.watching
    ensures line.Some? ==> line.value == RebuildingLine(NameOf(p, id))
  {
    if p.watching then Some(RebuildingLine(NameOf(p, id))) else None
  }

  /** The start announcements (worker.js:193-199, 210-214): one per configuration name. */
  function StartLines(p: Plan): (lines: seq<Output>)
    ensures p.MultiCompiler? ==>
      (|lines| == |p.names| && forall i :: 0 <= i < |lines| ==> lines[i] == StartLine(p.watching, p.names[i]))
    ensures p.SingleCompiler? ==> lines == [StartLine(p.watching, p.name)]
  {
    match p
    case MultiCompiler(_, names, watching) =>
      seq(|names|, i requires 0 <= i < |names| => StartLine(watching, names[i]))
    case SingleCompiler(_, name, watching) => [StartLine(watching, name)]
  }

  /**
   * The worker's top level (worker.js:184-217) given its own copy of the
   * configuration list: grab the assigned configurations, then dispatch.
   */
  method WorkerMain(config: seq<Config>, data: WorkerData) returns (r: Result<Plan, Thrown>, starts: seq<Output>)
    ensures r.Success? <==>
      forall i :: 0 <= i < |data.configIds| ==>
        data.configIds[i] < |config| && !config[data.configIds[i]].entry.EntryUndefined?
    ensures r.Failure? ==> r.error == TypeError && starts == []
    ensures r.Success? ==> (r.value.MultiCompiler? <==> |data.configIds| > 1)
    ensures r.Success? ==> r.value.watching == data.watchMode
    ensures r.Success? && r.value.MultiCompiler? ==>
      |r.value.configs| == |data.configIds| &&
      forall i :: 0 <= i < |data.configIds| ==> r.value.configs[i] == config[data.configIds[i]]
    ensures r.Success? && r.value.MultiCompiler? ==>
      |r.value.names| == |data.configIds| &&
      forall i :: 0 <= i < |data.configIds| ==>
        Success(r.value.names[i]) == GetConfigName(Some(config[data.configIds[i]]))
    ensures r.Success? && r.value.SingleCompiler? ==>
      (r.value.config.Some? <==> |data.configIds| == 1) &&
      (|data.configIds| == 1 ==> r.value.config.value == config[data.configIds[0]])
    ensures r.Success? && r.value.SingleCompiler? && |data.configIds| == 1 ==>
      Success(r.value.name) == GetConfigName(Some(config[data.configIds[0]]))
    ensures r.Success? && r.value.SingleCompiler? && data.configIds == [] ==>
      r.value.name == None
    ensures r.Success? ==> starts == StartLines(r.value)
  {
    var grabbed := GrabConfigurations(config, data.configIds);
    if grabbed.Failure? {
      return Failure(grabbed.error), [];
    }
    var plan := Dispatch(data.configIds, grabbed.value, data.watchMode);
    return Success(plan), StartLines(plan);
  }
}
