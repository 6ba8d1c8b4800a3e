/** What `initSystemJs` makes of a host (Karma) configuration: the support files it
    puts in front of `files`, the user's extra files and the adapter script it appends,
    and the `client.systemjs` record it attaches. Everything here is a function of the
    configuration and of the environment the plugin runs in. */
module Framework {
  import opened Values

  /** An entry of the host's file list: a bare pattern string, which only callers put
      there, or a pattern object with its three flags. */
  datatype FileEntry =
    | Raw(path: string)
    | Pattern(pattern: string, included: bool, served: bool, watched: bool)

  /** The `systemjs` section of the host configuration; every field reads as unset
      (undefined, no file, no extra files) when the user leaves it out. */
  datatype Options = Options(config: Json, configFile: Option<string>, files: seq<string>, testFileSuffix: Json)

  /** The parts of the host configuration the plugin reads or writes. */
  datatype Snapshot = Snapshot(
    files: seq<FileEntry>,
    basePath: Option<string>,
    client: map<string, Json>,
    systemjs: Option<Options>)

  /** What the plugin learns from the machine it runs on: where module resolution finds
      each support package (by canonical name), where its own adapter script lives, and
      what loading and evaluating a configuration file yields. */
  datatype Env = Env(resolve: string -> string, adapter: string, load: string -> Result<Json>)

  /** The three-way transpiler choice. */
  datatype Transpiler = DefaultTranspiler | Named(name: string) | NoTranspiler

  const Loader := "es6-module-loader"
  const Polyfills := "system-polyfills"
  const SystemJs := "systemjs"

  /** Module resolution found the packages the tests expect where they expect them. */
  ghost predicate Resolved(env: Env)
  {
    && EndsWith(env.resolve("traceur"), "/traceur.js")
    && DirThenFile(env.resolve("babel"), "/babel-core/", "/browser.js")
    && DirThenFile(env.resolve("typescript"), "/typescript/", "/typescript.js")
    && EndsWith(env.resolve(Loader), "/es6-module-loader.src.js")
    && EndsWith(env.resolve(Polyfills), "/system-polyfills.js")
    && EndsWith(env.resolve(SystemJs), "/system.src.js")
    && EndsWith(env.adapter, "adapter.js")
  }

  /** A missing `systemjs` section behaves as an empty one. */
  function Normalize(section: Option<Options>): Options
  {
    match section
    case Some(o) => o
    case None => Options(Undefined, None, [], Undefined)
  }

  /** The module-loader configuration in effect: the value loaded from `configFile`
      when one is named (replacing any inline `config`), else the inline `config`. */
  function EffectiveConfig(opts: Options, env: Env): (r: Result<Json>)
    ensures opts.configFile.Some? ==> r == env.load(opts.configFile.value)
    ensures opts.configFile.None? ==> r == Ok(opts.config)
    ensures r.Err? ==> opts.configFile.Some?
  {
    match opts.configFile
    case Some(path) => env.load(path)
    case None => Ok(opts.config)
  }

  /** `config.transpiler`: null disables the transpiler, a string names one, and
      anything else (including a config that is not an object) keeps the default. */
  function Selection(config: Json): (r: Transpiler)
    ensures r == NoTranspiler <==> Get(config, "transpiler") == Null
    ensures r.Named? <==> Get(config, "transpiler").Str?
    ensures r.Named? ==> Get(config, "transpiler") == Str(r.name)
    ensures !config.Obj? ==> r == DefaultTranspiler
  {
    match Get(config, "transpiler")
    case Null => NoTranspiler
    case Str(name) => Named(name)
    case _ => DefaultTranspiler
  }

  /** The canonical name under which the chosen transpiler is resolved and overridden. */
  function TranspilerKey(t: Transpiler): string
    requires t != NoTranspiler
  {
    match t
    case DefaultTranspiler => "traceur"
    case Named(name) => name
  }

  /** The canonical names of the support files, in the order they are loaded. */
  function SupportKeys(config: Json): seq<string>
  {
    var t := Selection(config);
    (if t == NoTranspiler then [] else [TranspilerKey(t)]) + [Loader, Polyfills, SystemJs]
  }

  /** `config.paths[key]` when it is a non-empty string. */
  function Override(config: Json, key: string): (r: Option<string>)
    ensures r.Some? <==> Get(Get(config, "paths"), key).Str? && Get(Get(config, "paths"), key) != Str("")
    ensures r.Some? ==> Get(Get(config, "paths"), key) == Str(r.value)
    ensures !Get(config, "paths").Obj? ==> r == None
  {
    match Get(Get(config, "paths"), key)
    case Str(p) => if p != "" then Some(p) else None
    case _ => None
  }

  function SupportPath(config: Json, env: Env, key: string): string
  {
    match Override(config, key)
    case Some(p) => p
    case None => env.resolve(key)
  }

  /** A file the browser loads with a script tag. */
  function IncludeEntry(path: string): FileEntry
  {
    Pattern(path, true, true, true)
  }

  /** The support files, each at its overridden or resolved path: the transpiler
      (unless disabled), then the module loader, its polyfills and SystemJS itself. */
  function SupportFiles(config: Json, env: Env): (r: seq<FileEntry>)
    ensures |r| == 3 <==> Selection(config) == NoTranspiler
    ensures |r| == 4 <==> Selection(config) != NoTranspiler
    ensures forall i :: 0 <= i < |r| ==> r[i].Pattern? && r[i].included && r[i].served
  {
    var t := Selection(config);
    (if t == NoTranspiler then [] else [IncludeEntry(SupportPath(config, env, TranspilerKey(t)))])
    + [ IncludeEntry(SupportPath(config, env, Loader)),
        IncludeEntry(SupportPath(config, env, Polyfills)),
        IncludeEntry(SupportPath(config, env, SystemJs)) ]
  }

  /** An extra file is found under `basePath` when the host sets a non-empty one, else
      under `./`; an empty `basePath` counts as unset, as an empty override path does. */
  function ExtraPattern(basePath: Option<string>, file: string): (r: string)
  {
    match basePath
    case Some(b) => if b != "" then b + "/" + file else "./" + file
    case None => "./" + file
  }

  /** An extra file is served and watched, but only the module loader fetches it. */
  function ExtraEntry(basePath: Option<string>, file: string): FileEntry
  {
    Pattern(ExtraPattern(basePath, file), false, true, true)
  }

  function ExtraFiles(basePath: Option<string>, files: seq<string>): (r: seq<FileEntry>)
    ensures |r| == |files|
  {
    if files == [] then [] else [ExtraEntry(basePath, files[0])] + ExtraFiles(basePath, files[1..])
  }

  /** Appending one more extra file appends exactly its entry: the initialiser can add
      the extra files one at a time. */
  lemma {:induction false} ExtraFilesSnoc(basePath: Option<string>, files: seq<string>, file: string)
    ensures ExtraFiles(basePath, files + [file]) == ExtraFiles(basePath, files) + [ExtraEntry(basePath, file)]
  {
    if files != [] {
      assert (files + [file])[1..] == files[1..] + [file];
      ExtraFilesSnoc(basePath, files[1..], file);
    }
  }

  /** The i-th extra entry is the i-th declared file, in declaration order. */
  lemma {:induction false} ExtraFilesAt(basePath: Option<string>, files: seq<string>, i: int)
    requires 0 <= i < |files|
    ensures ExtraFiles(basePath, files)[i] == ExtraEntry(basePath, files[i])
  {
    if i > 0 {
      ExtraFilesAt(basePath, files[1..], i - 1);
    }
  }

  function AdapterEntry(env: Env): FileEntry
  {
    IncludeEntry(env.adapter)
  }

  /** The record attached as `client.systemjs`. */
  function ClientSystemJs(testFileSuffix: Json, config: Json): Json
  {
    Obj(map["testFileSuffix" := testFileSuffix, "config" := config])
  }

  /** The final file list: support files, then what the caller already had, then the
      extra files, then the adapter script. */
  function Assemble(existing: seq<FileEntry>, basePath: Option<string>, extra: seq<string>, config: Json, env: Env): seq<FileEntry>
  {
    SupportFiles(config, env) + existing + ExtraFiles(basePath, extra) + [AdapterEntry(env)]
  }

  /** The host configuration after `initSystemJs`, or the error loading `configFile` raised. */
  function Init(host: Snapshot, env: Env): (r: Result<Snapshot>)
    ensures r.Err? <==> EffectiveConfig(Normalize(host.systemjs), env).Err?
    ensures r.Ok? ==>
      && r.value.basePath == host.basePath
      && r.value.systemjs == Some(Normalize(host.systemjs))
      && |r.value.files| == |SupportFiles(EffectiveConfig(Normalize(host.systemjs), env).value, env)|
                            + |host.files| + |Normalize(host.systemjs).files| + 1
      && "systemjs" in r.value.client
  {
    var opts := Normalize(host.systemjs);
    match EffectiveConfig(opts, env)
    case Err(e) => Err(e)
    case Ok(config) =>
      Ok(Snapshot(
        Assemble(host.files, host.basePath, opts.files, config, env),
        host.basePath,
        host.client["systemjs" := ClientSystemJs(opts.testFileSuffix, config)],
        Some(opts)))
  }

  /** A successful load determines the whole result of `Init`. */
  lemma InitSucceeds(host: Snapshot, env: Env, config: Json)
    requires EffectiveConfig(Normalize(host.systemjs), env) == Ok(config)
    ensures var opts := Normalize(host.systemjs);
      Init(host, env) == Ok(Snapshot(
        Assemble(host.files, host.basePath, opts.files, config, env),
        host.basePath,
        host.client["systemjs" := ClientSystemJs(opts.testFileSuffix, config)],
        Some(opts)))
  {
  }
}
