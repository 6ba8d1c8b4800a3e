/** What `initSystemJs` promises about the host configuration it leaves behind: the
    order and paths of the support files, the handling of a configuration file, the
    placement of the extra files, the caller's own entries and the adapter, and the
    shape of `client.systemjs`. */
module Properties {
  import opened Values
  import opened Framework

  /** The configuration has no `paths` object, so every support file keeps its resolved path. */
  predicate NoPaths(config: Json)
  {
    !Get(config, "paths").Obj?
  }

  /** A transpiler choice whose file module resolution is known to place as expected. */
  predicate KnownTranspiler(t: Transpiler)
  {
    t in {DefaultTranspiler, NoTranspiler, Named("traceur"), Named("babel"), Named("typescript")}
  }

  // ---------------------------------------------------------------------------
  // Transpiler selection and the support block

  /** Each support entry sits at the path `paths` gives for its canonical name, or at
      the resolved default path when there is no override; the names, and so the order,
      depend on the transpiler choice alone. */
  lemma SupportFilesByKey(config: Json, env: Env)
    ensures |SupportFiles(config, env)| == |SupportKeys(config)|
    ensures forall i :: 0 <= i < |SupportKeys(config)| ==>
      var key := SupportKeys(config)[i];
      SupportFiles(config, env)[i] == IncludeEntry(
        match Override(config, key)
        case Some(p) => p
        case None => env.resolve(key))
  {
  }

  /** Paths never reorder the support block: equal transpiler settings give equal names. */
  lemma SupportKeysIgnorePaths(c1: Json, c2: Json)
    requires Get(c1, "transpiler") == Get(c2, "transpiler")
    ensures SupportKeys(c1) == SupportKeys(c2)
    ensures SupportKeys(c1)[|SupportKeys(c1)| - 3..] == [Loader, Polyfills, SystemJs]
  {
  }

  /** With no transpiler option the block is traceur, es6-module-loader, system-polyfills, SystemJS. */
  lemma DefaultSupportOrder(config: Json, env: Env)
    requires Resolved(env) && NoPaths(config)
    requires Selection(config) == DefaultTranspiler
    ensures var s := SupportFiles(config, env);
      && |s| == 4 && (forall i :: 0 <= i < 4 ==> s[i].Pattern?)
      && EndsWith(s[0].pattern, "/traceur.js")
      && EndsWith(s[1].pattern, "/es6-module-loader.src.js")
      && EndsWith(s[2].pattern, "/system-polyfills.js")
      && EndsWith(s[3].pattern, "/system.src.js")
  {
  }

  /** Naming babel or typescript puts its file first; the default choice is traceur's. */
  lemma NamedTranspilerFirst(config: Json, env: Env)
    requires Resolved(env) && NoPaths(config)
    ensures Selection(config) == Named("babel") ==>
      DirThenFile(SupportFiles(config, env)[0].pattern, "/babel-core/", "/browser.js")
    ensures Selection(config) == Named("typescript") ==>
      DirThenFile(SupportFiles(config, env)[0].pattern, "/typescript/", "/typescript.js")
  {
  }

  /** Changing which transpiler is used changes entry 0 and nothing after it. */
  lemma TranspilerOnlyChangesHead(c1: Json, c2: Json, env: Env)
    requires Selection(c1) != NoTranspiler && Selection(c2) != NoTranspiler
    requires Get(c1, "paths") == Get(c2, "paths")
    ensures |SupportFiles(c1, env)| == |SupportFiles(c2, env)| == 4
    ensures SupportFiles(c1, env)[1..] == SupportFiles(c2, env)[1..]
  {
  }

  /** Disabling the transpiler drops exactly entry 0. */
  lemma DisabledTranspilerDropsHead(c1: Json, c2: Json, env: Env)
    requires Selection(c1) == NoTranspiler && Selection(c2) != NoTranspiler
    requires Get(c1, "paths") == Get(c2, "paths")
    ensures SupportFiles(c1, env) == SupportFiles(c2, env)[1..]
  {
  }

  /** `transpiler: null` leaves es6-module-loader, system-polyfills and SystemJS, in that order. */
  lemma DisabledSupportOrder(config: Json, env: Env)
    requires Resolved(env) && NoPaths(config)
    requires Get(config, "transpiler") == Null
    ensures var s := SupportFiles(config, env);
      && |s| == 3 && (forall i :: 0 <= i < 3 ==> s[i].Pattern?)
      && EndsWith(s[0].pattern, "/es6-module-loader.src.js")
      && EndsWith(s[1].pattern, "/system-polyfills.js")
      && EndsWith(s[2].pattern, "/system.src.js")
  {
  }

  /** The override table of the tests replaces every support path and keeps the order. */
  lemma PathOverridesExample(env: Env)
    ensures var config := Obj(map[
        "transpiler" := Str("babel"),
        "paths" := Obj(map[
          "babel" := Str("myBabel.js"),
          Loader := Str("myModuleLoader.js"),
          Polyfills := Str("myPolyfills.js"),
          SystemJs := Str("mySystem.js")])]);
      SupportFiles(config, env) == [
        IncludeEntry("myBabel.js"), IncludeEntry("myModuleLoader.js"),
        IncludeEntry("myPolyfills.js"), IncludeEntry("mySystem.js")]
  {
  }

  // ---------------------------------------------------------------------------
  // The whole file list

  /** Every output file list has the same layout: the support block, the caller's
      entries unchanged and in order, one entry per extra file in declaration order,
      and the adapter script as the one last entry. */
  lemma {:induction false} FilesLayout(host: Snapshot, env: Env)
    requires EffectiveConfig(Normalize(host.systemjs), env).Ok?
    ensures Init(host, env).Ok?
    ensures
      var opts := Normalize(host.systemjs);
      var config := EffectiveConfig(opts, env).value;
      var f := Init(host, env).value.files;
      var k, n, m := |SupportFiles(config, env)|, |host.files|, |opts.files|;
      && |f| == k + n + m + 1
      && f[..k] == SupportFiles(config, env)
      && f[k..k + n] == host.files
      && (forall i :: 0 <= i < m ==> f[k + n + i] == ExtraEntry(host.basePath, opts.files[i]))
      && f[|f| - 1] == AdapterEntry(env)
  {
    var opts := Normalize(host.systemjs);
    var config := EffectiveConfig(opts, env).value;
    var f := Init(host, env).value.files;
    var s, e := SupportFiles(config, env), ExtraFiles(host.basePath, opts.files);
    var k, n := |s|, |host.files|;
    assert f == s + host.files + e + [AdapterEntry(env)];
    assert f[..k] == s;
    assert f[k..k + n] == host.files;
    forall i | 0 <= i < |opts.files|
      ensures f[k + n + i] == ExtraEntry(host.basePath, opts.files[i])
    {
      assert f[k + n + i] == e[i];
      ExtraFilesAt(host.basePath, opts.files, i);
    }
  }

  /** Only the loaded value of `configFile` matters, not its name: two hosts that agree
      on everything else and on the effective config end up with the same files and client. */
  lemma ConfigFileOnlyThroughItsValue(h1: Snapshot, h2: Snapshot, env: Env)
    requires h1.files == h2.files && h1.basePath == h2.basePath && h1.client == h2.client
    requires Normalize(h1.systemjs).files == Normalize(h2.systemjs).files
    requires Normalize(h1.systemjs).testFileSuffix == Normalize(h2.systemjs).testFileSuffix
    requires EffectiveConfig(Normalize(h1.systemjs), env) == EffectiveConfig(Normalize(h2.systemjs), env)
    ensures Init(h1, env).Ok? <==> Init(h2, env).Ok?
    ensures Init(h1, env).Ok? ==>
      Init(h1, env).value.files == Init(h2, env).value.files &&
      Init(h1, env).value.client == Init(h2, env).value.client
  {
  }

  /** The file names the test's default paths end in. */
  const KnownSuffixes := ["/traceur.js", "/browser.js", "/typescript.js", "/es6-module-loader.src.js",
                          "/system-polyfills.js", "/system.src.js", "adapter.js"]

  /** A path ending in one of the known file names does not end in `/system.conf.js`. */
  lemma NotConfigFile(p: string, suffix: string)
    requires suffix in KnownSuffixes && EndsWith(p, suffix)
    ensures !EndsWith(p, "/system.conf.js")
  {
    var conf := "/system.conf.js";
    SharedSuffix(p, suffix, conf);
    assert !EndsWith(conf, suffix) && !EndsWith(suffix, conf) by {
      assert conf[1] == 's' && conf[4] == 't' && conf[5] == 'e';
    }
  }

  /** With default paths and a known transpiler, no support file ends in `/system.conf.js`. */
  lemma SupportNotConfigFile(config: Json, env: Env)
    requires Resolved(env) && NoPaths(config) && KnownTranspiler(Selection(config))
    ensures forall e :: e in SupportFiles(config, env) ==> e.Pattern? && !EndsWith(e.pattern, "/system.conf.js")
  {
    var t := Selection(config);
    var tail := [IncludeEntry(env.resolve(Loader)), IncludeEntry(env.resolve(Polyfills)), IncludeEntry(env.resolve(SystemJs))];
    NotConfigFile(env.resolve(Loader), "/es6-module-loader.src.js");
    NotConfigFile(env.resolve(Polyfills), "/system-polyfills.js");
    NotConfigFile(env.resolve(SystemJs), "/system.src.js");
    if t == NoTranspiler {
      assert SupportFiles(config, env) == tail;
    } else {
      var key := TranspilerKey(t);
      assert SupportFiles(config, env) == [IncludeEntry(env.resolve(key))] + tail;
      if t == Named("babel") {
        NotConfigFile(env.resolve(key), "/browser.js");
      } else if t == Named("typescript") {
        NotConfigFile(env.resolve(key), "/typescript.js");
      } else {
        NotConfigFile(env.resolve(key), "/traceur.js");
      }
    }
  }

  /** No support or adapter entry is the configuration file `test/system.conf.js`:
      with default paths, each ends in a file name that rules out `/system.conf.js`. */
  lemma ConfigFileNotServed(host: Snapshot, env: Env)
    requires Resolved(env)
    requires host.files == [] && Normalize(host.systemjs).files == []
    requires Normalize(host.systemjs).configFile == Some("test/system.conf.js")
    requires env.load("test/system.conf.js").Ok?
    requires KnownTranspiler(Selection(env.load("test/system.conf.js").value))
    requires NoPaths(env.load("test/system.conf.js").value)
    ensures Init(host, env).Ok?
    ensures forall e :: e in Init(host, env).value.files ==>
      e.Pattern? && !EndsWith(e.pattern, "/system.conf.js")
  {
    var config := env.load("test/system.conf.js").value;
    assert Init(host, env).value.files == SupportFiles(config, env) + [AdapterEntry(env)];
    SupportNotConfigFile(config, env);
    NotConfigFile(env.adapter, "adapter.js");
  }

  /** `configFile` is loaded and its value becomes both the client's config and the
      config that selects the support files; a failed load is the call's error. */
  lemma LoadedConfigIsUsed(host: Snapshot, env: Env, path: string)
    requires Normalize(host.systemjs).configFile == Some(path)
    ensures env.load(path).Err? ==> Init(host, env) == Err(env.load(path).error)
    ensures env.load(path).Ok? ==>
      var v := env.load(path).value;
      && Init(host, env).Ok?
      && Get(Init(host, env).value.client["systemjs"], "config") == v
      && Init(host, env).value.files[..|SupportFiles(v, env)|] == SupportFiles(v, env)
  {
  }

  /** Without a configuration file the inline config is used and the call cannot fail. */
  lemma InlineConfigIsUsed(host: Snapshot, env: Env)
    requires Normalize(host.systemjs).configFile == None
    ensures Init(host, env).Ok?
    ensures Get(Init(host, env).value.client["systemjs"], "config") == Normalize(host.systemjs).config
  {
  }

  /** A configuration file that exports `{transpiler: 'babel'}` reaches `client.systemjs.config.transpiler`
      and brings babel in as the first support file. */
  lemma LoadedBabelConfig(host: Snapshot, env: Env)
    requires Resolved(env)
    requires Normalize(host.systemjs).configFile == Some("test/system.conf.js")
    requires env.load("test/system.conf.js") == Ok(Obj(map["transpiler" := Str("babel")]))
    ensures Init(host, env).Ok?
    ensures Get(Get(Init(host, env).value.client["systemjs"], "config"), "transpiler") == Str("babel")
    ensures DirThenFile(Init(host, env).value.files[0].pattern, "/babel-core/", "/browser.js")
  {
  }

  // ---------------------------------------------------------------------------
  // Extra files, existing entries, the adapter, the client record

  /** An extra file's pattern ends in `/file`: it is `./file` when there is no base path
      (or an empty one) and begins with `basePath/file` otherwise. */
  lemma ExtraPatternShape(basePath: Option<string>, file: string)
    ensures EndsWith(ExtraPattern(basePath, file), "/" + file)
    ensures basePath.None? || basePath == Some("") ==> ExtraPattern(basePath, file) == "./" + file
    ensures basePath.Some? && basePath.value != "" ==> OccursAt(ExtraPattern(basePath, file), basePath.value + "/" + file, 0)
  {
  }

  /** `systemjs.files = ['a.js', 'b.js']` with no basePath: entries 4 and 5 are `./a.js` and
      `./b.js`, served and watched but not included. */
  lemma ExtraFilesExample(env: Env)
    ensures
      var host := Snapshot([], None, map[], Some(Options(Undefined, None, ["a.js", "b.js"], Undefined)));
      && Init(host, env).Ok?
      && |Init(host, env).value.files| == 7
      && Init(host, env).value.files[4] == Pattern("./a.js", false, true, true)
      && Init(host, env).value.files[5] == Pattern("./b.js", false, true, true)
  {
  }

  /** With `basePath = 'app'` the first extra file's pattern is `app/a.js`. */
  lemma BasePathExample(env: Env)
    ensures
      var host := Snapshot([], Some("app"), map[], Some(Options(Undefined, None, ["a.js", "b.js"], Undefined)));
      && Init(host, env).Ok?
      && Init(host, env).value.files[4].Pattern?
      && OccursAt(Init(host, env).value.files[4].pattern, "app/a.js", 0)
  {
  }

  /** Whatever else is configured, the last entry is the adapter script. */
  lemma AdapterLast(host: Snapshot, env: Env)
    requires Resolved(env)
    requires Init(host, env).Ok?
    ensures var f := Init(host, env).value.files;
      |f| > 0 && f[|f| - 1].Pattern? && EndsWith(f[|f| - 1].pattern, "adapter.js")
  {
  }

  /** Raw entries the caller put in `files` come right after the four support files and
      before the extra files, in their original order. */
  lemma PreservesExistingExample(env: Env, loaded: Json)
    requires env.load("test/system.conf.js") == Ok(loaded)
    requires Selection(loaded) != NoTranspiler
    ensures
      var host := Snapshot([Raw("a.js"), Raw("b.js")], None, map[],
        Some(Options(Undefined, Some("test/system.conf.js"), ["c.js", "d.js"], Undefined)));
      && Init(host, env).Ok?
      && Init(host, env).value.files[4] == Raw("a.js")
      && Init(host, env).value.files[5] == Raw("b.js")
      && Init(host, env).value.files[6].Pattern?
      && Init(host, env).value.files[6].pattern == "./c.js"
  {
  }

  /** `client.systemjs` is exactly `{testFileSuffix, config}`, both passed through as given,
      and no other key of `client` changes. */
  lemma ClientShape(host: Snapshot, env: Env)
    requires EffectiveConfig(Normalize(host.systemjs), env).Ok?
    ensures Init(host, env).Ok?
    ensures
      var c := Init(host, env).value.client;
      var sj := c["systemjs"];
      && c.Keys == host.client.Keys + {"systemjs"}
      && (forall key :: key in host.client && key != "systemjs" ==> c[key] == host.client[key])
      && sj.Obj? && sj.fields.Keys == {"testFileSuffix", "config"}
      && sj.fields["testFileSuffix"] == Normalize(host.systemjs).testFileSuffix
      && sj.fields["config"] == EffectiveConfig(Normalize(host.systemjs), env).value
  {
  }

  /** A number as config and a string suffix are attached unchanged. */
  lemma ClientExample(env: Env)
    ensures
      var host := Snapshot([], None, map[], Some(Options(Num(123), None, [], Str(".test.js"))));
      && Init(host, env).Ok?
      && Init(host, env).value.client["systemjs"] ==
         Obj(map["testFileSuffix" := Str(".test.js"), "config" := Num(123)])
  {
  }
}
