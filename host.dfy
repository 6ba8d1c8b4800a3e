/** The host configuration object that Karma hands to the plugin, and the framework
    initialiser that rewrites it in place. */
module Host {
  import opened Values
  import opened Framework

  class HostConfig {
    var files: seq<FileEntry>
    var basePath: Option<string>
    var client: map<string, Json>
    var systemjs: Option<Options>

    /** The value the fields hold, for stating what the initialiser leaves behind. */
    function State(): Snapshot
      reads this
    {
      Snapshot(files, basePath, client, systemjs)
    }

    constructor (files: seq<FileEntry>, basePath: Option<string>, client: map<string, Json>, systemjs: Option<Options>)
      ensures State() == Snapshot(files, basePath, client, systemjs)
    {
      this.files := files;
      this.basePath := basePath;
      this.client := client;
      this.systemjs := systemjs;
    }

    /** `initSystemJs(config)`: loads the configuration file if one is named, puts the
        support files in front of `files`, appends the extra files and the adapter, and
        attaches `client.systemjs`. A failed load is returned and changes nothing. */
    method InitSystemJs(env: Env) returns (error: Option<string>)
      modifies this
      ensures match Init(old(State()), env)
              case Ok(after) => error == None && State() == after
              case Err(e) => error == Some(e) && State() == old(State())
    {
      ghost var before := State();
      var opts := Normalize(systemjs);
      var loaded := EffectiveConfig(opts, env);
      if loaded.Err? {
        return Some(loaded.error);
      }
      var config := loaded.value;
      systemjs := Some(opts);
      files := SupportFiles(config, env) + files;
      ghost var prefix := files;
      var i := 0;
      while i < |opts.files|
        invariant 0 <= i <= |opts.files|
        invariant files == prefix + ExtraFiles(basePath, opts.files[..i])
        invariant basePath == old(basePath) && client == old(client) && systemjs == Some(opts)
      {
        ExtraFilesSnoc(basePath, opts.files[..i], opts.files[i]);
        assert opts.files[..i + 1] == opts.files[..i] + [opts.files[i]];
        files := files + [ExtraEntry(basePath, opts.files[i])];
        i := i + 1;
      }
      assert opts.files[..i] == opts.files;
      files := files + [AdapterEntry(env)];
      assert files == Assemble(old(files), basePath, opts.files, config, env);
      client := client["systemjs" := ClientSystemJs(opts.testFileSuffix, config)];
      error := None;
      InitSucceeds(before, env, config);
    }
  }
}
