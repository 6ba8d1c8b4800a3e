# karma-systemjs: the framework initialiser

This project models `initSystemJs`, the `framework:systemjs` initialiser of the
karma-systemjs plugin. Karma hands the plugin its configuration object. The plugin
rewrites that object in place:

- It puts the support files in front of `files`. These are the transpiler (traceur by
  default, or the one `systemjs.config.transpiler` names, or none when that option is
  `null`), then es6-module-loader, system-polyfills and SystemJS. Each path can be
  overridden through `systemjs.config.paths` under the file's canonical name.
- It keeps the caller's own entries, raw strings included, after the support files and
  in their original order.
- It appends each of `systemjs.files` as a served, watched, not included pattern. The
  pattern sits under `basePath`, or under `./` when there is no `basePath`.
- It appends the adapter script as the last entry.
- It sets `client.systemjs` to `{testFileSuffix, config}`.

When `systemjs.configFile` is named, the model takes its loaded value as the config in
effect, in place of any inline `config` (a choice the tests leave open; see "Left out").
That value then both selects the support files and becomes `client.systemjs.config`.
The file itself is never added to `files`.

The implementation file `lib/index.js` is not part of this model. The behaviour
modelled is the one `test/index.spec.js` pins down. Where the tests leave a choice
open, the model makes one and says so under "Left out". One such choice: the
initialiser loads the configuration file first, and then appends the extra files one
at a time after the caller's entries.

Layout:

- `values.dfy`, module `Values`: JavaScript values (`Json`), `Option`, `Result`, and
  the suffix and regular-expression predicates the tests judge patterns by.
- `framework.dfy`, module `Framework`: the host snapshot, the environment, and the
  specification functions. `Init` gives the host configuration after the call.
- `host.dfy`, module `Host`: class `HostConfig` with the host's fields. Its method
  `InitSystemJs` mutates them step by step and is proved to leave exactly `Init`'s result.
- `properties.dfy`, module `Properties`: the promises of the test file, as lemmas
  about `Init` and the functions it uses.

The machine-dependent inputs are parameters in `Env`:

- `resolve` is module resolution: the canonical name of a support package mapped to
  its default path.
- `adapter` is the path of the plugin's adapter script.
- `load` reads and evaluates a configuration file, or fails with an error.

`Resolved(env)` states the shapes the tests expect of the default paths. For example,
traceur's path ends in `/traceur.js`, and babel's path matches `/babel-core/.*?/browser.js$`.

The tests fix the order of the support files after the transpiler: es6-module-loader,
then system-polyfills, then SystemJS.

## Model

| member | source | states |
|---|---|---|
| `Host.HostConfig.InitSystemJs` | test/index.spec.js:5-122 | the mutated host fields equal `Init` of the old fields; a failed configuration-file load is returned as the error and the host is left unchanged |
| `Framework.ExtraFiles` | test/index.spec.js:81-86 | one entry per declared extra file |
| `Framework.ExtraFilesSnoc` | test/index.spec.js:81-86 | appending one more extra file appends exactly its entry at the end, so the initialiser can append the files one at a time |
| `Framework.ExtraFilesAt` | test/index.spec.js:81-86 | entry i of the extra block is file i's pattern with included false, served true, watched true |
| `Framework.Init` | test/index.spec.js:5-122 | the host configuration after the call: the call fails exactly when loading the named configuration file fails; on success `basePath` is unchanged, the `systemjs` section is the normalised one, `client` gains `systemjs`, and the file list has one entry per support file, caller entry and extra file plus the adapter |
| `Framework.EffectiveConfig` | test/index.spec.js:66-79 | the config in effect is exactly the result of loading the file when `configFile` is named, and the inline `config` otherwise; only loading a named file can fail |
| `Framework.Selection` | test/index.spec.js:23-47 | null disables the transpiler, a string names it, anything else (missing key, non-object config such as `123`) keeps the default, each in both directions |
| `Framework.Override` | test/index.spec.js:49-64 | `paths[key]` overrides exactly when it is a non-empty string, and never when the config has no `paths` object |
| `Framework.SupportFiles` | test/index.spec.js:15-64 | the support block has 3 entries exactly when the transpiler is disabled and 4 otherwise, each an included, served pattern |
| `Properties.ExtraPatternShape` | test/index.spec.js:81-93 | `Framework.ExtraPattern`, the definition of an extra file's pattern, ends in `/file`; it is `./file` without a base path or with an empty one, and begins with `basePath/file` otherwise |
| `Properties.SupportFilesByKey` | test/index.spec.js:49-64 | every support entry uses the `paths` override for its canonical name when one exists, else the resolved default |
| `Properties.SupportKeysIgnorePaths` | test/index.spec.js:49-64 | the order of the support block depends on the transpiler setting alone and always ends with es6-module-loader, system-polyfills, systemjs |
| `Properties.DefaultSupportOrder` | test/index.spec.js:15-21 | with no transpiler option the first four patterns end in `/traceur.js`, `/es6-module-loader.src.js`, `/system-polyfills.js`, `/system.src.js` |
| `Properties.NamedTranspilerFirst` | test/index.spec.js:23-39 | naming babel or typescript makes entry 0 match `/babel-core/.*?/browser.js$` or `/typescript/.*?/typescript.js$` |
| `Properties.TranspilerOnlyChangesHead` | test/index.spec.js:23-39 | any two enabled transpiler choices with the same paths give four entries that agree from entry 1 on |
| `Properties.DisabledTranspilerDropsHead` | test/index.spec.js:41-47 | `transpiler: null` gives the enabled block without its entry 0 |
| `Properties.DisabledSupportOrder` | test/index.spec.js:41-47 | `transpiler: null` gives exactly three entries ending in the loader, polyfills and SystemJS file names |
| `Properties.PathOverridesExample` | test/index.spec.js:49-64 | the test's override table yields exactly myBabel, myModuleLoader, myPolyfills, mySystem in that order |
| `Properties.FilesLayout` | test/index.spec.js:81-111 | for every host: the file list is the support block, then the caller's entries unchanged, then one entry per extra file in order, then the adapter as the single last entry |
| `Properties.ConfigFileOnlyThroughItsValue` | test/index.spec.js:66-73 | two hosts that differ only in how the effective config is obtained (inline or from a file) end with the same files and client |
| `Properties.NotConfigFile` | test/index.spec.js:69-72 | a path ending in any default support or adapter file name cannot end in `/system.conf.js` |
| `Properties.SupportNotConfigFile` | test/index.spec.js:69-72 | with default paths and a known transpiler (default, traceur, babel, typescript or none) no support entry's pattern ends in `/system.conf.js` |
| `Properties.ConfigFileNotServed` | test/index.spec.js:66-73 | after naming `test/system.conf.js` no entry's pattern ends in `/system.conf.js` |
| `Properties.LoadedConfigIsUsed` | test/index.spec.js:75-79 | a loaded config file becomes `client.systemjs.config` and selects the support block; a failed load is the call's error |
| `Properties.InlineConfigIsUsed` | test/index.spec.js:113-121 | without a config file the call succeeds and the inline config is attached |
| `Properties.LoadedBabelConfig` | test/index.spec.js:75-79 | a file exporting `{transpiler: 'babel'}` gives `client.systemjs.config.transpiler == 'babel'` and babel as entry 0 |
| `Properties.ExtraFilesExample` | test/index.spec.js:81-86 | `files: ['a.js','b.js']` puts `{pattern: './a.js', included: false, served: true, watched: true}` and the same for `./b.js` at indices 4 and 5 |
| `Properties.BasePathExample` | test/index.spec.js:88-93 | with `basePath = 'app'` entry 4's pattern contains `app/a.js` |
| `Properties.AdapterLast` | test/index.spec.js:95-98 | the last entry of every resulting file list is the adapter, whose pattern ends in `adapter.js` (the test checks only that it contains it; see "Left out") |
| `Properties.PreservesExistingExample` | test/index.spec.js:100-111 | raw entries `a.js`, `b.js` land at indices 4 and 5, and `./c.js` at index 6 |
| `Properties.ClientShape` | test/index.spec.js:113-121 | `client.systemjs` has exactly the keys testFileSuffix and config, both passed through, and no other client key changes |
| `Properties.ClientExample` | test/index.spec.js:113-121 | config `123` and suffix `.test.js` are attached unchanged |

## Left out

- Reading and evaluating `configFile` from disk is the `load` parameter. The value the test's `test/system.conf.js` exports is not part of this model. The lemmas take it as an assumption where the test relies on it (`{transpiler: 'babel'}`).
- Node module resolution of the default support paths is the `resolve` parameter, and the adapter's own location is the `adapter` parameter. `Resolved` states the suffix and ordering facts the tests assert of the support paths. For the adapter it assumes more than the test checks: the test only requires the last pattern to contain `adapter.js`, while `Resolved` assumes the adapter path ends in `adapter.js`. The "ends in" of `AdapterLast` and the adapter case of `SupportNotConfigFile` and `ConfigFileNotServed` rest on that stronger assumption.
- `path.join` normalisation is not modelled: an extra file's pattern is `basePath + "/" + file`, or `"./" + file` without a base path or with an empty one. Absolute extra-file paths get the same prefix.
- The flags of the support and adapter entries are a modelling choice. The tests do not pin them, so they follow the host defaults: included, served and watched are all true.
- A `paths` override counts only when it is a non-empty string. This is a modelling choice. It agrees with JavaScript's `paths[key] || default` on strings but not on other values: `||` would also use a truthy non-string such as `5`, `true` or `{}`, which the model ignores.
- EffectiveConfig: when both `configFile` and an inline `config` are given, the model drops the inline config and uses the loaded value alone; it does not merge the two. No test sets both, so the tests leave this open (the title of the test at `test/index.spec.js:75` speaks of merging the file with the Karma config).
- EffectiveConfig: `configFile: ''` is still handed to `load`, and a failed load fails the call. The model treats the empty string as unset only for `basePath` and for `paths` overrides; the tests pin neither case.
- Selection: `transpiler: ''` names a transpiler with the empty name, which is resolved and overridden under the key `""`; it does not fall back to traceur. The tests leave this open.
- A JavaScript exception from a failed load becomes an error result. The host is left as it was before the call.
- Floating-point numbers are not modelled: a `Json` number is an integer.
- Arrays and functions are not modelled: `Json` cannot represent them. A `config` or `testFileSuffix` of either kind, which the plugin would pass through unchanged, has no counterpart in the model.
- The Jasmine harness, lodash's `_.find`, the Karma plugin registration and the browser-side `adapter.js` are host machinery and are not modelled.
- ConfigFileNotServed: proved only for a host with no extra or pre-existing files. It also assumes two things of the loaded value of `test/system.conf.js`, whose contents are not part of this model: it has no `paths` object (`NoPaths`), and it selects a known transpiler (`KnownTranspiler`). The tests pin only its `transpiler == 'babel'`. A user path could itself end in `/system.conf.js`. The property for all hosts is ConfigFileOnlyThroughItsValue: the file's name never reaches `files`.
