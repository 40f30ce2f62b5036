# ember-cli-htmlbars-inline-precompile: registration model

A Dafny model of the decision logic in the addon hook `index.js` of
ember-cli-htmlbars-inline-precompile. The addon registers a babel plugin that
precompiles inline templates, exactly once per options object. Around that
registration it makes four decisions:

- **parallel-capability negotiation**: whether every HTMLBars AST-plugin wrapper
  can be handed to parallel babel workers, which configs go to the workers,
  and which wrappers block parallel use;
- **per-plugin cache-key fragments**: a dependency hash of the wrapper's base
  directory, or a clock-and-random fallback that forces invalidation;
- **the registration state machine**: skip when `ember-cli-htmlbars` or an
  earlier call already registered. Otherwise append the marked plugin and then
  exactly one entry, either a parallel descriptor or a sequential setup;
- **resolution rules**: where the template compiler is found, whose options
  are used, and whether the `babel6` or the `babel` plugin list is used.

Everything is a pure function over immutable datatypes and sequences. An
absent JavaScript property (`undefined`) is `Option.None`. JavaScript
truthiness of a string is "defined and non-empty". The registration state is
not a flag. It is the predicate "the selected plugin list holds an entry whose
`_identifier` is `babel-plugin-htmlbars-inline-precompile`"
(`BabelOptions.RegisteredWithBabel`).

Modules, one file each:

| file | module | models |
|---|---|---|
| optional.dfy | Optional | `Option` |
| strings.dfy | Strings | decimal rendering of a number, `join`/`split` on one character |
| ast_plugin_wrappers.dfy | AstPluginWrappers | wrappers, `canParallelize`, `getParallelConfig`, blocking list |
| cache_keys.dfy | CacheKeys | `astPlugins` fragments, fallback key, marked plugin's cache key |
| resolution.dfy | Resolution | project, configuration, `templateCompilerPath` |
| babel_options.dfy | BabelOptions | babel plugin entries, `_registeredWithBabel`, `_getAddonOptions`, babel6/babel choice |
| registration.dfy | Registration | the parallel/sequential entry, `included` |
| scenarios.dfy | Scenarios | worked cases |

Abstract inputs:

- `hash-for-dep` is a function parameter `hashForDep: Path -> string`.
- `path.resolve` is a function parameter `resolve: (Path, Path) -> Path`.
- `JSON.stringify` of the parallel descriptor is a function parameter `stringify`.
- `__dirname` is the parameter `addonDir`.
- The clock and `Math.random` are a stream `draw: nat -> Nonce`, indexed by the
  loop iteration of `astPlugins`. Reading i is used only when wrapper i has no
  `baseDir`.
- The ember-cli version verdict ("older than 2.13.0-alpha.1") is a boolean.
- `AstPlugins.setup` and `AstPlugins.makeCacheKey` come from `lib/ast-plugins`,
  which is not part of this model. They are datatype constructors that
  record their arguments (`SequentialEntry`, `MakeCacheKey`).

Two behaviours of the code worth noting:

- **Template-compiler precedence.** An `ember-source` addon wins over the
  `ember-cli-htmlbars.templateCompilerPath` override. The override only wins
  over the bower fallback.
- **Parallel configs.** `getParallelConfig` is a total map that yields
  `undefined` entries.

`included` uses bindings that do not exist at that point: `app`,
`HTMLBarsInlinePrecompilePlugin`, `Compiler`, `templateCompilerCacheKey`, and
`pluginInfo` before its declaration. It also
overwrites the method `_registeredWithBabel` with `true`. The model follows
the intended order of operations instead:

1. Return if the upstream addon already registered.
2. Find the options and select the `babel6` or `babel` list, creating missing
   sections.
3. If that list already holds a marked entry, stop.
4. Otherwise compute the template-compiler path and the plugin info once.
5. Append the marked plugin, whose cache key is the compiler key joined with
   the fragments by `|`.
6. Append the parallel or the sequential entry.

Both the marker check and the marker push act on the selected list.

## Model

| member | source | states |
|---|---|---|
| AstPluginWrappers.CanParallelize | index.js:146-148 | true exactly when every wrapper's `parallelBabel` is defined; the empty list yields true |
| AstPluginWrappers.ClearingOneBlocks | index.js:146-148 | clearing `parallelBabel` on any one wrapper, at any position, makes the verdict false and puts its truthy name on the blocking list |
| AstPluginWrappers.GetParallelConfig | index.js:151-153 | one entry per wrapper, entry i is wrapper i's `parallelBabel`: order kept, nothing sorted or dropped |
| AstPluginWrappers.ParallelConfigDefined | index.js:146-153 | parallel use is possible exactly when every collected config is defined |
| AstPluginWrappers.BlockingPlugins | index.js:94-98 | the blocking list holds non-empty names only, and a name is on it exactly when some wrapper with that name lacks `parallelBabel` |
| AstPluginWrappers.BlockingPluginsAppend | index.js:94-98 | the blocking list of a concatenation is the concatenation of the lists: registration order is kept |
| AstPluginWrappers.BlockingPluginsEmptyIffParallel | index.js:94-98 | the list is empty whenever parallel use is possible, and, when all names are truthy, only then |
| Strings.Decimal | index.js:135 | the rendering of the timestamp is a non-empty digit string without a leading zero that reads back as the same number |
| Strings.DecimalInjective | index.js:135 | different timestamps render differently |
| Strings.SplitJoin | index.js:50 | splitting a `|`-join of separator-free pieces gives the pieces back |
| Strings.JoinInjective | index.js:50 | two joins of separator-free piece lists are equal only when the lists are |
| CacheKeys.FallbackKey | index.js:135 | the fallback fragment contains `|` and starts with the rendered timestamp |
| CacheKeys.FallbackKeyInjective | index.js:135 | two different clock/random readings never give the same fallback fragment |
| CacheKeys.AstPlugins | index.js:117-143 | `plugins` and `cacheKeys` are as long as the wrapper list; position i comes from wrapper i: its plugin, and the hash of its base directory or the fallback of reading i |
| CacheKeys.StableFragment | index.js:127-129 | a wrapper with `baseDir` gets `hashForDep(baseDir())`: equal directory hashes give equal fragments, whatever the clock says |
| CacheKeys.AllStableDeterministic | index.js:122-137 | when every wrapper has `baseDir`, two derivations give identical plugins and keys |
| CacheKeys.FallbackFragmentFresh | index.js:130-136 | a wrapper without `baseDir` gets a fragment that changes with the reading: it is not a function of the wrapper and forces invalidation |
| CacheKeys.FallbackNeverStable | index.js:127-136 | a fallback fragment never equals a separator-free directory hash |
| CacheKeys.OptOutWarnings | index.js:130-134 | a deprecation line naming each wrapper without `baseDir` is written, every line written names such a wrapper, and none is written when all have one |
| CacheKeys.OptOutWarningsAppend | index.js:122-137 | the lines for a concatenation are the lines for each part in turn: registration order is kept |
| CacheKeys.OptOutWarningsSingle | index.js:127-135 | one wrapper gets exactly one line when it has no `baseDir`, and none otherwise |
| CacheKeys.MarkerCacheKey | index.js:49-51 | the marked plugin's key is the compiler key first, then the fragments in order, separated by a vertical bar; with no fragments it is the compiler key alone; with separator-free parts, splitting the key gives back the compiler key followed by the fragments |
| CacheKeys.MarkerCacheKeyDistinguishes | index.js:49-51 | with separator-free parts the key changes whenever the compiler key, a fragment or the order of fragments changes |
| Resolution.ConfiguredCompilerPath | index.js:162-163 | the configured path counts only when the `ember-cli-htmlbars` section exists and its `templateCompilerPath` is truthy |
| Resolution.TemplateCompilerPath | index.js:161-173 | `ember-source`'s compiler path as-is when present; otherwise the configured path, else bower directory + `/ember/ember-template-compiler`, resolved against the root |
| Resolution.EmberSourceWins | index.js:165-167 | with `ember-source` present, configuration override, bower directory and root have no effect |
| Resolution.ConfiguredPathBeatsBower | index.js:168-172 | without `ember-source`, a truthy configured path is used and the bower directory has no effect |
| Resolution.BowerFallback | index.js:168-172 | without `ember-source` and without a truthy configured path, the bower copy is used |
| BabelOptions.RegisteredWithBabel | index.js:174-178 | true exactly when some entry of the list carries the marker identifier |
| BabelOptions.CountMarked | index.js:174-178 | the number of marked entries is zero exactly when the list is not registered |
| BabelOptions.SelectTarget | index.js:54-60 | the `babel6` list is used exactly when ember-cli shares babel plugins and the parent is the project |
| BabelOptions.WithPlugins | index.js:55-59 | setting the target's list creates a missing section, yields that list, and leaves the other section alone |
| BabelOptions.WithOwnPlugins | index.js:55-59 | creating a missing section and list is a no-op when the list already exists |
| BabelOptions.AddonOptionsOrigin | index.js:112-114 | the parent's options win when they exist; the fresh `{}` is used only when neither parent nor app has options |
| BabelOptions.GetAddonOptions | index.js:112-114 | returns the parent's options, else the app's, else an empty options object |
| BabelOptions.StoreThenGet | index.js:112-114 | options written back are found again by the same lookup unless they went into the fresh `{}` |
| BabelOptions.StoreAddonOptions | index.js:112-114 | the options are written into the owner they came from; the other owner is unchanged, and a fresh `{}` changes neither |
| BabelOptions.StoreUnchanged | index.js:112-114 | writing back what was read leaves parent and app unchanged |
| Registration.BuildEntry | index.js:74-106 | the parallel descriptor (`lib/require-from-worker`, `build`, compiler path, per-wrapper configs, addon directory, cache key over the serialised descriptor) exactly when parallel use is possible, the sequential setup otherwise; never marked |
| Registration.Register | index.js:54-109 | an already registered list leaves the options unchanged; otherwise the list grows by exactly the marked plugin and one entry, its old entries kept in place; after a registration that goes ahead, exactly one marked entry exists; the other section is untouched |
| Registration.RegisterIdempotent | index.js:67-68 | a second registration is a no-op, whatever the clock says |
| Registration.AddedEntries | index.js:49-52 | a registration adds two entries: a marked one first, then an unmarked one that is the parallel descriptor exactly when parallel use is possible |
| Registration.Included | index.js:33-110 | nothing changes when `ember-cli-htmlbars` registered, when the list is already registered, or when the options are a fresh `{}`; otherwise the selected list becomes itself followed by the marked plugin and the built entry; the owner not written, the other babel section, project and wrappers are unchanged |
| Registration.IncludedIdempotent | index.js:33-110 | running `included` twice is running it once |
| Registration.IncludedAppendsOnly | index.js:67-109 | the selected list is either unchanged or followed by exactly the marked plugin and one entry, and keeps at most one marked entry |
| Scenarios.BothParallel | index.js:146-153 | wrappers A(X), B(Y): parallel use, configs [X, Y], nothing blocking |
| Scenarios.SecondBlocks | index.js:74-106 | wrappers A(X), B(none): no parallel use, blocking list ["B"], sequential entry |
| Scenarios.UnnamedBlockerIsSilent | index.js:94-98 | an unnamed blocking wrapper blocks but is dropped from the list by `filter(Boolean)` |
| Scenarios.AppRegistersOnce | index.js:33-110 | an app list [foreign] becomes [foreign, marked plugin, parallel entry]; a second `included` changes nothing |

## Left out

- `init` (index.js:16-25): the ember-cli-babel version check and its error are not modelled. It is a semver comparison in `ember-cli-version-checker`.
- The ember-cli version check (index.js:42-44) is not computed. Its verdict is the boolean `usesSharedBabelPlugins`.
- `setupPreprocessorRegistry` (index.js:27-31) only stores the registry. The wrappers that `parentRegistry.load('htmlbars-ast-plugin')` returns are an input.
- `this._super.included` and `this._super.init` belong to ember-cli and are not modelled.
- `hash-for-dep`, `path.resolve`, `__dirname` and `JSON.stringify` are abstract parameters. File-system reads and their errors are not modelled.
- `new Date().getTime()` and `Math.random()` are the `draw` stream.
- Strings.Decimal: the exponent form JavaScript uses for integers of 10^21 and above is not modelled. Clock values never reach it.
- `lib/ast-plugins` (`setup`, `makeCacheKey`) is not part of this model. Its results are constructors that record their arguments.
- `HTMLBarsInlinePrecompilePlugin` and `Compiler.precompile` are not part of this model. The marked plugin carries only its cache key.
- Logging is not modelled: the debug lines (index.js:75, 93, 99) and the choice between `writeDeprecateLine` and `writeLine`. The deprecation texts are modelled by `CacheKeys.OptOutWarnings`.
- `projectConfig()` reads `process.env.EMBER_ENV`. The resolved configuration is an input (`Project.config`).
- The model does not copy the source's undefined bindings in `included`: `app`, `HTMLBarsInlinePrecompilePlugin`, `Compiler`, `templateCompilerCacheKey`, and `pluginInfo` used before its declaration.
  - It does not copy the overwrite of `_registeredWithBabel` with `true`.
  - It models the intended order of operations. `templateCompilerCacheKey` becomes a collaborator value.
  - The marker is checked for and appended on the selected list, not on `app.options.babel.plugins`.
- Registration.BuildEntry: the result of `AstPlugins.setup` is taken to carry no `_identifier`, because `lib/ast-plugins` is not part of this model. The sequential entry's "never marked" and `Registration.Register`'s "exactly one marked entry" in the sequential branch rest on that. In the parallel branch, the object literal built by the source has no `_identifier`.
- Registration.Included: `parentIsProject` is taken as given, independent of `parent`. The source computes it as `this.parent === this.project`, which is false when there is no parent. The model can represent a missing parent with the flag set, which the source cannot produce.
- Aliasing is not modelled: the parent's and the app's options are treated as two distinct objects.
- The worker pool that receives the parallel descriptor is external and concurrent, so it is not modelled.
- A `parallelBabel` of `null` counts as defined in the source. The model uses `Some` for every defined value and has no separate null.
