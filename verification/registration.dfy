/** Registering the inline precompiler with babel (index.js, `included`):
    skip when the upstream addon or an earlier call already did it, otherwise
    append the marked plugin and exactly one further entry, a parallel
    descriptor or a sequential setup. */
module Registration {
  import opened Optional
  import opened AstPluginWrappers
  import opened CacheKeys
  import opened Resolution
  import opened BabelOptions

  /** The worker entry point, relative to the addon's directory. */
  const RequireFromWorker: string := "lib/require-from-worker"

  /** The function the worker entry point exposes. */
  const BuildUsing: string := "build"

  /** What the addon calls but this model does not look into: `path.resolve`,
      `hash-for-dep`, `JSON.stringify` of a parallel descriptor, the addon's
      own directory (`__dirname`) and the template compiler's cache key. */
  datatype Collaborators = Collaborators(
    resolve: (Path, Path) -> Path,
    hashForDep: Path -> string,
    stringify: ParallelBabelInfo -> string,
    addonDir: Path,
    templateCompilerCacheKey: string)

  /** The addon at `included` time: its project, its parent and app (for
      their options), whether the parent is the project itself, and the AST
      plugin wrappers loaded from the parent registry. */
  datatype Addon = Addon(
    project: Project,
    parent: Option<Owner>,
    app: Option<Owner>,
    parentIsProject: bool,
    wrappers: seq<AstPluginWrapper>)

  /** The entry appended after the marked plugin: the parallel descriptor
      when every wrapper can be parallelized, the sequential setup otherwise. */
  function BuildEntry(ws: seq<AstPluginWrapper>, templateCompilerPath: Path, info: PluginInfo,
                      config: ProjectConfig, env: Collaborators): (e: BabelPlugin)
    ensures e.ParallelEntry? <==> CanParallelize(ws)
    ensures e.SequentialEntry? <==> !CanParallelize(ws)
    ensures !Marked(e)
    ensures e.ParallelEntry? ==>
              && e.parallelBabel.requireFile == env.resolve(env.addonDir, RequireFromWorker)
              && e.parallelBabel.buildUsing == BuildUsing
              && e.parallelBabel.templateCompilerPath == templateCompilerPath
              && |e.parallelBabel.parallelConfig| == |ws|
              && (forall i :: 0 <= i < |ws| ==> e.parallelBabel.parallelConfig[i] == ws[i].parallelBabel)
              && (forall i :: 0 <= i < |ws| ==> e.parallelBabel.parallelConfig[i].Some?)
              && e.baseDir == env.addonDir
              && e.recipe == MakeCacheKey(templateCompilerPath, info, env.stringify(e.parallelBabel))
    ensures e.SequentialEntry? ==>
              e.pluginInfo == info && e.projectConfig == config && e.templateCompilerPath == templateCompilerPath
  {
    if CanParallelize(ws) then
      var parallelBabelInfo := ParallelBabelInfo(
        env.resolve(env.addonDir, RequireFromWorker), BuildUsing,
        templateCompilerPath, GetParallelConfig(ws));
      ParallelEntry(parallelBabelInfo, env.addonDir,
                    MakeCacheKey(templateCompilerPath, info, env.stringify(parallelBabelInfo)))
    else
      SequentialEntry(info, config, templateCompilerPath)
  }

  /** The part of `included` after the options are found: normalise the
      target section, then, unless its list already holds a marked entry,
      append the marked plugin and the entry from `BuildEntry`. */
  function Register(opts: AddonOptions, t: Target, ws: seq<AstPluginWrapper>, project: Project,
                    env: Collaborators, draw: nat -> Nonce): (r: AddonOptions)
    ensures RegisteredWithBabel(Plugins(opts, t)) ==> r == opts
    ensures !RegisteredWithBabel(Plugins(opts, t)) ==>
              var before := Plugins(opts, t);
              var after := Plugins(r, t);
              var info := AstPlugins(ws, env.hashForDep, draw);
              && |after| == |before| + 2
              && after[..|before|] == before
              && after[|before|] == InlinePrecompile(MarkerCacheKey(env.templateCompilerCacheKey, info))
              && after[|before| + 1] ==
                   BuildEntry(ws, TemplateCompilerPath(project, env.resolve), info, project.config, env)
    ensures RegisteredWithBabel(Plugins(r, t))
    ensures CountMarked(Plugins(r, t)) == if RegisteredWithBabel(Plugins(opts, t)) then CountMarked(Plugins(opts, t)) else 1
    ensures Section(r, t.Other()) == Section(opts, t.Other())
  {
    var before := Plugins(opts, t);
    var normalized := WithPlugins(opts, t, before);
    if RegisteredWithBabel(before) then
      WithOwnPlugins(opts, t);
      normalized
    else
      var templateCompilerPath := TemplateCompilerPath(project, env.resolve);
      var info := AstPlugins(ws, env.hashForDep, draw);
      var marker := InlinePrecompile(MarkerCacheKey(env.templateCompilerCacheKey, info));
      var entry := BuildEntry(ws, templateCompilerPath, info, project.config, env);
      var after := before + [marker, entry];
      CountMarkedAppend(before, [marker, entry]);
      assert [marker, entry][1..] == [entry];
      assert after[..|before|] == before;
      WithPlugins(normalized, t, after)
  }

  /** A second registration on the same options, whatever the clock says,
      is a no-op. */
  lemma RegisterIdempotent(opts: AddonOptions, t: Target, ws: seq<AstPluginWrapper>, project: Project,
                           env: Collaborators, draw: nat -> Nonce, draw': nat -> Nonce)
    ensures Register(Register(opts, t, ws, project, env, draw), t, ws, project, env, draw')
            == Register(opts, t, ws, project, env, draw)
  {
  }

  /** Whether `ember-cli-htmlbars` reports that it already registered the
      inline precompiler. */
  predicate UpstreamRegistered(project: Project) {
    project.htmlbars.Some? && project.htmlbars.value.inlinePrecompilerRegistered
  }

  /** The two entries a registration appends: the marked plugin, then the
      parallel or sequential entry. */
  function AddedEntries(a: Addon, env: Collaborators, draw: nat -> Nonce): (added: seq<BabelPlugin>)
    ensures |added| == 2 && Marked(added[0]) && !Marked(added[1])
    ensures added[1].ParallelEntry? <==> CanParallelize(a.wrappers)
  {
    var info := AstPlugins(a.wrappers, env.hashForDep, draw);
    [InlinePrecompile(MarkerCacheKey(env.templateCompilerCacheKey, info)),
     BuildEntry(a.wrappers, TemplateCompilerPath(a.project, env.resolve), info, a.project.config, env)]
  }

  /** The list `included` works on: the babel6 or babel plugins of the
      options `_getAddonOptions` finds. */
  function SelectedPlugins(a: Addon, usesSharedBabelPlugins: bool): seq<BabelPlugin> {
    Plugins(GetAddonOptions(a.parent, a.app), SelectTarget(usesSharedBabelPlugins, a.parentIsProject))
  }

  /** `included()`. `usesSharedBabelPlugins` is the version verdict "ember-cli
      is older than 2.13.0-alpha.1"; `draw` supplies the clock and random
      readings. The result is the addon with its parent's or app's options
      updated. */
  function Included(a: Addon, env: Collaborators, usesSharedBabelPlugins: bool, draw: nat -> Nonce): (r: Addon)
    ensures UpstreamRegistered(a.project) ==> r == a
    ensures RegisteredWithBabel(SelectedPlugins(a, usesSharedBabelPlugins)) ==> r == a
    ensures AddonOptionsOrigin(a.parent, a.app) == Fresh ==> r == a
    ensures r.project == a.project && r.wrappers == a.wrappers && r.parentIsProject == a.parentIsProject
    ensures AddonOptionsOrigin(r.parent, r.app) == AddonOptionsOrigin(a.parent, a.app)
    ensures !UpstreamRegistered(a.project) && AddonOptionsOrigin(a.parent, a.app) != Fresh ==>
              RegisteredWithBabel(SelectedPlugins(r, usesSharedBabelPlugins))
    ensures !UpstreamRegistered(a.project) && AddonOptionsOrigin(a.parent, a.app) != Fresh
            && !RegisteredWithBabel(SelectedPlugins(a, usesSharedBabelPlugins)) ==>
              SelectedPlugins(r, usesSharedBabelPlugins)
              == SelectedPlugins(a, usesSharedBabelPlugins) + AddedEntries(a, env, draw)
    ensures AddonOptionsOrigin(a.parent, a.app) == FromParent ==> r.app == a.app
    ensures AddonOptionsOrigin(a.parent, a.app) == FromApp ==> r.parent == a.parent
    ensures var other := SelectTarget(usesSharedBabelPlugins, a.parentIsProject).Other();
            Section(GetAddonOptions(r.parent, r.app), other) == Section(GetAddonOptions(a.parent, a.app), other)
  {
    if UpstreamRegistered(a.project) then a
    else
      var t := SelectTarget(usesSharedBabelPlugins, a.parentIsProject);
      var opts := GetAddonOptions(a.parent, a.app);
      var opts' := Register(opts, t, a.wrappers, a.project, env, draw);
      var (parent', app') := StoreAddonOptions(a.parent, a.app, opts');
      StoreThenGet(a.parent, a.app, opts');
      StoreUnchanged(a.parent, a.app);
      a.(parent := parent', app := app')
  }

  /** Running `included` twice is running it once. */
  lemma IncludedIdempotent(a: Addon, env: Collaborators, usesSharedBabelPlugins: bool,
                           draw: nat -> Nonce, draw': nat -> Nonce)
    ensures Included(Included(a, env, usesSharedBabelPlugins, draw), env, usesSharedBabelPlugins, draw')
            == Included(a, env, usesSharedBabelPlugins, draw)
  {
  }

  /** `included` either leaves the selected list alone or appends exactly
      the marked plugin and one entry; it never brings a second marked entry
      into a list that had at most one. */
  lemma IncludedAppendsOnly(a: Addon, env: Collaborators, usesSharedBabelPlugins: bool, draw: nat -> Nonce)
    ensures var before := SelectedPlugins(a, usesSharedBabelPlugins);
            var after := SelectedPlugins(Included(a, env, usesSharedBabelPlugins, draw), usesSharedBabelPlugins);
            && (after == before || after == before + AddedEntries(a, env, draw))
            && (CountMarked(before) <= 1 ==> CountMarked(after) <= 1)
  {
    var before := SelectedPlugins(a, usesSharedBabelPlugins);
    CountMarkedAppend(before, AddedEntries(a, env, draw));
  }
}
