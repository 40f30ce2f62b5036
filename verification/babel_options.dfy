/** The babel plugin lists the addon writes into, and where it finds them
    (index.js, `_getAddonOptions`, the babel6-versus-babel choice of
    `included`, and `_registeredWithBabel`). */
module BabelOptions {
  import opened Optional
  import opened AstPluginWrappers
  import opened CacheKeys
  import opened Resolution

  /** The `_identifier` that marks the inline-precompile plugin. */
  const MarkerIdentifier: string := "babel-plugin-htmlbars-inline-precompile"

  /** The parallel descriptor handed to broccoli-babel-transpiler:
      `{requireFile, buildUsing, params: {templateCompilerPath, parallelConfig}}`. */
  datatype ParallelBabelInfo = ParallelBabelInfo(
    requireFile: Path,
    buildUsing: string,
    templateCompilerPath: Path,
    parallelConfig: seq<Option<ParallelConfig>>)

  /** `AstPlugins.makeCacheKey(templateCompilerPath, pluginInfo, extra)`,
      recorded by its arguments. */
  datatype CacheKeyRecipe = MakeCacheKey(templateCompilerPath: Path, pluginInfo: PluginInfo, extra: string)

  /** An entry of a babel plugin list. */
  datatype BabelPlugin =
      /** The inline-precompile plugin, carrying the marker identifier. */
    | InlinePrecompile(cacheKey: string)
      /** The entry used with parallel workers; its `baseDir` is the addon's
          own directory. */
    | ParallelEntry(parallelBabel: ParallelBabelInfo, baseDir: Path, recipe: CacheKeyRecipe)
      /** `AstPlugins.setup(pluginInfo, {projectConfig, templateCompilerPath})`,
          recorded by its arguments. */
    | SequentialEntry(pluginInfo: PluginInfo, projectConfig: ProjectConfig, templateCompilerPath: Path)
      /** Any entry placed by someone else, with whatever `_identifier` it has. */
    | Foreign(identifier: Option<string>, id: nat)
  {
    /** The entry's `_identifier` property. */
    function Identifier(): Option<string> {
      match this
      case InlinePrecompile(_) => Some(MarkerIdentifier)
      case Foreign(identifier, _) => identifier
      case _ => None
    }
  }

  predicate Marked(p: BabelPlugin) {
    p.Identifier() == Some(MarkerIdentifier)
  }

  /** `_registeredWithBabel`: some entry of the list carries the marker
      identifier; checked front to back. */
  function RegisteredWithBabel(plugins: seq<BabelPlugin>): (r: bool)
    ensures r <==> exists i :: 0 <= i < |plugins| && Marked(plugins[i])
  {
    if plugins == [] then false
    else
      assert forall i :: 1 <= i < |plugins| ==> plugins[1..][i - 1] == plugins[i];
      Marked(plugins[0]) || RegisteredWithBabel(plugins[1..])
  }

  /** How many marked entries a list holds. */
  function CountMarked(plugins: seq<BabelPlugin>): (n: nat)
    ensures n <= |plugins|
    ensures n == 0 <==> !RegisteredWithBabel(plugins)
  {
    if plugins == [] then 0
    else (if Marked(plugins[0]) then 1 else 0) + CountMarked(plugins[1..])
  }

  lemma {:induction false} CountMarkedAppend(a: seq<BabelPlugin>, b: seq<BabelPlugin>)
    ensures CountMarked(a + b) == CountMarked(a) + CountMarked(b)
  {
    if a == [] {
      assert a + b == b;
    } else {
      assert (a + b)[1..] == a[1..] + b;
      CountMarkedAppend(a[1..], b);
    }
  }

  /** The `babel` or `babel6` section of the addon options. */
  datatype BabelSection = BabelSection(plugins: Option<seq<BabelPlugin>>)

  datatype AddonOptions = AddonOptions(babel: Option<BabelSection>, babel6: Option<BabelSection>)

  /** The options object `{}` used when neither parent nor app has options. */
  const EmptyOptions := AddonOptions(None, None)

  /** Which section receives the plugins. */
  datatype Target = Babel | Babel6 {
    function Other(): Target {
      if this == Babel then Babel6 else Babel
    }
  }

  /** ember-cli before 2.13.0-alpha.1 shares one babel6 plugin list for the
      project; only a direct project dependency then writes there. */
  function SelectTarget(usesSharedBabelPlugins: bool, isProjectDependency: bool): (t: Target)
    ensures t == Babel6 <==> usesSharedBabelPlugins && isProjectDependency
  {
    if usesSharedBabelPlugins && isProjectDependency then Babel6 else Babel
  }

  function Section(opts: AddonOptions, t: Target): Option<BabelSection> {
    match t
    case Babel => opts.babel
    case Babel6 => opts.babel6
  }

  /** The target's plugin list, `[]` where the section or list is missing. */
  function Plugins(opts: AddonOptions, t: Target): seq<BabelPlugin> {
    match Section(opts, t)
    case Some(BabelSection(Some(ps))) => ps
    case _ => []
  }

  /** Gives the target section the plugin list `plugins`, creating the
      section when it is missing. */
  function WithPlugins(opts: AddonOptions, t: Target, plugins: seq<BabelPlugin>): (r: AddonOptions)
    ensures Plugins(r, t) == plugins
    ensures Section(r, t).Some? && Section(r, t).value.plugins.Some?
    ensures Section(r, t.Other()) == Section(opts, t.Other())
  {
    var section := Section(opts, t).GetOr(BabelSection(None)).(plugins := Some(plugins));
    match t
    case Babel => opts.(babel := Some(section))
    case Babel6 => opts.(babel6 := Some(section))
  }

  /** Normalising a section that already holds a plugin list changes
      nothing. */
  lemma WithOwnPlugins(opts: AddonOptions, t: Target)
    requires Section(opts, t).Some? && Section(opts, t).value.plugins.Some?
    ensures WithPlugins(opts, t, Plugins(opts, t)) == opts
  {
  }

  /** A parent addon, the project or the app: only its `options` matter. */
  datatype Owner = Owner(options: Option<AddonOptions>)

  /** Whose options `_getAddonOptions` returns. */
  datatype Origin = FromParent | FromApp | Fresh

  function AddonOptionsOrigin(parent: Option<Owner>, app: Option<Owner>): (o: Origin)
    ensures o == FromParent <==> parent.Some? && parent.value.options.Some?
    ensures o == Fresh <==> (parent.None? || parent.value.options.None?) && (app.None? || app.value.options.None?)
  {
    if parent.Some? && parent.value.options.Some? then FromParent
    else if app.Some? && app.value.options.Some? then FromApp
    else Fresh
  }

  /** `_getAddonOptions`: the parent's options, else the app's, else a new
      empty object. */
  function GetAddonOptions(parent: Option<Owner>, app: Option<Owner>): (r: AddonOptions)
    ensures parent.Some? && parent.value.options.Some? ==> r == parent.value.options.value
    ensures AddonOptionsOrigin(parent, app) == FromApp ==> r == app.value.options.value
    ensures AddonOptionsOrigin(parent, app) == Fresh ==> r == EmptyOptions
  {
    match AddonOptionsOrigin(parent, app)
    case FromParent => parent.value.options.value
    case FromApp => app.value.options.value
    case Fresh => EmptyOptions
  }

  /** Writes changed options back into the object `_getAddonOptions` handed
      out; a fresh `{}` belongs to nobody, so its changes are lost. */
  function StoreAddonOptions(parent: Option<Owner>, app: Option<Owner>, opts: AddonOptions)
    : (r: (Option<Owner>, Option<Owner>))
    ensures AddonOptionsOrigin(parent, app) != FromParent ==> r.0 == parent
    ensures AddonOptionsOrigin(parent, app) != FromApp ==> r.1 == app
    ensures AddonOptionsOrigin(parent, app) == FromParent ==> r.0 == Some(parent.value.(options := Some(opts)))
    ensures AddonOptionsOrigin(parent, app) == FromApp ==> r.1 == Some(app.value.(options := Some(opts)))
  {
    match AddonOptionsOrigin(parent, app)
    case FromParent => (Some(parent.value.(options := Some(opts))), app)
    case FromApp => (parent, Some(app.value.(options := Some(opts))))
    case Fresh => (parent, app)
  }

  /** Storing and reading back: the stored options are found again by the
      same lookup, unless they were written to a fresh object. */
  lemma StoreThenGet(parent: Option<Owner>, app: Option<Owner>, opts: AddonOptions)
    ensures var (p, a) := StoreAddonOptions(parent, app, opts);
            AddonOptionsOrigin(p, a) == AddonOptionsOrigin(parent, app)
            && (AddonOptionsOrigin(parent, app) != Fresh ==> GetAddonOptions(p, a) == opts)
            && (AddonOptionsOrigin(parent, app) == Fresh ==> p == parent && a == app)
  {
  }

  /** Storing the options that were read changes nothing. */
  lemma StoreUnchanged(parent: Option<Owner>, app: Option<Owner>)
    ensures StoreAddonOptions(parent, app, GetAddonOptions(parent, app)) == (parent, app)
  {
  }
}
