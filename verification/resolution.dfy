/** The project as the addon sees it, and where the template compiler is
    found (index.js, `templateCompilerPath`). */
module Resolution {
  import opened Optional

  /** The `ember-cli-htmlbars` section of the project configuration. */
  datatype HtmlbarsConfig = HtmlbarsConfig(templateCompilerPath: Option<string>)

  /** The resolved project configuration for the active environment. */
  datatype ProjectConfig = ProjectConfig(htmlbars: Option<HtmlbarsConfig>)

  /** The `ember-source` addon: where it keeps its template compiler. */
  datatype EmberSource = EmberSource(templateCompiler: Path)

  /** The upstream `ember-cli-htmlbars` addon, which may have registered the
      inline precompiler itself. */
  datatype HtmlbarsAddon = HtmlbarsAddon(inlinePrecompilerRegistered: bool)

  datatype Project = Project(
    root: Path,
    bowerDirectory: string,
    emberSource: Option<EmberSource>,
    htmlbars: Option<HtmlbarsAddon>,
    config: ProjectConfig)

  /** Where the template compiler lives under the bower directory. */
  const BowerCompilerSuffix: string := "/ember/ember-template-compiler"

  /** The `templateCompilerPath` of the `ember-cli-htmlbars` configuration
      section, kept only when the section exists and the path is non-empty. */
  function ConfiguredCompilerPath(config: ProjectConfig): (r: Option<string>)
    ensures r.Some? ==> r.value != ""
    ensures r.Some? <==> config.htmlbars.Some? && Truthy(config.htmlbars.value.templateCompilerPath)
  {
    match config.htmlbars
    case Some(HtmlbarsConfig(Some(p))) => if p != "" then Some(p) else None
    case _ => None
  }

  /** `templateCompilerPath()`. `resolve` stands for `path.resolve`. */
  function TemplateCompilerPath(project: Project, resolve: (Path, Path) -> Path): (r: Path)
    ensures project.emberSource.Some? ==> r == project.emberSource.value.templateCompiler
    ensures project.emberSource.None? ==>
              r == resolve(project.root,
                           ConfiguredCompilerPath(project.config).GetOr(project.bowerDirectory + BowerCompilerSuffix))
  {
    match project.emberSource
    case Some(ember) => ember.templateCompiler
    case None =>
      var configured := ConfiguredCompilerPath(project.config);
      var relative := if configured.Some? then configured.value else project.bowerDirectory + BowerCompilerSuffix;
      resolve(project.root, relative)
  }

  /** With `ember-source` present, neither the configuration override, the
      bower directory nor the project root has any say. */
  lemma EmberSourceWins(project: Project, config: ProjectConfig, bower: string, root: Path,
                        resolve: (Path, Path) -> Path)
    requires project.emberSource.Some?
    ensures TemplateCompilerPath(project.(config := config, bowerDirectory := bower, root := root), resolve)
            == TemplateCompilerPath(project, resolve)
  {
  }

  /** Without `ember-source`, a truthy configured path beats the bower
      fallback, which then has no say; both are resolved against the root. */
  lemma ConfiguredPathBeatsBower(project: Project, bower: string, resolve: (Path, Path) -> Path)
    requires project.emberSource.None?
    requires project.config.htmlbars.Some? && Truthy(project.config.htmlbars.value.templateCompilerPath)
    ensures TemplateCompilerPath(project, resolve)
            == resolve(project.root, project.config.htmlbars.value.templateCompilerPath.value)
    ensures TemplateCompilerPath(project.(bowerDirectory := bower), resolve) == TemplateCompilerPath(project, resolve)
  {
  }

  /** Without `ember-source`, an absent or empty configured path falls back
      to the bower copy of the compiler. */
  lemma BowerFallback(project: Project, resolve: (Path, Path) -> Path)
    requires project.emberSource.None?
    requires project.config.htmlbars.None? || !Truthy(project.config.htmlbars.value.templateCompilerPath)
    ensures TemplateCompilerPath(project, resolve)
            == resolve(project.root, project.bowerDirectory + "/ember/ember-template-compiler")
  {
  }
}
