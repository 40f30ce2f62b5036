/** Worked cases of the negotiation and registration rules. */
module Scenarios {
  import opened Optional
  import opened AstPluginWrappers
  import opened CacheKeys
  import opened Resolution
  import opened BabelOptions
  import opened Registration

  function Wrapper(name: string, id: nat, parallelBabel: Option<ParallelConfig>): AstPluginWrapper {
    AstPluginWrapper(Some(name), PluginHandle(id), parallelBabel, Some("/plugins/" + name))
  }

  /** Two wrappers with parallel configs X and Y: parallel use is possible
      and the configs come back as [X, Y], in that order. */
  lemma BothParallel(x: ParallelConfig, y: ParallelConfig)
    ensures var ws := [Wrapper("A", 0, Some(x)), Wrapper("B", 1, Some(y))];
            CanParallelize(ws) && GetParallelConfig(ws) == [Some(x), Some(y)] && BlockingPlugins(ws) == []
  {
    var ws := [Wrapper("A", 0, Some(x)), Wrapper("B", 1, Some(y))];
    BlockingPluginsEmptyIffParallel(ws);
  }

  /** A wrapper "B" without a parallel config blocks parallel use, is the one
      name on the blocking list, and the entry built is the sequential one. */
  lemma SecondBlocks(x: ParallelConfig, tcp: Path, info: PluginInfo, config: ProjectConfig, env: Collaborators)
    ensures var ws := [Wrapper("A", 0, Some(x)), Wrapper("B", 1, None)];
            && !CanParallelize(ws)
            && BlockingPlugins(ws) == ["B"]
            && BuildEntry(ws, tcp, info, config, env).SequentialEntry?
  {
    var ws := [Wrapper("A", 0, Some(x)), Wrapper("B", 1, None)];
    assert ws[1..][1..] == [];
  }

  /** A wrapper without a name does not show up on the blocking list, though
      it still blocks. */
  lemma UnnamedBlockerIsSilent(id: nat)
    ensures var ws := [AstPluginWrapper(None, PluginHandle(id), None, None)];
            !CanParallelize(ws) && BlockingPlugins(ws) == []
  {
    var ws := [AstPluginWrapper(None, PluginHandle(id), None, None)];
    assert ws[1..] == [];
  }

  /** An app whose babel list holds one foreign plugin gets the marked plugin
      and a parallel entry appended; a second `included` adds nothing. */
  lemma AppRegistersOnce(x: ParallelConfig, env: Collaborators, draw: nat -> Nonce, draw': nat -> Nonce)
    ensures var project := Project("/app", "bower_components", None, None, ProjectConfig(None));
            var foreign := Foreign(None, 7);
            var app := Owner(Some(AddonOptions(Some(BabelSection(Some([foreign]))), None)));
            var a := Addon(project, None, Some(app), false, [Wrapper("A", 0, Some(x))]);
            var r := Included(a, env, false, draw);
            var plugins := r.app.value.options.value.babel.value.plugins.value;
            && |plugins| == 3
            && plugins[0] == foreign
            && Marked(plugins[1])
            && plugins[2].ParallelEntry?
            && Included(r, env, false, draw') == r
  {
    var project := Project("/app", "bower_components", None, None, ProjectConfig(None));
    var foreign := Foreign(None, 7);
    var app := Owner(Some(AddonOptions(Some(BabelSection(Some([foreign]))), None)));
    var a := Addon(project, None, Some(app), false, [Wrapper("A", 0, Some(x))]);
    assert !RegisteredWithBabel([foreign]);
    IncludedIdempotent(a, env, false, draw, draw');
  }
}
