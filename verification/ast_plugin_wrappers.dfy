/** The AST-plugin wrappers loaded from the parent registry under the
    `htmlbars-ast-plugin` hook, and the decision whether all of them can be
    handed to parallel babel workers (index.js, `canParallelize`,
    `getParallelConfig` and the blocking-plugin list of `included`). */
module AstPluginWrappers {
  import opened Optional

  /** A wrapper's `parallelBabel` object: how a worker process re-creates the
      plugin. Its content is passed through untouched. */
  datatype ParallelConfig = ParallelConfig(requireFile: Path, buildUsing: string, params: string)

  /** The plugin object a wrapper carries; only its identity matters here. */
  datatype PluginHandle = PluginHandle(id: nat)

  /** One wrapper. `baseDir` is `Some(d)` when the wrapper has a `baseDir`
      function and `d` is what it returns; `None` when it has no such function.
      `parallelBabel` is `None` exactly when that property is `undefined`. */
  datatype AstPluginWrapper = AstPluginWrapper(
    name: Option<string>,
    plugin: PluginHandle,
    parallelBabel: Option<ParallelConfig>,
    baseDir: Option<Path>)

  /** A wrapper without a `parallelBabel` keeps the whole set sequential. */
  predicate Blocks(w: AstPluginWrapper) {
    w.parallelBabel.None?
  }

  /** `canParallelize`: every wrapper has a defined `parallelBabel`; checked
      front to back. */
  function CanParallelize(ws: seq<AstPluginWrapper>): (r: bool)
    ensures r <==> forall i :: 0 <= i < |ws| ==> ws[i].parallelBabel.Some?
  {
    if ws == [] then true
    else ws[0].parallelBabel.Some? && CanParallelize(ws[1..])
  }

  /** `getParallelConfig`: each wrapper's `parallelBabel`, one entry per
      wrapper, in registration order, neither sorted nor deduplicated. */
  function GetParallelConfig(ws: seq<AstPluginWrapper>): (r: seq<Option<ParallelConfig>>)
    ensures |r| == |ws|
    ensures forall i :: 0 <= i < |ws| ==> r[i] == ws[i].parallelBabel
  {
    if ws == [] then []
    else [ws[0].parallelBabel] + GetParallelConfig(ws[1..])
  }

  /** The names logged as preventing parallel use: each blocking wrapper's
      name, in order, with undefined and empty names dropped. */
  function BlockingPlugins(ws: seq<AstPluginWrapper>): (r: seq<string>)
    ensures |r| <= |ws|
    ensures forall k :: 0 <= k < |r| ==> r[k] != ""
    ensures forall x :: x in r <==>
      exists i :: 0 <= i < |ws| && Blocks(ws[i]) && ws[i].name == Some(x) && x != ""
  {
    if ws == [] then []
    else
      var head := if Blocks(ws[0]) && Truthy(ws[0].name) then [ws[0].name.value] else [];
      var r := head + BlockingPlugins(ws[1..]);
      assert forall i :: 1 <= i < |ws| ==> ws[1..][i - 1] == ws[i];
      r
  }

  /** The blocking list of a concatenation is the concatenation of the
      blocking lists: registration order is kept. */
  lemma {:induction false} BlockingPluginsAppend(a: seq<AstPluginWrapper>, b: seq<AstPluginWrapper>)
    ensures BlockingPlugins(a + b) == BlockingPlugins(a) + BlockingPlugins(b)
  {
    if a == [] {
      assert a + b == b;
    } else {
      assert (a + b)[1..] == a[1..] + b;
      BlockingPluginsAppend(a[1..], b);
    }
  }

  /** No wrapper blocks when all of them can be parallelized; conversely, when
      every name is truthy, an empty blocking list means parallel use. */
  lemma BlockingPluginsEmptyIffParallel(ws: seq<AstPluginWrapper>)
    ensures CanParallelize(ws) ==> BlockingPlugins(ws) == []
    ensures (forall i :: 0 <= i < |ws| ==> Truthy(ws[i].name)) ==>
              (BlockingPlugins(ws) == [] <==> CanParallelize(ws))
  {
    var r := BlockingPlugins(ws);
    if r != [] {
      assert r[0] in r;
    }
    if !CanParallelize(ws) && (forall i :: 0 <= i < |ws| ==> Truthy(ws[i].name)) {
      var i :| 0 <= i < |ws| && ws[i].parallelBabel.None?;
      assert ws[i].name.value in r;
    }
  }

  /** Clearing `parallelBabel` on any one wrapper, wherever it sits, turns the
      verdict to false and, when it has a truthy name, puts that name on the
      blocking list. */
  lemma ClearingOneBlocks(ws: seq<AstPluginWrapper>, i: nat)
    requires i < |ws|
    ensures !CanParallelize(ws[i := ws[i].(parallelBabel := None)])
    ensures Truthy(ws[i].name) ==>
              ws[i].name.value in BlockingPlugins(ws[i := ws[i].(parallelBabel := None)])
  {
    var ws' := ws[i := ws[i].(parallelBabel := None)];
    assert ws'[i].parallelBabel.None?;
  }

  /** Parallel use is possible exactly when every collected config is
      defined. */
  lemma ParallelConfigDefined(ws: seq<AstPluginWrapper>)
    ensures CanParallelize(ws) <==>
              forall i :: 0 <= i < |ws| ==> GetParallelConfig(ws)[i].Some?
  {
    var r := GetParallelConfig(ws);
    if !CanParallelize(ws) {
      var i: int :| 0 <= i < |ws| && ws[i].parallelBabel.None?;
      assert r[i].None?;
      assert GetParallelConfig(ws)[i] == r[i];
      assert !GetParallelConfig(ws)[i].Some?;
    }
  }
}
