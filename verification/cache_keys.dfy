/** Per-plugin cache-key fragments (index.js, `astPlugins`) and the cache key
    of the marked inline-precompile plugin, which joins the template
    compiler's key with those fragments. */
module CacheKeys {
  import opened Optional
  import opened Strings
  import opened AstPluginWrappers

  /** The separator of a fallback fragment and of the joined cache key. */
  const Separator: char := '|'

  /** One reading of the clock and of the random generator:
      `new Date().getTime()` and `Math.random()` as it prints. */
  datatype Nonce = Nonce(time: nat, random: string)

  /** The fragment of a wrapper that offers no caching strategy,
      the clock reading, the separator and the random number: it always holds
      the separator. */
  function FallbackKey(n: Nonce): (k: string)
    ensures Separator in k
    ensures Split(k, Separator)[0] == Decimal(n.time)
  {
    var k := Decimal(n.time) + [Separator] + n.random;
    FirstSeparator(Decimal(n.time), Separator, n.random);
    assert k[..|Decimal(n.time)|] == Decimal(n.time);
    k
  }

  /** Two different readings never give the same fallback fragment. */
  lemma FallbackKeyInjective(a: Nonce, b: Nonce)
    ensures FallbackKey(a) == FallbackKey(b) <==> a == b
  {
    if FallbackKey(a) == FallbackKey(b) {
      SplitAtFirstSeparator(Decimal(a.time), a.random, Decimal(b.time), b.random, Separator);
      DecimalInjective(a.time, b.time);
    }
  }

  /** The fragment of one wrapper: the dependency hash of its base directory
      when it has a `baseDir` function, the fallback otherwise. */
  function FragmentFor(w: AstPluginWrapper, hashForDep: Path -> string, n: Nonce): string {
    match w.baseDir
    case Some(dir) => hashForDep(dir)
    case None => FallbackKey(n)
  }

  /** What `astPlugins` returns: the plugins and their cache keys. */
  datatype PluginInfo = PluginInfo(plugins: seq<PluginHandle>, cacheKeys: seq<string>)

  /** `astPlugins()`: one plugin and one fragment per wrapper, position `i`
      taken from wrapper `i`. `draw(i)` is the clock/random reading taken at
      iteration `i`. */
  function AstPlugins(ws: seq<AstPluginWrapper>, hashForDep: Path -> string, draw: nat -> Nonce): (r: PluginInfo)
    ensures |r.plugins| == |ws| && |r.cacheKeys| == |ws|
    ensures forall i :: 0 <= i < |ws| ==> r.plugins[i] == ws[i].plugin
    ensures forall i :: 0 <= i < |ws| ==> r.cacheKeys[i] == FragmentFor(ws[i], hashForDep, draw(i))
  {
    PluginInfo(
      seq(|ws|, i requires 0 <= i < |ws| => ws[i].plugin),
      seq(|ws|, i requires 0 <= i < |ws| => FragmentFor(ws[i], hashForDep, draw(i))))
  }

  /** A wrapper with a `baseDir` gets the hash of that directory, so two
      wrappers whose directories hash alike get the same fragment, whatever
      the clock says. */
  lemma StableFragment(ws: seq<AstPluginWrapper>, vs: seq<AstPluginWrapper>, i: nat, j: nat,
                       hashForDep: Path -> string, draw: nat -> Nonce, draw': nat -> Nonce)
    requires i < |ws| && j < |vs|
    requires ws[i].baseDir.Some? && vs[j].baseDir.Some?
    requires hashForDep(ws[i].baseDir.value) == hashForDep(vs[j].baseDir.value)
    ensures AstPlugins(ws, hashForDep, draw).cacheKeys[i] == AstPlugins(vs, hashForDep, draw').cacheKeys[j]
    ensures AstPlugins(ws, hashForDep, draw).cacheKeys[i] == hashForDep(ws[i].baseDir.value)
  {
  }

  /** When every wrapper has a `baseDir`, two derivations agree completely. */
  lemma AllStableDeterministic(ws: seq<AstPluginWrapper>, hashForDep: Path -> string,
                               draw: nat -> Nonce, draw': nat -> Nonce)
    requires forall i :: 0 <= i < |ws| ==> ws[i].baseDir.Some?
    ensures AstPlugins(ws, hashForDep, draw) == AstPlugins(ws, hashForDep, draw')
  {
    var a := AstPlugins(ws, hashForDep, draw);
    var b := AstPlugins(ws, hashForDep, draw');
    assert a.cacheKeys == b.cacheKeys;
  }

  /** A wrapper without a `baseDir` gets a fragment that two derivations with
      different readings never share: it forces invalidation, and it is not a
      function of the wrapper. */
  lemma FallbackFragmentFresh(ws: seq<AstPluginWrapper>, i: nat, hashForDep: Path -> string,
                              draw: nat -> Nonce, draw': nat -> Nonce)
    requires i < |ws| && ws[i].baseDir.None?
    requires draw(i) != draw'(i)
    ensures AstPlugins(ws, hashForDep, draw).cacheKeys[i] != AstPlugins(ws, hashForDep, draw').cacheKeys[i]
  {
    FallbackKeyInjective(draw(i), draw'(i));
  }

  /** A fallback fragment can never be mistaken for a directory hash that has
      no separator in it. */
  lemma FallbackNeverStable(ws: seq<AstPluginWrapper>, i: nat, j: nat, hashForDep: Path -> string,
                            draw: nat -> Nonce)
    requires i < |ws| && j < |ws|
    requires ws[i].baseDir.None? && ws[j].baseDir.Some?
    requires Separator !in hashForDep(ws[j].baseDir.value)
    ensures AstPlugins(ws, hashForDep, draw).cacheKeys[i] != AstPlugins(ws, hashForDep, draw).cacheKeys[j]
  {
  }

  /** The text before the wrapper's name in the deprecation line. */
  const OptOutPrefix: string :=
    "ember-cli-htmlbars-inline-precompile is opting out of caching due to an AST plugin that does not provide a caching strategy: `"

  /** The deprecation line written for a wrapper without a caching strategy;
      an undefined name prints as `undefined`. */
  function OptOutMessage(name: Option<string>): string {
    OptOutPrefix + name.GetOr("undefined") + "`."
  }

  /** The deprecation lines `astPlugins` writes, in order. */
  function OptOutWarnings(ws: seq<AstPluginWrapper>): (r: seq<string>)
    ensures |r| <= |ws|
    ensures forall i :: 0 <= i < |ws| && ws[i].baseDir.None? ==> OptOutMessage(ws[i].name) in r
    ensures (forall i :: 0 <= i < |ws| ==> ws[i].baseDir.Some?) ==> r == []
    ensures forall m :: m in r ==>
              exists i :: 0 <= i < |ws| && ws[i].baseDir.None? && m == OptOutMessage(ws[i].name)
  {
    if ws == [] then []
    else
      var rest := OptOutWarnings(ws[1..]);
      var r := (if ws[0].baseDir.None? then [OptOutMessage(ws[0].name)] else []) + rest;
      forall i | 1 <= i < |ws| && ws[i].baseDir.None?
        ensures OptOutMessage(ws[i].name) in r
      {
        assert ws[1..][i - 1] == ws[i];
      }
      forall m | m in rest
        ensures exists i :: 0 <= i < |ws| && ws[i].baseDir.None? && m == OptOutMessage(ws[i].name)
      {
        var j :| 0 <= j < |ws[1..]| && ws[1..][j].baseDir.None? && m == OptOutMessage(ws[1..][j].name);
        assert ws[j + 1] == ws[1..][j];
      }
      r
  }

  /** The lines for a concatenation are the lines for each part in turn:
      one line per wrapper without a `baseDir`, in registration order. */
  lemma {:induction false} OptOutWarningsAppend(a: seq<AstPluginWrapper>, b: seq<AstPluginWrapper>)
    ensures OptOutWarnings(a + b) == OptOutWarnings(a) + OptOutWarnings(b)
  {
    if a == [] {
      assert a + b == b;
    } else {
      assert (a + b)[1..] == a[1..] + b;
      OptOutWarningsAppend(a[1..], b);
    }
  }

  /** A single wrapper gets exactly one line when it has no `baseDir`, and
      none otherwise. */
  lemma OptOutWarningsSingle(w: AstPluginWrapper)
    ensures OptOutWarnings([w]) == if w.baseDir.None? then [OptOutMessage(w.name)] else []
  {
    assert [w][1..] == [];
  }

  /** The cache key of the marked plugin: the template compiler's key
      followed by the plugin fragments, joined by the separator. */
  function MarkerCacheKey(templateCompilerCacheKey: string, info: PluginInfo): (k: string)
    ensures info.cacheKeys == [] ==> k == templateCompilerCacheKey
    ensures info.cacheKeys != [] ==>
              k == templateCompilerCacheKey + [Separator] + Join(info.cacheKeys, Separator)
    ensures (Separator !in templateCompilerCacheKey
             && forall j :: 0 <= j < |info.cacheKeys| ==> Separator !in info.cacheKeys[j]) ==>
              Split(k, Separator) == [templateCompilerCacheKey] + info.cacheKeys
  {
    var parts := [templateCompilerCacheKey] + info.cacheKeys;
    assert parts[1..] == info.cacheKeys;
    if Separator !in templateCompilerCacheKey
       && forall j :: 0 <= j < |info.cacheKeys| ==> Separator !in info.cacheKeys[j]
    then
      assert forall j :: 1 <= j < |parts| ==> parts[j] == info.cacheKeys[j - 1];
      SplitJoin(parts, Separator);
      Join(parts, Separator)
    else
      Join(parts, Separator)
  }

  /** With separator-free fragments (all wrappers have a `baseDir` and the
      hashes hold no `|`), the marked plugin's key changes whenever the
      compiler key, any fragment or the order of the fragments changes. */
  lemma MarkerCacheKeyDistinguishes(c: string, a: PluginInfo, c': string, b: PluginInfo)
    requires Separator !in c && Separator !in c'
    requires forall k :: 0 <= k < |a.cacheKeys| ==> Separator !in a.cacheKeys[k]
    requires forall k :: 0 <= k < |b.cacheKeys| ==> Separator !in b.cacheKeys[k]
    ensures MarkerCacheKey(c, a) == MarkerCacheKey(c', b) <==> c == c' && a.cacheKeys == b.cacheKeys
  {
    var pa := [c] + a.cacheKeys;
    var pb := [c'] + b.cacheKeys;
    assert forall k :: 1 <= k < |pa| ==> pa[k] == a.cacheKeys[k - 1];
    assert forall k :: 1 <= k < |pb| ==> pb[k] == b.cacheKeys[k - 1];
    JoinInjective(pa, pb, Separator);
    if pa == pb {
      assert a.cacheKeys == pa[1..] && b.cacheKeys == pb[1..];
    }
  }
}
