/** The configuration record that svelte.config.js hands to SvelteKit, and how its
    `paths.base` and `paths.assets` are derived from the `BASE_PATH` and
    `ASSETS_PATH` environment variables. An unset variable is None. */
module SvelteConfig {

  import opened Wrappers
  import opened Patterns

  datatype Paths = Paths(base: string, assets: Option<string>, relative: bool)

  datatype Prerender = Prerender(entries: seq<string>)

  datatype Kit = Kit(paths: Paths, prerender: Prerender)

  datatype Config = Config(kit: Kit)

  /** JavaScript truthiness of an environment value: `undefined` and the empty
      string are falsy, every other string is truthy. */
  predicate IsTruthy(v: Option<string>): (r: bool)
    ensures v == None ==> !r
    ensures v == Some("") ==> !r
    ensures v.Some? && |v.value| > 0 ==> r
  {
    v.Some? && v.value != ""
  }

  /** `paths.base`: the value of `BASE_PATH` less one trailing slash, or the empty
      string when the variable is unset or empty. */
  function DeriveBase(basePath: Option<string>): (base: string)
    ensures !IsTruthy(basePath) ==> base == ""
    ensures basePath.Some? ==> base <= basePath.value
    ensures basePath.Some? && !EndsWithSlash(basePath.value) ==> base == basePath.value
    ensures basePath.Some? && EndsWithSlash(basePath.value) ==> base + "/" == basePath.value
  {
    if IsTruthy(basePath) then ReplaceTrailingSlash(basePath.value) else ""
  }

  /** `paths.assets`: the value of `ASSETS_PATH` less one trailing slash when it
      begins with `http://` or `https://`; absent otherwise. */
  function DeriveAssets(assetsPath: Option<string>): (assets: Option<string>)
    ensures assets.Some? <==> assetsPath.Some? && HasHttpScheme(assetsPath.value)
    ensures assets.Some? ==> assets.value <= assetsPath.value
    ensures assets.Some? && !EndsWithSlash(assetsPath.value) ==> assets.value == assetsPath.value
    ensures assets.Some? && EndsWithSlash(assetsPath.value) ==> assets.value + "/" == assetsPath.value
  {
    if IsTruthy(assetsPath) && TestHttpScheme(assetsPath.value)
    then Some(ReplaceTrailingSlash(assetsPath.value))
    else None
  }

  /** The exported `config`, for one pair of environment values. There is no
      error outcome: every pair of inputs yields a record. `paths.base` depends
      on `BASE_PATH` alone and `paths.assets` on `ASSETS_PATH` alone; the other
      fields are the same for every input. */
  function LoadConfig(basePath: Option<string>, assetsPath: Option<string>): (c: Config)
    ensures c.kit.paths.base == DeriveBase(basePath)
    ensures c.kit.paths.assets == DeriveAssets(assetsPath)
    ensures !c.kit.paths.relative
    ensures c.kit.prerender.entries == ["*"]
  {
    Config(Kit(Paths(DeriveBase(basePath), DeriveAssets(assetsPath), false), Prerender(["*"])))
  }

  /** A `BASE_PATH` ending in a slash loses that one character and nothing else. */
  lemma BaseDropsOneSlash(s: string)
    requires EndsWithSlash(s)
    ensures DeriveBase(Some(s)) == s[..|s| - 1]
    ensures |DeriveBase(Some(s))| == |s| - 1
  {
  }

  lemma BaseExamples()
    ensures DeriveBase(None) == ""
    ensures DeriveBase(Some("")) == ""
    ensures DeriveBase(Some("/")) == ""
    ensures DeriveBase(Some("/app")) == "/app"
    ensures DeriveBase(Some("/app/")) == "/app"
    ensures DeriveBase(Some("/app//")) == "/app/"
  {
  }

  /** `base` can still end with a slash: only one is removed. */
  lemma BaseMayEndWithSlash()
    ensures EndsWithSlash(DeriveBase(Some("/app//")))
  {
    BaseExamples();
  }

  /** Without a case-sensitive scheme prefix `ASSETS_PATH` is ignored. */
  lemma AssetsAbsentExamples()
    ensures DeriveAssets(None) == None
    ensures DeriveAssets(Some("")) == None
    ensures DeriveAssets(Some("cdn.example.com")) == None
    ensures DeriveAssets(Some("HTTPS://x")) == None
  {
  }

  lemma AssetsPresentExamples()
    ensures DeriveAssets(Some("https://cdn.example.com")) == Some("https://cdn.example.com")
    ensures DeriveAssets(Some("https://cdn.example.com/")) == Some("https://cdn.example.com")
  {
    var host := "https://cdn.example.com";
    assert "https://" <= host && "https://" <= host + "/";
    assert host + "/" == "https://cdn.example.com/";
    ReplaceTrailingSlashUndoesAppend(host);
  }

  /** A present `assets` need not begin with a scheme any more: the trim can eat
      one of the two slashes of `http://`. */
  lemma AssetsMayLoseScheme()
    ensures DeriveAssets(Some("http://")) == Some("http:/")
    ensures !HasHttpScheme(DeriveAssets(Some("http://")).value)
  {
    assert "http:/" + "/" == "http://";
    ReplaceTrailingSlashUndoesAppend("http:/");
  }

  /** Nor need a present `assets` be free of a trailing slash: only one of two is
      removed. */
  lemma AssetsMayEndWithSlash()
    ensures DeriveAssets(Some("https://x//")) == Some("https://x/")
    ensures EndsWithSlash(DeriveAssets(Some("https://x//")).value)
  {
    assert "https://x/" + "/" == "https://x//";
    assert "https://" <= "https://x//";
    ReplaceTrailingSlashUndoesAppend("https://x/");
  }
}
