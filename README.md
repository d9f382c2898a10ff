# SvelteFrontend build configuration, modelled in Dafny

`svelte.config.js` builds the configuration record that SvelteKit reads at build time. Two of its fields come from environment variables:

- `paths.base` is `BASE_PATH` with one trailing `/` removed (`replace(/\/$/, '')`). It is `''` when the variable is unset or empty.
- `paths.assets` is `ASSETS_PATH` with one trailing `/` removed. This happens only when the value passes `/^https?:\/\//.test`. Otherwise the field is `undefined`.

The other fields are constants: `paths.relative` is `false` and `prerender.entries` is `['*']`.

The model has three modules and one helper:

- `Regex` (regex.dfy) gives the two regular expressions their ECMAScript meaning. It covers only what those two patterns use: the anchors `^` and `$` without the multiline flag, literal characters, and a greedy `?`. It also models the left-to-right search for the first match that both `test` and a non-global `replace` perform.
- `Patterns` (patterns.dfy) holds the two concrete patterns. `ReplaceTrailingSlash` and `TestHttpScheme` apply them, and their contracts say in plain sequence terms what each one computes:
  - a slash at the end is dropped, and only one;
  - the input begins with `http://` or `https://`, and the check is case-sensitive.
- `SvelteConfig` (svelte_config.dfy) holds the configuration record as nested datatypes (`Config`, `Kit`, `Paths`, `Prerender`). It also holds JavaScript truthiness of an environment value (`IsTruthy`), the two derivations, the loader `LoadConfig`, and the properties of each.
- `Wrappers` (wrappers.dfy) is the helper: an `Option` type. An unset environment variable is `None`, and an `undefined` `assets` field is `None` too.

`LoadConfig` has no precondition and returns a plain `Config`, so every pair of inputs yields a record and there is no error outcome.

Three properties one might expect do not hold, and a lemma exhibits each:

- `base` can end with `/`: `BASE_PATH="/app//"` gives `"/app/"` (`BaseMayEndWithSlash`).
- A present `assets` need not begin with a scheme: `ASSETS_PATH="http://"` gives `"http:/"` (`AssetsMayLoseScheme`).
- A present `assets` can end with `/`: `ASSETS_PATH="https://x//"` gives `"https://x/"` (`AssetsMayEndWithSlash`).

## Model

| member | source | states |
|---|---|---|
| `Regex.MatchFrom` | svelte.config.js:4-7 | a match that starts at a given index ends at or after it and within the input |
| `Regex.Exec` | svelte.config.js:4-7 | the search returns the first index where the pattern matches, with that match's end; no earlier index matches; when it returns nothing, no index matches |
| `Regex.ExecFromStart` | svelte.config.js:4-7 | a search from index 0 succeeds iff the pattern matches at some index, and then it returns the first such index with that match's end |
| `Regex.Test` | svelte.config.js:6 | `test` holds iff the pattern matches at some index of the input |
| `Regex.Replace` | svelte.config.js:4-7 | a non-global `replace` returns the input unchanged when the pattern matches nowhere; otherwise it puts the replacement text, taken literally, in place of the match at the first matching index and keeps the rest |
| `Patterns.TrailingSlashExec` | svelte.config.js:4 | `/\/$/` matches at the last index exactly when the input ends with `/`, and nowhere else |
| `Patterns.ReplaceTrailingSlash` | svelte.config.js:4 | `replace(/\/$/, '')` gives a result that, with `/` appended, is the input when the input ends with `/`; otherwise it is the input unchanged |
| `Patterns.HttpSchemeAtStart` | svelte.config.js:6 | at index 0 the scheme pattern matches exactly the strings that begin with `http://` or `https://` |
| `Patterns.HttpSchemeExec` | svelte.config.js:6 | because of `^`, the scheme pattern is found only by a search from index 0, and only on strings that begin with a scheme |
| `Patterns.TestHttpScheme` | svelte.config.js:6 | `/^https?:\/\//.test(s)` holds iff `s` begins with `http://` or `https://` |
| `Patterns.ReplaceTrailingSlashUndoesAppend` | svelte.config.js:4 | trimming `s + "/"` gives back `s` |
| `Patterns.ReplaceTrailingSlashLength` | svelte.config.js:4 | the trim shortens its input by exactly one character when it ends with `/`, and otherwise not at all |
| `Patterns.ReplaceTrailingSlashTwice` | svelte.config.js:4 | trimming twice equals trimming once iff the input does not end with `//`, so the trim is not a normalisation |
| `Patterns.ReplaceTrailingSlashNotIdempotent` | svelte.config.js:4 | `"/a//"` trims to `"/a/"` and then to `"/a"` |
| `Patterns.HttpSchemeExamples` | svelte.config.js:6 | the test accepts `https://cdn.example.com/` and `http://`, and rejects `cdn.example.com`, `HTTPS://x` and `http:/` |
| `SvelteConfig.IsTruthy` | svelte.config.js:4-6 | an unset variable and the empty string are falsy; every non-empty string is truthy |
| `SvelteConfig.DeriveBase` | svelte.config.js:4 | `base` is `""` for an unset or empty `BASE_PATH`; it is always a prefix of the input; it equals an input that does not end with `/`; otherwise it is the input minus its final `/` |
| `SvelteConfig.DeriveAssets` | svelte.config.js:5-8 | `assets` is present iff `ASSETS_PATH` is set and begins with `http://` or `https://`; when present it is a prefix of the input, equal to it unless the input ends with `/`, in which case it is the input minus that `/` |
| `SvelteConfig.LoadConfig` | svelte.config.js:11-25 | the loader is total; `paths.base` is derived from `BASE_PATH` alone and `paths.assets` from `ASSETS_PATH` alone; `paths.relative` is `false` and `prerender.entries` is `["*"]` for every input |
| `SvelteConfig.BaseDropsOneSlash` | svelte.config.js:4 | for a `BASE_PATH` ending in `/`, `base` is the input without its last character, one character shorter |
| `SvelteConfig.BaseExamples` | svelte.config.js:4 | unset, `""` and `"/"` give `""`; `"/app"` and `"/app/"` give `"/app"`; `"/app//"` gives `"/app/"` |
| `SvelteConfig.BaseMayEndWithSlash` | svelte.config.js:4 | `base` can end with `/`: `"/app//"` yields `"/app/"` |
| `SvelteConfig.AssetsAbsentExamples` | svelte.config.js:5-8 | an unset or empty `ASSETS_PATH`, `cdn.example.com` and `HTTPS://x` give no `assets` |
| `SvelteConfig.AssetsPresentExamples` | svelte.config.js:5-8 | `https://cdn.example.com` and `https://cdn.example.com/` both give `https://cdn.example.com` |
| `SvelteConfig.AssetsMayEndWithSlash` | svelte.config.js:7 | `https://x//` gives `https://x/`, so a present `assets` can still end with `/` |
| `SvelteConfig.AssetsMayLoseScheme` | svelte.config.js:6-7 | `http://` gives `http:/`, which no longer begins with a scheme, so a present `assets` need not be a well-formed http(s) URL |

## Left out

- Reading `process.env` is environment input. The two variables are the `Option<string>` parameters of `LoadConfig`.
- `adapter()` from `@sveltejs/adapter-static` and `vitePreprocess()` from `@sveltejs/vite-plugin-svelte` (svelte.config.js:1-2, 12, 15) are calls into libraries whose code is not part of this model. The `preprocess` and `kit.adapter` fields are therefore not in the record.
- What SvelteKit does with the record (routing, prerender crawling, rewriting asset URLs) is not part of this model.
- `export default config` (svelte.config.js:27) is module plumbing and has nothing to model.
- Regular expressions in general: `Regex` supports only `^`, `$`, literal characters and a greedy `?`, with no flags. That is all the two patterns need.
- Regex.Replace: inserts its replacement as literal text and does not expand the `$` patterns (`$$`, `$&`, `` $` ``, `$'`, `$n`) of a JavaScript replacement string. The configuration only ever replaces with `''`, which has none.
- JavaScript strings are sequences of UTF-16 code units and Dafny strings are sequences of `char`. The two patterns are plain ASCII, so this makes no difference to the model.
